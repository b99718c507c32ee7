/** The pressed-key map and how keys name directions and the interaction. */
module Input {
  /** The `keys` slot: lower-cased key name to held / released. */
  type KeyMap = map<string, bool>

  function LowerChar(ch: char): char {
    if 'A' <= ch <= 'Z' then (ch as int - 'A' as int + 'a' as int) as char else ch
  }

  /** `String.prototype.toLowerCase` on the ASCII letters. */
  function ToLower(s: string): (r: string)
    ensures |r| == |s|
    ensures forall i :: 0 <= i < |s| ==> !('A' <= r[i] <= 'Z')
    ensures forall i :: 0 <= i < |s| && !('A' <= s[i] <= 'Z') ==> r[i] == s[i]
    ensures forall i :: 0 <= i < |s| && 'A' <= s[i] <= 'Z' ==> r[i] as int == s[i] as int + 32
  {
    seq(|s|, i requires 0 <= i < |s| => LowerChar(s[i]))
  }

  /** `keys[k]`: an absent key reads as `undefined`, which is falsy. */
  predicate Held(keys: KeyMap, k: string) {
    k in keys && keys[k]
  }

  datatype Direction = Up | Down | Left | Right

  function LetterKey(d: Direction): string {
    match d
    case Up => "w"
    case Down => "s"
    case Left => "a"
    case Right => "d"
  }

  function ArrowKey(d: Direction): string {
    match d
    case Up => "arrowup"
    case Down => "arrowdown"
    case Left => "arrowleft"
    case Right => "arrowright"
  }

  /** A direction is requested when its letter or its arrow is held. */
  predicate Pressed(keys: KeyMap, d: Direction) {
    Held(keys, LetterKey(d)) || Held(keys, ArrowKey(d))
  }

  /** The keys that start a challenge, compared before lower-casing. */
  predicate IsInteractKey(key: string) {
    key == " " || key == "Enter"
  }
}
