# Pineapple Knife Bum: a verified model of the game core

The game is one browser component (`app.js`). A farmer walks around an
800×600 arena with WASD or the arrow keys. Eight creatures wander and bounce
off the walls. Space or Enter next to a creature starts a round of
rock-paper-scissors: Pineapple beats Knife, Knife beats Bum, Bum beats
Pineapple. Three wins against one creature recruit it, and recruited
creatures follow the player.

This project models the logic under the markup. It proves properties of
that logic in Dafny:

- `Rules` (`rules.dfy`): the moves, `getWinner`, and the way a random number
  picks the creature's move.
- `Geometry` (`geometry.dfy`): the arena constants, the clamps, and
  `getDistance` compared on squares. The square root never has to be taken.
- `Entities` (`entities.dfy`): the creature record and `generateCreature`.
  Its five `Math.random()` results come in as a `Draw` value.
- `Input` (`input.dfy`): the held-keys map, lower-casing, and which keys mean
  which direction.
- `Movement` (`movement.dfy`): the body of one `animate` frame. The player
  step exists twice: as a function `StepPlayer`, and as the imperative
  `MovePlayer` with the source's chain of conditional updates, which is
  proved equal to that function. It also holds wandering (`Wander`, built on
  `Bounce`), following (`Follow`), the list update (`TickCreatures`) and the
  first-nearby scan (`FindIndex`, `FindNearby`).
- `GameController` (`game.dfy`): class `Game`. Its fields are the
  component's `useState` slots. Its methods are the transitions that
  overwrite those slots: key down and up, one animation frame, the move
  buttons, the countdown, the reveal and return timers, and reset. Every
  method keeps the invariant `Valid()`. Every method gives the complete new
  state through `State()`, a value of type `Slots`.

Timers and randomness are explicit. One call to `Tick` is one animation
frame. One call to `CountdownStep` is one run of the countdown effect. A
call above zero is one second of the countdown timer (app.js:203-205). The
call at zero is the effect's immediate switch to revealing (app.js:207-208),
which has no timer of its own, so an uninterrupted countdown of 3 lasts three
seconds but takes four calls. At zero, `CountdownStep` returns the reveal
timer's callback as a `RevealTask` value. That value captures the moves, the
selected creature and the win map as they were at that moment. `Resolve`
applies a task to whatever the state is when it fires. `ReturnToExploring`
is the two-second return timer.

In the source, `resetGame` cancels neither timer. So the model lets a task
fire after a reset, and it claims no protection against that. The countdown
timer itself is different. React's effect cleanup clears it as soon as the
mode changes, so `CountdownStep` acts only in countdown mode.

Three details of the code are easy to miss:

- The animation frame moves party creatures, and measures proximity, from
  the player's position before that frame's step. `setCreatures` runs with
  the `player` value of the render that scheduled the frame
  (app.js:132, 171).
- A follower's horizontal offset grows with its `id`, not with its place in
  the party (app.js:132).
- When a round ends, only the mode and the selected creature are cleared.
  `playerMove`, `creatureMove` and `battleResult` keep their values. A reset
  does not clear them either, nor `countdown`.

The roster `party` holds the snapshot of the creature taken when the battle
started, so its `inParty` flag is false. The invariant therefore links
roster and flags by identity. Every roster entry names a creature whose flag
is set, and every flagged creature has a roster entry (`PartyMatchesFlags`).

Entries may repeat. Suppose the player presses space after a recruiting
round but before the next animation frame. The stale nearby snapshot then
starts a round against the recruited creature, and a further win appends it
again. So no distinctness is claimed.

Some properties do not hold in this untimed model, so the model does not
claim them. Win counts need not rise monotonically, and a party member need
not have three recorded wins. A stale reveal task carries an old snapshot of
the win map, and with no timing the order of events is free.

## Model

| member | source | states |
|---|---|---|
| Rules.GetWinner | app.js:24-34 | A tie exactly on equal moves. The player wins exactly when the player's move beats the creature's in the cycle Pineapple→Knife→Bum→Pineapple, and the creature wins exactly when the reverse holds. |
| Rules.GetWinnerSwaps | app.js:24-34 | Exchanging the two moves exchanges winner and loser and keeps a tie. |
| Rules.DistinctMovesHaveOneWinner | app.js:24-34 | For distinct moves, exactly one of `GetWinner(a,b)` and `GetWinner(b,a)` is a player win. |
| Rules.WinningPairs | app.js:26-31 | The player wins on exactly the pairs (Pineapple,Knife), (Knife,Bum) and (Bum,Pineapple). |
| Rules.PickMove | app.js:192-193 | A random number in [0,1) picks Pineapple, Knife or Bum by thirds, in `Object.keys(MOVES)` order. |
| Rules.EveryMoveCanBePicked | app.js:192-193 | Every move is the creature's move for some random number. |
| Geometry.ClampInt | app.js:121-122 | `max(lo, min(hi, v))` lies in [lo,hi]. It is `v` inside that range and the nearer bound outside it. |
| Geometry.ClampReal | app.js:156-163 | The same clamp on real coordinates. |
| Geometry.Dist2 | app.js:36-40 | The squared Euclidean distance is non-negative. |
| Geometry.RadiusBySquares | app.js:36-40 | For a distance d with d² = d2, `d < r` holds exactly when `d2 < r²`. This justifies the squared tests against 60 and 5. |
| Entities.GenerateCreature | app.js:42-51 | A fresh creature keeps the given id and has zero wins. It is not in the party, has x in [0,760) and y in [0,560), each velocity component in [-1,1), and the glyph with index k exactly when the glyph draw lies in [k/7, (k+1)/7). |
| Entities.GenerateCreatures | app.js:246 | A batch has 8 creatures with ids 0..7. Each has zero wins, is outside the party and lies inside the walls. |
| Input.ToLower | app.js:81 | Lower-casing keeps the length, leaves no upper-case ASCII letter, and changes nothing else. |
| Movement.Axis | app.js:115-118 | The net key request on an axis is -1, 0 or 1. It is 0 when both or neither of the opposing directions are held, +1 when only the increasing direction (down, right) is held and -1 when only the decreasing one (up, left) is held. |
| Movement.StepPlayer | app.js:111-125 | After a frame, the player lies in [0,750]×[0,550]. |
| Movement.MovePlayer | app.js:111-125 | The source's conditional updates and clamp compute exactly `StepPlayer`. |
| Movement.PlayerStepBounded | app.js:115-122 | From inside the arena, a frame changes each coordinate by at most 3. |
| Movement.OpposingKeysCancel | app.js:115-118 | Holding both keys of an opposing pair, or neither, leaves that coordinate unchanged. |
| Movement.LetterAndArrowInterchangeable | app.js:115-118 | Pressing a direction's letter or its arrow key gives the same step. |
| Movement.OneKeyMovesThatWay | app.js:115-122 | With one direction of a pair held (letter or arrow), the player moves 3 that way and stops at the wall: up gives `max(y-3, 0)`, down `min(y+3, 550)`, left `max(x-3, 0)`, right `min(x+3, 750)`. |
| Movement.Bounce | app.js:150-163 | On one axis, the new position lies between the walls. The velocity is negated exactly when `pos+vel` touches or crosses a wall, and the position is then that wall; otherwise the position is `pos+vel`. |
| Movement.Wander | app.js:148-166 | A wandering creature ends inside [0,760]×[0,560]. `dx` is negated exactly when `x+dx <= 0 or x+dx >= 760`, and likewise `dy`. In free flight the position is integrated; a creature that touches or crosses a wall ends exactly on it (0 or 760 for x, 0 or 560 for y). Id, glyph, wins and party flag are unchanged. |
| Movement.LeftWallReflects | app.js:156-159 | A creature that reaches the left wall ends at x = 0 with its horizontal speed reversed. |
| Movement.Follow | app.js:130-147 | A party creature within 5 of its target (squared distance at most 25) is returned unchanged. Otherwise only its position moves, by the supplied step toward `(player.x - 80 - id*30, player.y)`. |
| Movement.TickCreature | app.js:129-167 | A creature keeps id, glyph, wins and party flag. A non-party creature wanders and stays inside the walls. A party creature follows. |
| Movement.TickCreatures | app.js:128-176 | The list keeps its length and order, and every element keeps its id and party flag. Non-party creatures stay inside the walls. A party creature within the snap radius is unchanged. |
| Movement.FindIndex | app.js:170-172 | The result is the first index whose creature is outside the party and within squared distance 3600 of the player. It is none exactly when no such index exists. |
| Movement.FindNearby | app.js:170-173 | The nearby creature is none exactly when no creature qualifies. Otherwise it is the first qualifying creature in list order, and it is never a party creature. |
| GameController.JoinParty | app.js:221-223 | Exactly the creatures with the given id get the party flag. Every other field of every creature is unchanged. |
| GameController.JoinKeepsPartyMatched | app.js:219-224 | Appending the winner to the roster while flagging it keeps roster and flags matched. |
| GameController.Game.constructor | app.js:54-76 | The initial state: 8 fresh creatures, an empty party and win map, mode exploring, no selection, moves or result, countdown 3, player at (375,275), nothing held or nearby. |
| GameController.Game.StartBattle | app.js:84-90 | From exploring with a nearby creature: that creature becomes selected, the mode becomes battling, and the player's move and the result are cleared. Nothing else changes. |
| GameController.Game.KeyDown | app.js:80-91 | The lower-cased key is recorded as held. A battle starts exactly when the key is space or Enter, a creature is nearby and the mode is exploring. Otherwise nothing else changes. |
| GameController.Game.KeyUp | app.js:93-95 | The lower-cased key is recorded as released, and nothing else changes. |
| GameController.Game.Tick | app.js:108-176 | Outside exploring, nothing changes. While exploring, the player takes `StepPlayer`, the creatures take `TickCreatures`, and the nearby creature becomes `FindNearby`, with both computed from the pre-step player. The nearby creature is never in the party and lies within the radius. |
| GameController.Game.ChooseMove | app.js:190-198 | From battling (the only mode that shows the buttons, app.js:341-361): the player's move is recorded, the creature's move is `PickMove(roll)`, the mode becomes countdown and the counter becomes 3. |
| GameController.Game.CountdownStep | app.js:201-210 | In countdown with a positive counter, the counter drops by exactly 1 and the mode is unchanged. At 0, the mode becomes revealing and the reveal task captures the moves, the selection and the win map. In other modes nothing changes. |
| GameController.Game.Resolve | app.js:211-224 | The result is `GetWinner` of the captured moves. Only a player win touches the win map: the creature's count becomes its captured count (0 if absent) plus 1. From 3 on, that creature alone gets the party flag and the selection is appended to the roster. Ties and losses change only the result. The creature carried by the `RevealTask` must belong to the batch (ids 0..7, not in the party), which `CountdownStep` guarantees for every task it returns. |
| GameController.Game.ReturnToExploring | app.js:225-239 | Whatever the outcome, the mode becomes exploring and the selection is cleared. Nothing else changes. |
| GameController.Game.Reset | app.js:245-257 | A new batch of 8 (ids 0..7, zero wins, none in the party), an empty roster and win map, mode exploring, no selection, nothing nearby, and the player at (375,275). The moves, result, countdown and held keys are unchanged. |
| GameController.Game.PlayRound | app.js:190-240 | An uninterrupted round ends in exploring with no selection. The creature's count rises by one exactly on a player win. The creature is recruited exactly when that win brings its count to 3 or more. Otherwise nothing changes besides the moves, the result and a zero countdown. |

## Left out

- Rendering: the arena, the overlays, the roster, the interaction cue, the instructions and the styling (app.js:259-445). It only displays state.
- React scheduling: effect subscription and re-subscription, `useRef`, and `requestAnimationFrame`/`cancelAnimationFrame`. A frame is one call to `Tick`.
- Wall-clock delays: each `setTimeout` is a method the caller invokes. The model does not bound the order in which they fire.
- `Math.random`: the random numbers are parameters in [0,1) (`Draw`, `roll`).
- Movement.Follow: the size of the follow step is not modelled. The source normalises the offset with `Math.sqrt` and scales it to 0.8 × 3 in floating point. Here the caller supplies the step as a function of the offset.
- Floating point: creature coordinates are exact reals, and the player's coordinates are integers, as in the source, where they only ever change by whole steps.
- Input.ToLower: lower-cases ASCII letters only, not the whole of Unicode as `toLowerCase` does. Only ASCII key names matter to the game.
- DOM events: `preventDefault` on the interaction key, and key auto-repeat.
- Glyph strings and the player's glyph: a glyph is a value of a seven-constructor datatype.
