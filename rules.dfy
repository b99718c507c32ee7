/** The three moves and the rule that decides a round. */
module Rules {
  datatype Move = Pineapple | Knife | Bum

  /** What `getWinner` returns: 'tie', 'player' or 'creature'. */
  datatype Outcome = Tie | PlayerWins | CreatureWins

  /** The moves in the order `Object.keys(MOVES)` lists them. */
  const MOVE_ORDER: seq<Move> := [Pineapple, Knife, Bum]

  /** The move that `m` defeats: each move beats the next one round the cycle. */
  function Prey(m: Move): Move {
    match m
    case Pineapple => Knife
    case Knife => Bum
    case Bum => Pineapple
  }

  predicate Beats(a: Move, b: Move) {
    b == Prey(a)
  }

  /** Decides a round from the player's and the creature's move. */
  function GetWinner(playerMove: Move, creatureMove: Move): (r: Outcome)
    ensures r == Tie <==> playerMove == creatureMove
    ensures r == PlayerWins <==> Beats(playerMove, creatureMove)
    ensures r == CreatureWins <==> Beats(creatureMove, playerMove)
  {
    if playerMove == creatureMove then Tie
    else if (playerMove == Pineapple && creatureMove == Knife)
         || (playerMove == Knife && creatureMove == Bum)
         || (playerMove == Bum && creatureMove == Pineapple)
    then PlayerWins
    else CreatureWins
  }

  /** The same round seen from the other side. */
  function Swap(o: Outcome): Outcome {
    match o
    case Tie => Tie
    case PlayerWins => CreatureWins
    case CreatureWins => PlayerWins
  }

  /** Exchanging the two moves exchanges winner and loser and keeps a tie a tie. */
  lemma GetWinnerSwaps(a: Move, b: Move)
    ensures GetWinner(b, a) == Swap(GetWinner(a, b))
  {
  }

  /** Of two distinct moves exactly one wins when played by the player. */
  lemma DistinctMovesHaveOneWinner(a: Move, b: Move)
    requires a != b
    ensures (GetWinner(a, b) == PlayerWins) != (GetWinner(b, a) == PlayerWins)
  {
  }

  /** The player wins on exactly three ordered pairs. */
  lemma WinningPairs(a: Move, b: Move)
    ensures GetWinner(a, b) == PlayerWins <==>
      (a == Pineapple && b == Knife) || (a == Knife && b == Bum) || (a == Bum && b == Pineapple)
  {
  }

  /**
    * `moves[Math.floor(Math.random() * moves.length)]` with the random number
    * `roll` in [0, 1): each third of the interval picks one move.
    */
  function PickMove(roll: real): (m: Move)
    requires 0.0 <= roll < 1.0
    ensures roll < 1.0 / 3.0 ==> m == Pineapple
    ensures 1.0 / 3.0 <= roll < 2.0 / 3.0 ==> m == Knife
    ensures 2.0 / 3.0 <= roll ==> m == Bum
  {
    MOVE_ORDER[(roll * 3.0).Floor]
  }

  /** No move is out of the creature's reach. */
  lemma EveryMoveCanBePicked(m: Move)
    ensures exists roll :: 0.0 <= roll < 1.0 && PickMove(roll) == m
  {
    var roll := match m case Pineapple => 0.0 case Knife => 0.5 case Bum => 0.9;
    assert PickMove(roll) == m;
  }
}
