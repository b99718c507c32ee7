/**
  * One frame of the exploring game: the player steps according to the held
  * keys, every creature wanders or follows, and the first creature within the
  * interaction radius is found.
  */
module Movement {
  import opened Options
  import opened Geometry
  import opened Entities
  import opened Input

  // ---------------------------------------------------------------- player

  /** -1, 0 or +1: the net request along one axis. */
  function Axis(keys: KeyMap, negative: Direction, positive: Direction): (a: int)
    ensures -1 <= a <= 1
    ensures Pressed(keys, negative) == Pressed(keys, positive) ==> a == 0
    ensures Pressed(keys, positive) && !Pressed(keys, negative) ==> a == 1
    ensures Pressed(keys, negative) && !Pressed(keys, positive) ==> a == -1
  {
    (if Pressed(keys, positive) then 1 else 0) - (if Pressed(keys, negative) then 1 else 0)
  }

  /** The player's position after one frame with `keys` held. */
  function StepPlayer(p: Position, keys: KeyMap): (r: Position)
    ensures PlayerInArena(r)
  {
    Position(
      ClampInt(p.x + PLAYER_SPEED * Axis(keys, Left, Right), 0, PLAYER_MAX_X),
      ClampInt(p.y + PLAYER_SPEED * Axis(keys, Up, Down), 0, PLAYER_MAX_Y))
  }

  /** The player update of a frame, as a sequence of conditional moves and a clamp. */
  method MovePlayer(p: Position, keys: KeyMap) returns (q: Position)
    ensures q == StepPlayer(p, keys)
  {
    var newX, newY := p.x, p.y;
    if Pressed(keys, Up) { newY := newY - PLAYER_SPEED; }
    if Pressed(keys, Down) { newY := newY + PLAYER_SPEED; }
    if Pressed(keys, Left) { newX := newX - PLAYER_SPEED; }
    if Pressed(keys, Right) { newX := newX + PLAYER_SPEED; }
    newX := Max(0, Min(PLAYER_MAX_X, newX));
    newY := Max(0, Min(PLAYER_MAX_Y, newY));
    q := Position(newX, newY);
  }

  /** From inside the arena a frame moves each coordinate by at most the player speed. */
  lemma PlayerStepBounded(p: Position, keys: KeyMap)
    requires PlayerInArena(p)
    ensures -PLAYER_SPEED <= StepPlayer(p, keys).x - p.x <= PLAYER_SPEED
    ensures -PLAYER_SPEED <= StepPlayer(p, keys).y - p.y <= PLAYER_SPEED
  {
  }

  /** Holding both keys of an opposing pair, or neither, leaves that coordinate alone. */
  lemma OpposingKeysCancel(p: Position, keys: KeyMap)
    requires PlayerInArena(p)
    ensures Pressed(keys, Left) == Pressed(keys, Right) ==> StepPlayer(p, keys).x == p.x
    ensures Pressed(keys, Up) == Pressed(keys, Down) ==> StepPlayer(p, keys).y == p.y
  {
  }

  /** Pressing a direction's letter or its arrow has the same effect. */
  lemma LetterAndArrowInterchangeable(p: Position, keys: KeyMap, d: Direction)
    ensures StepPlayer(p, keys[LetterKey(d) := true]) == StepPlayer(p, keys[ArrowKey(d) := true])
  {
  }

  /**
    * A single held direction moves the player 3 that way, stopping at the wall:
    * up and left decrease a coordinate, down and right increase it.
    */
  lemma OneKeyMovesThatWay(p: Position, keys: KeyMap)
    requires PlayerInArena(p)
    ensures Pressed(keys, Up) && !Pressed(keys, Down) ==> StepPlayer(p, keys).y == Max(p.y - PLAYER_SPEED, 0)
    ensures Pressed(keys, Down) && !Pressed(keys, Up) ==> StepPlayer(p, keys).y == Min(p.y + PLAYER_SPEED, PLAYER_MAX_Y)
    ensures Pressed(keys, Left) && !Pressed(keys, Right) ==> StepPlayer(p, keys).x == Max(p.x - PLAYER_SPEED, 0)
    ensures Pressed(keys, Right) && !Pressed(keys, Left) ==> StepPlayer(p, keys).x == Min(p.x + PLAYER_SPEED, PLAYER_MAX_X)
  {
  }

  // ------------------------------------------------------------- creatures

  /**
    * One axis of a wandering creature: integrate, and on touching or crossing
    * a wall reverse the velocity and put the creature on the wall.
    */
  function Bounce(pos: real, vel: real, limit: real): (r: (real, real))
    requires 0.0 < limit
    ensures 0.0 <= r.0 <= limit
    ensures r.1 == if pos + vel <= 0.0 || pos + vel >= limit then -vel else vel
    ensures 0.0 < pos + vel < limit ==> r.0 == pos + vel
    ensures pos + vel <= 0.0 ==> r.0 == 0.0
    ensures pos + vel >= limit ==> r.0 == limit
  {
    var p := pos + vel;
    if p <= 0.0 || p >= limit then (ClampReal(p, 0.0, limit), -vel) else (p, vel)
  }

  /** A creature outside the party moves by its velocity and bounces off the walls. */
  function Wander(c: Creature): (r: Creature)
    ensures WanderingInArena(r)
    ensures r.dx == if c.x + c.dx <= 0.0 || c.x + c.dx >= CREATURE_MAX_X then -c.dx else c.dx
    ensures r.dy == if c.y + c.dy <= 0.0 || c.y + c.dy >= CREATURE_MAX_Y then -c.dy else c.dy
    ensures 0.0 < c.x + c.dx < CREATURE_MAX_X ==> r.x == c.x + c.dx
    ensures 0.0 < c.y + c.dy < CREATURE_MAX_Y ==> r.y == c.y + c.dy
    ensures c.x + c.dx <= 0.0 ==> r.x == 0.0
    ensures c.x + c.dx >= CREATURE_MAX_X ==> r.x == CREATURE_MAX_X
    ensures c.y + c.dy <= 0.0 ==> r.y == 0.0
    ensures c.y + c.dy >= CREATURE_MAX_Y ==> r.y == CREATURE_MAX_Y
    ensures r == c.(x := r.x, y := r.y, dx := r.dx, dy := r.dy)
  {
    var (x, dx) := Bounce(c.x, c.dx, CREATURE_MAX_X);
    var (y, dy) := Bounce(c.y, c.dy, CREATURE_MAX_Y);
    c.(x := x, y := y, dx := dx, dy := dy)
  }

  /** A creature that runs into the left wall comes back with the opposite speed, on the wall. */
  lemma LeftWallReflects(c: Creature)
    requires c.x + c.dx <= 0.0
    ensures Wander(c).x == 0.0 && Wander(c).dx == -c.dx
  {
  }

  /**
    * The follow displacement for an offset (dx, dy) to the target. The source
    * normalises the offset with a square root and scales it to 0.8 times the
    * player speed; here it is supplied by the caller.
    */
  type FollowStep = (real, real) -> (real, real)

  /** Where a party creature heads: 80 plus 30 per unit of its id left of the player, level with it. */
  function FollowTarget(c: Creature, player: Position): (real, real) {
    (player.x as real - 80.0 - c.id as real * 30.0, player.y as real)
  }

  /** Squared distance from a creature to its follow target. */
  function FollowDist2(c: Creature, player: Position): real {
    Dist2(FollowTarget(c, player).0, FollowTarget(c, player).1, c.x, c.y)
  }

  /** Snap radius 5, compared on squares (see `Geometry.RadiusBySquares`). */
  const SNAP_DIST2: real := 25.0

  /** A party creature steps toward its target unless it is already within the snap radius. */
  function Follow(c: Creature, player: Position, step: FollowStep): (r: Creature)
    ensures FollowDist2(c, player) <= SNAP_DIST2 ==> r == c
    ensures FollowDist2(c, player) > SNAP_DIST2 ==>
      var m := step(FollowTarget(c, player).0 - c.x, FollowTarget(c, player).1 - c.y);
      r == c.(x := c.x + m.0, y := c.y + m.1)
  {
    var (tx, ty) := FollowTarget(c, player);
    if FollowDist2(c, player) > SNAP_DIST2 then
      var m := step(tx - c.x, ty - c.y);
      c.(x := c.x + m.0, y := c.y + m.1)
    else
      c
  }

  /** The per-creature update of a frame. */
  function TickCreature(c: Creature, player: Position, step: FollowStep): (r: Creature)
    ensures r.id == c.id && r.glyph == c.glyph && r.wins == c.wins && r.inParty == c.inParty
    ensures !c.inParty ==> r == Wander(c) && WanderingInArena(r)
    ensures c.inParty ==> r == Follow(c, player, step)
  {
    if c.inParty then Follow(c, player, step) else Wander(c)
  }

  /** `prev.map(...)`: every creature updated, in place in the list. */
  function TickCreatures(cs: seq<Creature>, player: Position, step: FollowStep): (r: seq<Creature>)
    ensures |r| == |cs|
    ensures forall i :: 0 <= i < |cs| ==> r[i].id == cs[i].id && r[i].inParty == cs[i].inParty
    ensures forall i :: 0 <= i < |cs| ==> r[i] == TickCreature(cs[i], player, step)
    ensures forall i :: 0 <= i < |cs| && !cs[i].inParty ==> WanderingInArena(r[i])
    ensures forall i :: 0 <= i < |cs| && cs[i].inParty && FollowDist2(cs[i], player) <= SNAP_DIST2 ==>
      r[i] == cs[i]
  {
    seq(|cs|, i requires 0 <= i < |cs| => TickCreature(cs[i], player, step))
  }

  // ------------------------------------------------------------- proximity

  /** Interaction radius 60, compared on squares. */
  const INTERACTION_DIST2: real := (INTERACTION_DISTANCE * INTERACTION_DISTANCE) as real

  /** Squared distance between the player's and a creature's top-left corners. */
  function PlayerDist2(player: Position, c: Creature): real {
    Dist2(player.x as real, player.y as real, c.x, c.y)
  }

  /** A creature the player may challenge: not in the party and within the radius. */
  predicate Eligible(c: Creature, player: Position) {
    !c.inParty && PlayerDist2(player, c) < INTERACTION_DIST2
  }

  /** `i` is the first eligible position of `cs`. */
  predicate FirstEligible(cs: seq<Creature>, player: Position, i: int) {
    0 <= i < |cs| && Eligible(cs[i], player)
    && forall j :: 0 <= j < i ==> !Eligible(cs[j], player)
  }

  /** The index `Array.prototype.find` stops at, if any. */
  function FindIndex(cs: seq<Creature>, player: Position): (r: Option<nat>)
    ensures r.Some? ==> FirstEligible(cs, player, r.value)
    ensures r.None? ==> forall j :: 0 <= j < |cs| ==> !Eligible(cs[j], player)
  {
    if |cs| == 0 then None
    else if Eligible(cs[0], player) then Some(0)
    else match FindIndex(cs[1..], player)
      case None => None
      case Some(k) => Some(k + 1)
  }

  /** The creature the frame publishes as nearby: the first eligible one in list order, or none. */
  function FindNearby(cs: seq<Creature>, player: Position): (r: Option<Creature>)
    ensures r.None? <==> forall j :: 0 <= j < |cs| ==> !Eligible(cs[j], player)
    ensures r.Some? ==> exists i :: FirstEligible(cs, player, i) && cs[i] == r.value
    ensures r.Some? ==> r.value in cs && !r.value.inParty
  {
    match FindIndex(cs, player)
    case None => None
    case Some(i) => Some(cs[i])
  }
}
