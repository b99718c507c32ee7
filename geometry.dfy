/** Arena constants, clamping and the squared-distance test that replaces `getDistance`. */
module Geometry {
  const GAME_WIDTH: int := 800
  const GAME_HEIGHT: int := 600
  const CREATURE_SIZE: int := 40
  const PLAYER_SIZE: int := 50
  const MOVE_SPEED: int := 1
  const PLAYER_SPEED: int := 3
  const INTERACTION_DISTANCE: int := 60

  /** Largest coordinates the player's top-left corner may take. */
  const PLAYER_MAX_X: int := GAME_WIDTH - PLAYER_SIZE
  const PLAYER_MAX_Y: int := GAME_HEIGHT - PLAYER_SIZE

  /** Walls of a wandering creature's top-left corner. */
  const CREATURE_MAX_X: real := (GAME_WIDTH - CREATURE_SIZE) as real
  const CREATURE_MAX_Y: real := (GAME_HEIGHT - CREATURE_SIZE) as real

  /** The player's position: it starts on whole numbers and only ever moves by whole steps. */
  datatype Position = Position(x: int, y: int)

  /** The centred start position, `GAME_WIDTH / 2 - PLAYER_SIZE / 2` and likewise for y. */
  const PLAYER_START: Position := Position(GAME_WIDTH / 2 - PLAYER_SIZE / 2, GAME_HEIGHT / 2 - PLAYER_SIZE / 2)

  predicate PlayerInArena(p: Position) {
    0 <= p.x <= PLAYER_MAX_X && 0 <= p.y <= PLAYER_MAX_Y
  }

  function Min(a: int, b: int): int { if a <= b then a else b }
  function Max(a: int, b: int): int { if a >= b then a else b }

  /** `Math.max(lo, Math.min(hi, v))` on integers. */
  function ClampInt(v: int, lo: int, hi: int): (r: int)
    requires lo <= hi
    ensures lo <= r <= hi
    ensures lo <= v <= hi ==> r == v
    ensures v < lo ==> r == lo
    ensures v > hi ==> r == hi
  {
    Max(lo, Min(hi, v))
  }

  function MinReal(a: real, b: real): real { if a <= b then a else b }
  function MaxReal(a: real, b: real): real { if a >= b then a else b }

  /** `Math.max(lo, Math.min(hi, v))` on reals. */
  function ClampReal(v: real, lo: real, hi: real): (r: real)
    requires lo <= hi
    ensures lo <= r <= hi
    ensures lo <= v <= hi ==> r == v
    ensures v < lo ==> r == lo
    ensures v > hi ==> r == hi
  {
    MaxReal(lo, MinReal(hi, v))
  }

  /** The square of the Euclidean distance between (x1, y1) and (x2, y2). */
  function Dist2(x1: real, y1: real, x2: real, y2: real): (d2: real)
    ensures d2 >= 0.0
  {
    var dx := x1 - x2;
    var dy := y1 - y2;
    SquareNonNegative(dx);
    SquareNonNegative(dy);
    dx * dx + dy * dy
  }

  lemma SquareNonNegative(v: real)
    ensures v * v >= 0.0
  {
  }

  lemma ScaleMonotone(a: real, b: real, c: real)
    requires a <= b && 0.0 <= c
    ensures a * c <= b * c
  {
  }

  lemma ScaleStrictlyMonotone(a: real, b: real, c: real)
    requires a < b && 0.0 < c
    ensures a * c < b * c
  {
  }

  /**
    * A distance `d` (the square root of `d2`) lies below a radius exactly when
    * `d2` lies below the radius squared; so `Math.sqrt(d2) < r` can be decided
    * without taking a square root.
    */
  lemma RadiusBySquares(d: real, d2: real, radius: real)
    requires 0.0 <= d && 0.0 <= radius && d * d == d2
    ensures d < radius <==> d2 < radius * radius
  {
    if d < radius {
      ScaleMonotone(d, radius, d);
      ScaleStrictlyMonotone(d, radius, radius);
      calc {
        d2;
      ==
        d * d;
      <=
        radius * d;
      ==
        d * radius;
      <
        radius * radius;
      }
    } else {
      ScaleMonotone(radius, d, radius);
      ScaleMonotone(radius, d, d);
      calc {
        radius * radius;
      <=
        d * radius;
      ==
        radius * d;
      <=
        d * d;
      ==
        d2;
      }
    }
  }
}
