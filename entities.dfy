/** The creature record and the random batch that `generateCreature` produces. */
module Entities {
  import opened Geometry

  /** The seven glyphs a creature may be drawn with. */
  datatype Glyph = Cat | Dog | Frog | Fox | Rabbit | Panda | Hedgehog

  const GLYPHS: seq<Glyph> := [Cat, Dog, Frog, Fox, Rabbit, Panda, Hedgehog]

  /** Number of creatures created at start and on every reset. */
  const CREATURE_COUNT: int := 8

  /**
    * A creature: its identity, glyph, position, per-tick velocity, the `wins`
    * field (always 0: the win counts live in a separate map) and the party flag.
    */
  datatype Creature = Creature(
    id: int, glyph: Glyph, x: real, y: real, dx: real, dy: real, wins: int, inParty: bool)

  /** The five `Math.random()` results `generateCreature` consumes, in order. */
  datatype Draw = Draw(glyph: real, x: real, y: real, dx: real, dy: real)

  /** What `Math.random()` guarantees: a number in [0, 1). */
  predicate UnitInterval(r: real) {
    0.0 <= r < 1.0
  }

  predicate ValidDraw(d: Draw) {
    UnitInterval(d.glyph) && UnitInterval(d.x) && UnitInterval(d.y)
    && UnitInterval(d.dx) && UnitInterval(d.dy)
  }

  predicate ValidDraws(draws: seq<Draw>) {
    |draws| == CREATURE_COUNT && forall i :: 0 <= i < |draws| ==> ValidDraw(draws[i])
  }

  /** A creature whose top-left corner lies between the walls that it bounces off. */
  predicate WanderingInArena(c: Creature) {
    0.0 <= c.x <= CREATURE_MAX_X && 0.0 <= c.y <= CREATURE_MAX_Y
  }

  /** A fresh creature with identity `id`, its random fields taken from `d`. */
  function GenerateCreature(id: int, d: Draw): (c: Creature)
    requires ValidDraw(d)
    ensures c.id == id && c.wins == 0 && !c.inParty
    ensures 0.0 <= c.x < CREATURE_MAX_X && 0.0 <= c.y < CREATURE_MAX_Y
    ensures -(MOVE_SPEED as real) <= c.dx < MOVE_SPEED as real
    ensures -(MOVE_SPEED as real) <= c.dy < MOVE_SPEED as real
    ensures forall k :: 0 <= k < |GLYPHS| && k as real / 7.0 <= d.glyph < (k + 1) as real / 7.0 ==>
      c.glyph == GLYPHS[k]
  {
    Creature(
      id,
      GLYPHS[(d.glyph * |GLYPHS| as real).Floor],
      d.x * CREATURE_MAX_X,
      d.y * CREATURE_MAX_Y,
      (d.dx - 0.5) * (MOVE_SPEED as real) * 2.0,
      (d.dy - 0.5) * (MOVE_SPEED as real) * 2.0,
      0,
      false)
  }

  /** The batch `Array.from({ length: 8 }, (_, i) => generateCreature(i))`. */
  function GenerateCreatures(draws: seq<Draw>): (cs: seq<Creature>)
    requires ValidDraws(draws)
    ensures |cs| == CREATURE_COUNT
    ensures forall i :: 0 <= i < |cs| ==>
      cs[i].id == i && cs[i].wins == 0 && !cs[i].inParty && WanderingInArena(cs[i])
  {
    seq(CREATURE_COUNT, i requires 0 <= i < CREATURE_COUNT => GenerateCreature(i, draws[i]))
  }
}
