/**
  * The game component's state slots and the transitions that overwrite them:
  * the key handlers, the animation frame, the move buttons, the countdown and
  * reveal timers, and the reset button.
  */
module GameController {
  import opened Options
  import opened Geometry
  import opened Rules
  import opened Entities
  import opened Input
  import opened Movement

  datatype Mode = Exploring | Battling | Countdown | Revealing

  const COUNTDOWN_START: int := 3
  const RECRUIT_THRESHOLD: int := 3

  /** `creatureWins[id] || 0`. */
  function WinsOf(wins: map<int, int>, id: int): int {
    if id in wins then wins[id] else 0
  }

  /** Flags the creature with identity `id` as a party member; nothing else changes. */
  function JoinParty(cs: seq<Creature>, id: int): (r: seq<Creature>)
    ensures |r| == |cs|
    ensures forall i :: 0 <= i < |cs| ==> r[i].inParty == (cs[i].inParty || cs[i].id == id)
    ensures forall i :: 0 <= i < |cs| ==> r[i].(inParty := cs[i].inParty) == cs[i]
  {
    seq(|cs|, i requires 0 <= i < |cs| => if cs[i].id == id then cs[i].(inParty := true) else cs[i])
  }

  /**
    * The callback the reveal timer holds: the moves, the selected creature and
    * the win map as they were when the countdown reached zero. It is applied
    * to whatever the state is when it fires; nothing cancels it.
    */
  datatype RevealTask = RevealTask(playerMove: Move, creatureMove: Move, selected: Creature, wins: map<int, int>)

  /** The component's state slots, as one value. */
  datatype Slots = Slots(
    creatures: seq<Creature>,
    party: seq<Creature>,
    selectedCreature: Option<Creature>,
    gameState: Mode,
    playerMove: Option<Move>,
    creatureMove: Option<Move>,
    countdown: int,
    battleResult: Option<Outcome>,
    creatureWins: map<int, int>,
    player: Position,
    keys: KeyMap,
    nearbyCreature: Option<Creature>)

  /** A creature of the current batch that is not in the party. */
  predicate InBatch(c: Creature) {
    0 <= c.id < CREATURE_COUNT && !c.inParty
  }

  /** Every party entry names a flagged creature, and every flagged creature has an entry. */
  predicate PartyMatchesFlags(party: seq<Creature>, cs: seq<Creature>) {
    (forall j :: 0 <= j < |party| ==> 0 <= party[j].id < |cs| && cs[party[j].id].inParty)
    && (forall i :: 0 <= i < |cs| && cs[i].inParty ==> exists j :: 0 <= j < |party| && party[j].id == i)
  }

  /** The facts every reachable state satisfies. */
  predicate Consistent(s: Slots) {
    |s.creatures| == CREATURE_COUNT
    && (forall i :: 0 <= i < |s.creatures| ==> s.creatures[i].id == i)
    && (forall i :: 0 <= i < |s.creatures| && !s.creatures[i].inParty ==> WanderingInArena(s.creatures[i]))
    && PlayerInArena(s.player)
    && 0 <= s.countdown <= COUNTDOWN_START
    && (s.gameState != Exploring ==> s.selectedCreature.Some?)
    && (s.gameState == Countdown || s.gameState == Revealing ==> s.playerMove.Some? && s.creatureMove.Some?)
    && (s.selectedCreature.Some? ==> InBatch(s.selectedCreature.value))
    && (s.nearbyCreature.Some? ==> InBatch(s.nearbyCreature.value))
    && PartyMatchesFlags(s.party, s.creatures)
  }

  /** Recording a win and flagging the winner's creature keeps the roster in step with the flags. */
  lemma {:induction false} JoinKeepsPartyMatched(party: seq<Creature>, cs: seq<Creature>, c: Creature)
    requires PartyMatchesFlags(party, cs)
    requires forall i :: 0 <= i < |cs| ==> cs[i].id == i
    requires 0 <= c.id < |cs|
    ensures PartyMatchesFlags(party + [c], JoinParty(cs, c.id))
  {
    var party', cs' := party + [c], JoinParty(cs, c.id);
    forall i | 0 <= i < |cs'| && cs'[i].inParty
      ensures exists j :: 0 <= j < |party'| && party'[j].id == i
    {
      if i == c.id {
        assert party'[|party|].id == i;
      } else {
        assert cs[i].inParty;
        var j :| 0 <= j < |party| && party[j].id == i;
        assert party'[j].id == i;
      }
    }
  }

  class Game {
    var creatures: seq<Creature>
    var party: seq<Creature>
    var selectedCreature: Option<Creature>
    var gameState: Mode
    var playerMove: Option<Move>
    var creatureMove: Option<Move>
    var countdown: int
    var battleResult: Option<Outcome>
    var creatureWins: map<int, int>
    var player: Position
    var keys: KeyMap
    var nearbyCreature: Option<Creature>

    ghost function State(): Slots
      reads this
    {
      Slots(creatures, party, selectedCreature, gameState, playerMove, creatureMove,
            countdown, battleResult, creatureWins, player, keys, nearbyCreature)
    }

    ghost predicate Valid()
      reads this
    {
      Consistent(State())
    }

    /** The initial slot values together with the mount effect that creates the first batch. */
    constructor (draws: seq<Draw>)
      requires ValidDraws(draws)
      ensures Valid()
      ensures State() == Slots(GenerateCreatures(draws), [], None, Exploring, None, None,
                               COUNTDOWN_START, None, map[], PLAYER_START, map[], None)
    {
      creatures := GenerateCreatures(draws);
      party := [];
      selectedCreature := None;
      gameState := Exploring;
      playerMove := None;
      creatureMove := None;
      countdown := COUNTDOWN_START;
      battleResult := None;
      creatureWins := map[];
      player := PLAYER_START;
      keys := map[];
      nearbyCreature := None;
    }

    /** Challenges the nearby creature. */
    method StartBattle()
      requires Valid() && gameState == Exploring && nearbyCreature.Some?
      modifies this
      ensures Valid()
      ensures State() == old(State()).(selectedCreature := old(nearbyCreature), gameState := Battling,
                                       playerMove := None, battleResult := None)
    {
      selectedCreature := nearbyCreature;
      gameState := Battling;
      playerMove := None;
      battleResult := None;
    }

    /** A key press: record it as held, and on space or Enter challenge the nearby creature while exploring. */
    method KeyDown(key: string)
      requires Valid()
      modifies this
      ensures Valid()
      ensures keys == old(keys)[ToLower(key) := true]
      ensures if IsInteractKey(key) && old(nearbyCreature).Some? && old(gameState) == Exploring
        then State() == old(State()).(keys := keys, selectedCreature := old(nearbyCreature),
                                      gameState := Battling, playerMove := None, battleResult := None)
        else State() == old(State()).(keys := keys)
    {
      keys := keys[ToLower(key) := true];
      if IsInteractKey(key) && nearbyCreature.Some? && gameState == Exploring {
        StartBattle();
      }
    }

    /** A key release: record it as no longer held. */
    method KeyUp(key: string)
      requires Valid()
      modifies this
      ensures Valid()
      ensures State() == old(State()).(keys := old(keys)[ToLower(key) := false])
    {
      keys := keys[ToLower(key) := false];
    }

    /**
      * One animation frame. Only while exploring: the player steps, the
      * creatures move, and the nearby creature is recomputed. Creatures follow,
      * and proximity is measured from, the player's position before this frame's step.
      */
    method Tick(step: FollowStep)
      requires Valid()
      modifies this
      ensures Valid()
      ensures old(gameState) != Exploring ==> State() == old(State())
      ensures old(gameState) == Exploring ==>
        var moved := TickCreatures(old(creatures), old(player), step);
        State() == old(State()).(player := StepPlayer(old(player), old(keys)), creatures := moved,
                                 nearbyCreature := FindNearby(moved, old(player)))
      ensures nearbyCreature.Some? && old(gameState) == Exploring ==>
        !nearbyCreature.value.inParty && PlayerDist2(old(player), nearbyCreature.value) < INTERACTION_DIST2
    {
      if gameState == Exploring {
        var seen := player;
        player := MovePlayer(player, keys);
        var moved := TickCreatures(creatures, seen, step);
        nearbyCreature := FindNearby(moved, seen);
        creatures := moved;
      }
    }

    /** A move button (shown only while battling): the creature's move is drawn from `roll`. */
    method ChooseMove(move: Move, roll: real)
      requires Valid() && gameState == Battling && 0.0 <= roll < 1.0
      modifies this
      ensures Valid()
      ensures State() == old(State()).(playerMove := Some(move), creatureMove := Some(PickMove(roll)),
                                       gameState := Countdown, countdown := COUNTDOWN_START)
    {
      playerMove := Some(move);
      creatureMove := Some(PickMove(roll));
      gameState := Countdown;
      countdown := COUNTDOWN_START;
    }

    /**
      * One run of the countdown effect. Above zero this is one second of the
      * countdown timer, and the counter drops by one. At zero there is no
      * timer: the effect switches to revealing at once and schedules the reveal.
      */
    method CountdownStep() returns (pending: Option<RevealTask>)
      requires Valid()
      modifies this
      ensures Valid()
      ensures old(gameState) == Countdown && old(countdown) > 0 ==>
        State() == old(State()).(countdown := old(countdown) - 1) && pending == None
      ensures old(gameState) == Countdown && old(countdown) == 0 ==>
        State() == old(State()).(gameState := Revealing)
        && pending == Some(RevealTask(old(playerMove).value, old(creatureMove).value,
                                     old(selectedCreature).value, old(creatureWins)))
      ensures old(gameState) != Countdown ==> State() == old(State()) && pending == None
      ensures pending.Some? ==> InBatch(pending.value.selected)
    {
      pending := None;
      if gameState == Countdown && countdown > 0 {
        countdown := countdown - 1;
      } else if gameState == Countdown && countdown == 0 {
        gameState := Revealing;
        pending := Some(RevealTask(playerMove.value, creatureMove.value, selectedCreature.value, creatureWins));
      }
    }

    /**
      * The reveal timer fires: decide the round; on a player win record one more
      * win than the captured count and, from the threshold on, recruit the creature.
      */
    method Resolve(task: RevealTask)
      requires Valid() && InBatch(task.selected)
      modifies this
      ensures Valid()
      ensures
        var result := GetWinner(task.playerMove, task.creatureMove);
        var id := task.selected.id;
        var newWins := WinsOf(task.wins, id) + 1;
        State() ==
          if result != PlayerWins then
            old(State()).(battleResult := Some(result))
          else if newWins < RECRUIT_THRESHOLD then
            old(State()).(battleResult := Some(result), creatureWins := old(creatureWins)[id := newWins])
          else
            old(State()).(battleResult := Some(result), creatureWins := old(creatureWins)[id := newWins],
                          creatures := JoinParty(old(creatures), id), party := old(party) + [task.selected])
    {
      var result := GetWinner(task.playerMove, task.creatureMove);
      battleResult := Some(result);
      if result == PlayerWins {
        var newWins := WinsOf(task.wins, task.selected.id) + 1;
        creatureWins := creatureWins[task.selected.id := newWins];
        if newWins >= RECRUIT_THRESHOLD {
          JoinKeepsPartyMatched(party, creatures, task.selected);
          creatures := JoinParty(creatures, task.selected.id);
          party := party + [task.selected];
        }
      }
    }

    /** The return timer fires, whatever the outcome: back to exploring with no selection. */
    method ReturnToExploring()
      requires Valid()
      modifies this
      ensures Valid()
      ensures State() == old(State()).(gameState := Exploring, selectedCreature := None)
    {
      gameState := Exploring;
      selectedCreature := None;
    }

    /**
      * The reset button: a new batch, no party, no wins, exploring, no selection,
      * the player centred, nothing nearby. The moves, the result, the countdown
      * and the held keys keep their values.
      */
    method Reset(draws: seq<Draw>)
      requires Valid() && ValidDraws(draws)
      modifies this
      ensures Valid()
      ensures State() == old(State()).(creatures := GenerateCreatures(draws), party := [], creatureWins := map[],
                                       gameState := Exploring, selectedCreature := None,
                                       player := PLAYER_START, nearbyCreature := None)
      ensures forall i :: 0 <= i < |creatures| ==> creatures[i].id == i && creatures[i].wins == 0 && !creatures[i].inParty
    {
      creatures := GenerateCreatures(draws);
      party := [];
      creatureWins := map[];
      gameState := Exploring;
      selectedCreature := None;
      player := PLAYER_START;
      nearbyCreature := None;
    }

    /**
      * A whole round that nothing interrupts: a move button, the three timed
      * countdown decrements, the immediate transition to revealing, the reveal
      * and the return.
      */
    method PlayRound(move: Move, roll: real)
      requires Valid() && gameState == Battling && 0.0 <= roll < 1.0
      modifies this
      ensures Valid()
      ensures
        var id := old(selectedCreature).value.id;
        var result := GetWinner(move, PickMove(roll));
        var won := result == PlayerWins;
        var newWins := WinsOf(old(creatureWins), id) + 1;
        var recruited := won && newWins >= RECRUIT_THRESHOLD;
        State() == old(State()).(
          gameState := Exploring, selectedCreature := None, playerMove := Some(move),
          creatureMove := Some(PickMove(roll)), countdown := 0, battleResult := Some(result),
          creatureWins := if won then old(creatureWins)[id := newWins] else old(creatureWins),
          creatures := if recruited then JoinParty(old(creatures), id) else old(creatures),
          party := if recruited then old(party) + [old(selectedCreature).value] else old(party))
        && creatures[id].inParty == (old(creatures)[id].inParty || recruited)
    {
      ChooseMove(move, roll);
      var pending := CountdownStep();
      pending := CountdownStep();
      pending := CountdownStep();
      pending := CountdownStep();
      assert pending.Some?;
      Resolve(pending.value);
      ReturnToExploring();
    }
  }
}
