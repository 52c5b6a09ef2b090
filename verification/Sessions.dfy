/** Where a session starts, and the states that accepted turns lead to. */
module Sessions {
  import opened Wrappers
  import opened Sequences
  import opened Domain
  import opened DeltaValidation
  import opened Reduction
  import Runs

  /** `derive_npc_availability` */
  function DeriveAvailability(
    status: NpcStatus, visible: bool, location: Option<EntityKey>, start: Option<EntityKey>): NpcAvailability
  {
    if status.Dead? || status.Unconscious? then Unavailable
    else if !visible then Offscreen
    else if location.Some? && location == start then Present
    else if location.Some? then Offscreen
    else Nearby
  }

  function StartLocation(sc: Scenario): Option<EntityKey> {
    if |sc.locations| > 0 then Some(sc.locations[0].id) else None
  }

  function InitialFact(secret: Secret): Fact {
    Fact(secret.id, secret.text, GmOnly, [], FromScenario, secret.revealConditions, [], None)
  }

  function InitialNpc(start: Option<EntityKey>): Npc -> NpcState {
    (npc: Npc) =>
      NpcState(
        npc.id, npc.initialStatus, npc.initialVisibleToPlayer,
        if npc.initialLocationId.Some? then npc.initialLocationId else start,
        None, [], [],
        DeriveAvailability(npc.initialStatus, npc.initialVisibleToPlayer, npc.initialLocationId, start),
        None, [])
  }

  function InitialFaction(f: Faction): FactionState {
    FactionState(f.id, f.initialStanding, [], [], [], 0, [], [])
  }

  function InitialQuest(q: Quest): QuestState {
    QuestState(q.id, if q.visible then QuestAvailable else QuestHidden, [], q.visible)
  }

  function InitialClock(c: ClockTemplate): ClockState {
    ClockState(c.id, c.title, c.current, c.max, c.consequence, true)
  }

  /** `initial_world_state` */
  function InitialWorldState(sessionId: SessionId, sc: Scenario): WorldState {
    WorldState(
      sessionId,
      sc.id,
      0,
      StartLocation(sc),
      None,
      if |sc.npcs| > 0 then Some(sc.npcs[0].id) else None,
      Map(sc.secrets, InitialFact),
      Map(sc.npcs, InitialNpc(StartLocation(sc))),
      Map(sc.factions, InitialFaction),
      Map(sc.quests, InitialQuest),
      Map(sc.clocks, InitialClock),
      [], [], [],
      PlayerCharacterState([], [], [], [], []),
      [], [],
      None,
      [])
  }

  /** The state after a sequence of turns. */
  function StateAfter(s0: WorldState, deltas: seq<WorldStateDelta>): WorldState {
    Runs.Final(s0, deltas, Applied)
  }

  function AcceptedBy(lower: string -> string, sc: Scenario): (WorldState, WorldStateDelta) -> bool {
    (s: WorldState, d: WorldStateDelta) => Accepts(lower, sc, s, d)
  }

  /** Every delta of the sequence was accepted in the very state it was then applied to. */
  predicate AcceptedRun(lower: string -> string, sc: Scenario, s0: WorldState, deltas: seq<WorldStateDelta>) {
    Runs.Legal(s0, deltas, Applied, AcceptedBy(lower, sc))
  }

  /** The logged events of all turns, in order. */
  function LoggedEvents(deltas: seq<WorldStateDelta>): seq<string> {
    if |deltas| == 0 then [] else LoggedEvents(Init(deltas)) + Last(deltas).eventLogEntries
  }

  lemma LastTurn(s0: WorldState, deltas: seq<WorldStateDelta>)
    requires |deltas| > 0
    ensures StateAfter(s0, deltas) == Applied(StateAfter(s0, Init(deltas)), Last(deltas))
  {
  }

  /** The version counts the turns, and the state's event list is the log of all turns. */
  lemma {:induction false} TurnsAreCounted(s0: WorldState, deltas: seq<WorldStateDelta>)
    ensures StateAfter(s0, deltas).version == s0.version + |deltas|
    ensures StateAfter(s0, deltas).sessionId == s0.sessionId
    ensures StateAfter(s0, deltas).recentEvents == s0.recentEvents + LoggedEvents(deltas)
  {
    if |deltas| == 0 {
      assert s0.recentEvents + [] == s0.recentEvents;
    } else {
      TurnsAreCounted(s0, Init(deltas));
      LastTurn(s0, deltas);
      ConcatAssociates(s0.recentEvents, LoggedEvents(Init(deltas)), Last(deltas).eventLogEntries);
    }
  }

  lemma TurnExtendsRun(
    lower: string -> string, sc: Scenario, s0: WorldState, deltas: seq<WorldStateDelta>, d: WorldStateDelta)
    requires AcceptedRun(lower, sc, s0, deltas)
    requires Accepts(lower, sc, StateAfter(s0, deltas), d)
    ensures AcceptedRun(lower, sc, s0, deltas + [d])
    ensures StateAfter(s0, deltas + [d]) == Applied(StateAfter(s0, deltas), d)
    ensures LoggedEvents(deltas + [d]) == LoggedEvents(deltas) + d.eventLogEntries
  {
    Runs.Extend(s0, deltas, d, Applied, AcceptedBy(lower, sc));
    assert Init(deltas + [d]) == deltas;
  }

  /** Cutting a run gives a run, and the next turn was accepted where the cut is. */
  lemma RunPrefix(
    lower: string -> string, sc: Scenario, s0: WorldState, deltas: seq<WorldStateDelta>, n: nat)
    requires n <= |deltas| && AcceptedRun(lower, sc, s0, deltas)
    ensures AcceptedRun(lower, sc, s0, deltas[..n])
    ensures n < |deltas| ==>
              && Accepts(lower, sc, StateAfter(s0, deltas[..n]), deltas[n])
              && StateAfter(s0, deltas[..n + 1]) == Applied(StateAfter(s0, deltas[..n]), deltas[n])
  {
    Runs.Prefix(s0, deltas, n, Applied, AcceptedBy(lower, sc));
    if n < |deltas| {
      Runs.StepAt(s0, deltas, n, Applied, AcceptedBy(lower, sc));
    }
  }
}
