/**
 The turn engine as the commit protocols see it: a start state, a test and a step. Protocol proofs
 need nothing of it but `Lawful`, which the modelled validator and reducer satisfy.
 */
module Engines {
  import opened Sequences
  import opened Domain
  import opened DeltaValidation
  import opened Reduction
  import opened Sessions
  import Runs

  datatype Engine = Engine(
    initial: (SessionId, Scenario) -> WorldState,
    accepts: Scenario -> (WorldState, WorldStateDelta) -> bool,
    applied: (WorldState, WorldStateDelta) -> WorldState)

  function AcceptsIn(lower: string -> string): Scenario -> (WorldState, WorldStateDelta) -> bool {
    (sc: Scenario) => AcceptedBy(lower, sc)
  }

  /** The validator and the reducer. */
  function TurnEngine(lower: string -> string): Engine {
    Engine(InitialWorldState, AcceptsIn(lower), Applied)
  }

  ghost predicate StartsBlank(e: Engine, sc: Scenario, id: SessionId) {
    var s := e.initial(id, sc);
    s.sessionId == id && s.version == 0 && s.recentEvents == []
  }

  /** A turn keeps the session, counts itself and appends its log. */
  ghost predicate CountsItself(e: Engine, s: WorldState, d: WorldStateDelta) {
    var t := e.applied(s, d);
    t.sessionId == s.sessionId && t.version == s.version + 1 && t.recentEvents == s.recentEvents + d.eventLogEntries
  }

  ghost predicate Lawful(e: Engine) {
    && (forall sc, id :: StartsBlank(e, sc, id))
    && (forall s, d :: CountsItself(e, s, d))
  }

  lemma TurnEngineIsLawful(lower: string -> string)
    ensures Lawful(TurnEngine(lower))
  {
    var e := TurnEngine(lower);
    forall sc, id ensures StartsBlank(e, sc, id) {
      assert e.initial(id, sc) == InitialWorldState(id, sc);
    }
    forall s, d ensures CountsItself(e, s, d) {
      assert e.applied(s, d) == Applied(s, d);
    }
  }

  /** The state of a session after its committed deltas. */
  function StateOf(e: Engine, sc: Scenario, id: SessionId, history: seq<WorldStateDelta>): WorldState {
    Runs.Final(e.initial(id, sc), history, e.applied)
  }

  /** Each committed delta was accepted in exactly the state it was applied to. */
  predicate LegalHistory(e: Engine, sc: Scenario, id: SessionId, history: seq<WorldStateDelta>) {
    Runs.Legal(e.initial(id, sc), history, e.applied, e.accepts(sc))
  }

  lemma TurnEngineRuns(lower: string -> string, sc: Scenario, id: SessionId, history: seq<WorldStateDelta>)
    ensures StateOf(TurnEngine(lower), sc, id, history) == StateAfter(InitialWorldState(id, sc), history)
    ensures LegalHistory(TurnEngine(lower), sc, id, history) <==>
            AcceptedRun(lower, sc, InitialWorldState(id, sc), history)
  {
    assert TurnEngine(lower).initial(id, sc) == InitialWorldState(id, sc);
    assert TurnEngine(lower).accepts(sc) == AcceptedBy(lower, sc);
  }

  lemma {:induction false} HistoryCounts(e: Engine, sc: Scenario, id: SessionId, history: seq<WorldStateDelta>)
    requires Lawful(e)
    ensures StateOf(e, sc, id, history).sessionId == id
    ensures StateOf(e, sc, id, history).version == |history|
    ensures StateOf(e, sc, id, history).recentEvents == LoggedEvents(history)
    decreases |history|
  {
    if |history| == 0 {
      assert StartsBlank(e, sc, id);
    } else {
      HistoryCounts(e, sc, id, Init(history));
      assert CountsItself(e, StateOf(e, sc, id, Init(history)), Last(history));
    }
  }

  lemma TurnStaysInSession(e: Engine, sc: Scenario, id: SessionId, history: seq<WorldStateDelta>, d: WorldStateDelta)
    requires Lawful(e)
    ensures e.applied(StateOf(e, sc, id, history), d).sessionId == id
  {
    HistoryCounts(e, sc, id, history);
    assert CountsItself(e, StateOf(e, sc, id, history), d);
  }

  lemma HistoryExtends(
    e: Engine, sc: Scenario, id: SessionId, history: seq<WorldStateDelta>, d: WorldStateDelta)
    ensures StateOf(e, sc, id, history + [d]) == e.applied(StateOf(e, sc, id, history), d)
    ensures LegalHistory(e, sc, id, history + [d]) <==>
            LegalHistory(e, sc, id, history) && e.accepts(sc)(StateOf(e, sc, id, history), d)
    ensures LoggedEvents(history + [d]) == LoggedEvents(history) + d.eventLogEntries
  {
    Runs.Extend(e.initial(id, sc), history, d, e.applied, e.accepts(sc));
    assert Init(history + [d]) == history;
  }
}
