/**
 Memory mode as a state machine. Any number of turn requests interleave; each step is one critical
 section of the store's mutex or of the lock's. The store compares no versions, so one linear history
 per session rests on the lock alone.
 */
module MemoryProtocol {
  import opened Wrappers
  import opened Sequences
  import opened Domain
  import opened ScenarioValidation
  import opened Engines
  import opened Sessions
  import opened Records
  import opened MemoryStore
  import WorldInvariant
  import Runs

  type WorkerId = nat

  /** How far a turn request has come; each stage holds the guard of its session. */
  datatype Worker =
    | Holding(session: SessionId)
    | Loaded(session: SessionId, world: WorldState)
    | Ready(session: SessionId, delta: WorldStateDelta, updated: WorldState)
    | Done(session: SessionId)

  /** `committed` is a history variable: the deltas persisted for a session, in order. */
  datatype Memory = Memory(
    scenarios: map<SessionId, Scenario>,
    tables: map<SessionId, Tables>,
    locked: set<SessionId>,
    workers: map<WorkerId, Worker>,
    committed: map<SessionId, seq<WorldStateDelta>>)

  const EMPTY_MEMORY := Memory(map[], map[], {}, map[], map[])

  datatype Step =
    | CreateSession(session: SessionId, scenario: Scenario, introId: MessageId, intro: string)
    | Acquire(worker: WorkerId, session: SessionId)
    | Load(worker: WorkerId)
    | Finalize(worker: WorkerId, delta: WorldStateDelta)
    | Persist(worker: WorkerId, user: Message, assistant: Message, storeRaw: bool, eventIds: seq<Uuid>)
    | RecordEvent(session: SessionId, eventId: Uuid, kind: EventKind, description: string)
    | DropGuard(worker: WorkerId)

  function TablesAt(m: Memory, id: SessionId): Tables {
    if id in m.tables then m.tables[id] else EMPTY_TABLES
  }

  function History(m: Memory, id: SessionId): seq<WorldStateDelta> {
    if id in m.committed then m.committed[id] else []
  }

  predicate IsTurn(user: Message, assistant: Message, delta: WorldStateDelta, eventIds: seq<Uuid>) {
    user.role == User && assistant.role == Assistant && |eventIds| == |delta.eventLogEntries|
  }

  function Stored(m: Memory, id: SessionId, t: Tables, history: seq<WorldStateDelta>): Memory {
    m.(tables := m.tables[id := t], committed := m.committed[id := history])
  }

  predicate Persisting(m: Memory, step: Step) {
    && step.Persist? && step.worker in m.workers && m.workers[step.worker].Ready?
    && IsTurn(step.user, step.assistant, m.workers[step.worker].delta, step.eventIds)
  }

  /** A step that is not enabled changes nothing. A guard may be dropped at any stage. */
  function After(e: Engine, m: Memory, step: Step): Memory {
    match step
    case CreateSession(id, sc, introId, intro) =>
      if id in m.scenarios then m
      else
        var t := WithSession(TablesAt(m, id), e.initial(id, sc), IntroMessage(introId, id, intro));
        m.(scenarios := m.scenarios[id := sc], tables := m.tables[id := t])
    case Acquire(w, id) =>
      if w in m.workers || id in m.locked then m
      else m.(locked := m.locked + {id}, workers := m.workers[w := Holding(id)])
    case Load(w) =>
      if w !in m.workers || !m.workers[w].Holding? then m
      else
        var id := m.workers[w].session;
        if id !in m.scenarios || TablesAt(m, id).world.None? then m
        else m.(workers := m.workers[w := Loaded(id, TablesAt(m, id).world.value)])
    case Finalize(w, d) =>
      if w !in m.workers || !m.workers[w].Loaded? then m
      else
        var id, world := m.workers[w].session, m.workers[w].world;
        if id !in m.scenarios || !e.accepts(m.scenarios[id])(world, d) then m
        else m.(workers := m.workers[w := Ready(id, d, e.applied(world, d))])
    case Persist(w, user, assistant, storeRaw, eventIds) =>
      if !Persisting(m, step) then m
      else
        var Ready(id, d, updated) := m.workers[w];
        var key := updated.sessionId;
        var t := WithTurn(
          TablesAt(m, key), user, Kept(assistant, storeRaw), updated,
          WorldEvents(key, eventIds, d.eventLogEntries));
        Stored(m, key, t, History(m, key) + [d]).(workers := m.workers[w := Done(id)])
    case RecordEvent(id, eventId, kind, description) =>
      var t := WithEvent(TablesAt(m, id), EventRecord(eventId, id, EventName(kind), description));
      Stored(m, id, t, History(m, id))
    case DropGuard(w) =>
      if w !in m.workers then m
      else m.(locked := m.locked - {m.workers[w].session}, workers := m.workers - {w})
  }

  function Do(e: Engine): (Memory, Step) -> Memory {
    (m: Memory, step: Step) => After(e, m, step)
  }

  // ---------- what one session's tables say ----------

  /** The version on an assistant entry of the timeline. */
  function TurnStamp(): TimelineEntry -> Option<Option<nat>> {
    (e: TimelineEntry) => if e.kind == "assistant_message" then Some(e.worldStateVersion) else None
  }

  function Stamps(turns: nat): (r: seq<Option<nat>>)
    ensures |r| == turns
  {
    seq(turns, i => Some(i + 1))
  }

  ghost predicate Ledger(t: Tables, history: seq<WorldStateDelta>) {
    && FilterMap(t.events, WorldEventText()) == LoggedEvents(history)
    && FilterMap(t.timeline, TurnStamp()) == Stamps(|history|)
  }

  /** The stored state is the fold of the accepted deltas, and everything stored beside it agrees. */
  ghost predicate SessionGood(
    e: Engine, sc: Scenario, id: SessionId, t: Tables, history: seq<WorldStateDelta>)
  {
    && LegalHistory(e, sc, id, history)
    && t.world == Some(StateOf(e, sc, id, history))
    && Conversation(t.messages, |history|)
    && Ledger(t, history)
  }

  ghost predicate NoSession(t: Tables, history: seq<WorldStateDelta>) {
    t.world == None && t.messages == [] && history == [] && Ledger(t, [])
  }

  ghost predicate SessionState(e: Engine, m: Memory, id: SessionId) {
    if id in m.scenarios then SessionGood(e, m.scenarios[id], id, TablesAt(m, id), History(m, id))
    else NoSession(TablesAt(m, id), History(m, id))
  }

  ghost predicate StoreInv(e: Engine, m: Memory) {
    forall id :: SessionState(e, m, id)
  }

  // ---------- what the workers know ----------

  /** The lock's set is the set of sessions with a live guard, and no session has two. */
  ghost predicate LockInv(locked: set<SessionId>, workers: map<WorkerId, Worker>) {
    && (forall w | w in workers :: workers[w].session in locked)
    && (forall id | id in locked :: exists w :: w in workers && workers[w].session == id)
    && (forall v, w | v in workers && w in workers && workers[v].session == workers[w].session :: v == w)
  }

  /** What a worker has read or computed is still current. */
  ghost predicate Current(e: Engine, m: Memory, worker: Worker) {
    var world := TablesAt(m, worker.session).world;
    match worker
    case Loaded(id, seen) => id in m.scenarios && world == Some(seen)
    case Ready(id, d, updated) =>
      && id in m.scenarios && world.Some?
      && e.accepts(m.scenarios[id])(world.value, d)
      && updated == e.applied(world.value, d)
    case _ => true
  }

  ghost predicate WorkersInv(e: Engine, m: Memory) {
    forall w | w in m.workers :: Current(e, m, m.workers[w])
  }

  ghost predicate Inv(e: Engine, m: Memory) {
    StoreInv(e, m) && LockInv(m.locked, m.workers) && WorkersInv(e, m)
  }

  // ---------- one session, one step ----------

  lemma RecordedEventKeepsLedger(t: Tables, e: EventRecord, kind: EventKind, history: seq<WorldStateDelta>)
    requires Ledger(t, history) && e.eventType == EventName(kind)
    ensures Ledger(WithEvent(t, e), history)
  {
    NoEventIsAWorldEvent(kind);
    UnseenPush(t.events, e, WorldEventText());
    UnseenPush(t.timeline, EventEntry(e, None), TurnStamp());
  }

  lemma TurnTimeline(timeline: seq<TimelineEntry>, user: Message, assistant: Message, events: seq<EventRecord>, n: nat)
    requires user.role == User && assistant.role == Assistant
    requires forall e | e in events :: e.eventType == WORLD_EVENT
    requires FilterMap(timeline, TurnStamp()) == Stamps(n)
    ensures FilterMap(
              timeline + [UserEntry(user), AssistantEntry(assistant, n + 1)] +
              EventEntries(events, n + 1), TurnStamp()) == Stamps(n + 1)
  {
    hide FilterMap, Stamps;
    var spoken := [UserEntry(user), AssistantEntry(assistant, n + 1)];
    var entries := EventEntries(events, n + 1);
    FilterMapAppend(timeline + spoken, entries, TurnStamp());
    forall k | 0 <= k < |entries| ensures TurnStamp()(entries[k]) == None {
      assert events[k] in events;
    }
    FilterMapNone(entries, TurnStamp());
    var asked := timeline + [UserEntry(user)];
    assert timeline + spoken == asked + [AssistantEntry(assistant, n + 1)];
    assert UserEntry(user).kind[0] == 'u';
    UnseenPush(timeline, UserEntry(user), TurnStamp());
    FilterMapPush(asked, AssistantEntry(assistant, n + 1), TurnStamp());
    OneMoreStamp(n);
  }

  lemma OneMoreStamp(n: nat)
    ensures Stamps(n + 1) == Stamps(n) + [Some(n + 1)]
    ensures Stamps(n + 1) + [] == Stamps(n + 1)
  {
  }

  lemma TurnKeepsSessionGood(
    e: Engine, sc: Scenario, id: SessionId, t: Tables, history: seq<WorldStateDelta>,
    d: WorldStateDelta, user: Message, assistant: Message, eventIds: seq<Uuid>)
    requires Lawful(e) && SessionGood(e, sc, id, t, history)
    requires e.accepts(sc)(t.world.value, d) && IsTurn(user, assistant, d, eventIds)
    ensures SessionGood(
              e, sc, id,
              WithTurn(
                t, user, assistant, e.applied(t.world.value, d), WorldEvents(id, eventIds, d.eventLogEntries)),
              history + [d])
    ensures e.applied(t.world.value, d).sessionId == id
  {
    HistoryExtends(e, sc, id, history, d);
    HistoryCounts(e, sc, id, history + [d]);
    ConversationContinues(t.messages, |history|, user, assistant);
    TurnEventsRead(t.events, id, eventIds, d.eventLogEntries);
    TurnTimeline(t.timeline, user, assistant, WorldEvents(id, eventIds, d.eventLogEntries), |history|);
  }

  lemma NewSessionGood(
    e: Engine, sc: Scenario, id: SessionId, t: Tables, history: seq<WorldStateDelta>, intro: Message)
    requires NoSession(t, history) && intro.role == System
    ensures SessionGood(e, sc, id, WithSession(t, e.initial(id, sc), intro), history)
  {
    assert IntroEntry(intro).kind[0] == 's';
    UnseenPush(t.timeline, IntroEntry(intro), TurnStamp());
  }

  // ---------- one step ----------

  lemma SameSessions(e: Engine, m: Memory, n: Memory)
    requires StoreInv(e, m) && n.tables == m.tables && n.scenarios == m.scenarios && n.committed == m.committed
    ensures StoreInv(e, n)
  {
    forall id ensures SessionState(e, n, id) {
      assert SessionState(e, m, id);
    }
  }

  lemma StoreOne(e: Engine, m: Memory, id: SessionId, t: Tables, history: seq<WorldStateDelta>)
    requires StoreInv(e, m) && SessionState(e, Stored(m, id, t, history), id)
    ensures StoreInv(e, Stored(m, id, t, history))
  {
    hide SessionGood, NoSession;
    var n := Stored(m, id, t, history);
    forall other ensures SessionState(e, n, other) {
      assert SessionState(e, m, other);
      if other != id {
        assert TablesAt(n, other) == TablesAt(m, other) && History(n, other) == History(m, other);
      }
    }
  }

  lemma CreateKeepsStore(e: Engine, m: Memory, step: Step)
    requires StoreInv(e, m) && step.CreateSession?
    ensures StoreInv(e, After(e, m, step))
  {
    hide SessionGood, NoSession, WithSession;
    var CreateSession(id, sc, introId, intro) := step;
    if id !in m.scenarios {
      assert SessionState(e, m, id);
      NewSessionGood(e, sc, id, TablesAt(m, id), History(m, id), IntroMessage(introId, id, intro));
      var n := After(e, m, step);
      forall other ensures SessionState(e, n, other) {
        assert SessionState(e, m, other);
        assert History(n, other) == History(m, other);
        assert other != id ==> TablesAt(n, other) == TablesAt(m, other);
      }
    }
  }

  lemma RecordedEventKeepsSession(e: Engine, m: Memory, id: SessionId, record: EventRecord, kind: EventKind)
    requires SessionState(e, m, id) && record.eventType == EventName(kind)
    ensures SessionState(e, Stored(m, id, WithEvent(TablesAt(m, id), record), History(m, id)), id)
  {
    RecordedEventKeepsLedger(TablesAt(m, id), record, kind, History(m, id));
  }

  lemma PersistKeepsStore(e: Engine, m: Memory, step: Step)
    requires Lawful(e) && StoreInv(e, m) && WorkersInv(e, m) && Persisting(m, step)
    ensures StoreInv(e, After(e, m, step))
  {
    hide SessionGood, NoSession, WithTurn, WorldEvents;
    var Persist(w, user, assistant, storeRaw, eventIds) := step;
    var Ready(id, d, updated) := m.workers[w];
    assert Current(e, m, m.workers[w]) && SessionState(e, m, id);
    TurnStaysInSession(e, m.scenarios[id], id, History(m, id), d);
    var kept := Kept(assistant, storeRaw);
    TurnKeepsSessionGood(e, m.scenarios[id], id, TablesAt(m, id), History(m, id), d, user, kept, eventIds);
    var t := WithTurn(TablesAt(m, id), user, kept, updated, WorldEvents(id, eventIds, d.eventLogEntries));
    StoreOne(e, m, id, t, History(m, id) + [d]);
    SameSessions(e, Stored(m, id, t, History(m, id) + [d]), After(e, m, step));
  }

  lemma StepKeepsStore(e: Engine, m: Memory, step: Step)
    requires Lawful(e) && Inv(e, m)
    ensures StoreInv(e, After(e, m, step))
  {
    hide SessionGood, NoSession, SessionState, WithEvent, WithTurn, WithSession, WorldEvents;
    if step.CreateSession? {
      CreateKeepsStore(e, m, step);
    } else if step.RecordEvent? {
      var RecordEvent(id, eventId, kind, description) := step;
      var record := EventRecord(eventId, id, EventName(kind), description);
      assert SessionState(e, m, id);
      RecordedEventKeepsSession(e, m, id, record, kind);
      StoreOne(e, m, id, WithEvent(TablesAt(m, id), record), History(m, id));
    } else if Persisting(m, step) {
      PersistKeepsStore(e, m, step);
    } else {
      SameSessions(e, m, After(e, m, step));
    }
  }

  lemma GuardTaken(locked: set<SessionId>, workers: map<WorkerId, Worker>, w: WorkerId, id: SessionId)
    requires LockInv(locked, workers) && w !in workers && id !in locked
    ensures LockInv(locked + {id}, workers[w := Holding(id)])
  {
    var after := workers[w := Holding(id)];
    forall other | other in locked + {id} ensures exists v :: v in after && after[v].session == other {
      if other == id {
        assert w in after;
      } else {
        var v :| v in workers && workers[v].session == other;
        assert v in after;
      }
    }
  }

  lemma GuardDropped(locked: set<SessionId>, workers: map<WorkerId, Worker>, w: WorkerId)
    requires LockInv(locked, workers) && w in workers
    ensures LockInv(locked - {workers[w].session}, workers - {w})
  {
    var after := workers - {w};
    forall other | other in locked - {workers[w].session}
      ensures exists v :: v in after && after[v].session == other
    {
      var v :| v in workers && workers[v].session == other;
      assert v in after;
    }
  }

  lemma WorkerAdvances(locked: set<SessionId>, workers: map<WorkerId, Worker>, w: WorkerId, next: Worker)
    requires LockInv(locked, workers) && w in workers && next.session == workers[w].session
    ensures LockInv(locked, workers[w := next])
  {
    var after := workers[w := next];
    forall other | other in locked ensures exists v :: v in after && after[v].session == other {
      var v :| v in workers && workers[v].session == other;
      assert v in after;
    }
  }

  lemma StepKeepsLock(e: Engine, m: Memory, step: Step)
    requires LockInv(m.locked, m.workers)
    ensures LockInv(After(e, m, step).locked, After(e, m, step).workers)
  {
    var n := After(e, m, step);
    if n.workers != m.workers {
      var w := step.worker;
      if step.Acquire? {
        GuardTaken(m.locked, m.workers, w, step.session);
      } else if step.DropGuard? {
        GuardDropped(m.locked, m.workers, w);
      } else {
        WorkerAdvances(m.locked, m.workers, w, n.workers[w]);
      }
    }
  }

  lemma StepKeepsWorkers(e: Engine, m: Memory, step: Step)
    requires Lawful(e) && Inv(e, m)
    ensures WorkersInv(e, After(e, m, step))
  {
    hide WorldEvents, Kept, EventEntries, Ledger;
    var n := After(e, m, step);
    if step.CreateSession? {
      assert SessionState(e, m, step.session);
    }
    if Persisting(m, step) {
      var Ready(id, d, updated) := m.workers[step.worker];
      assert Current(e, m, m.workers[step.worker]) && SessionState(e, m, id);
      TurnStaysInSession(e, m.scenarios[id], id, History(m, id), d);
    }
    forall w | w in n.workers ensures Current(e, n, n.workers[w]) {
      if w in m.workers {
        assert Current(e, m, m.workers[w]);
      }
    }
  }

  lemma StepKeepsInv(e: Engine, m: Memory, step: Step)
    requires Lawful(e) && Inv(e, m)
    ensures Inv(e, After(e, m, step))
  {
    StepKeepsStore(e, m, step);
    StepKeepsLock(e, m, step);
    StepKeepsWorkers(e, m, step);
  }

  // ---------- the theorem ----------

  /** However turn requests interleave, every session has one linear history, and its store agrees with it. */
  lemma {:induction false} EveryInterleavingIsLinear(e: Engine, steps: seq<Step>)
    requires Lawful(e)
    ensures Inv(e, Runs.Final(EMPTY_MEMORY, steps, Do(e)))
    decreases |steps|
  {
    if |steps| > 0 {
      EveryInterleavingIsLinear(e, Init(steps));
      StepKeepsInv(e, Runs.Final(EMPTY_MEMORY, Init(steps), Do(e)), Last(steps));
    }
  }

  /** Stored states are reachable states of the engine, and count and log their own turns. */
  lemma StoredStatesAreReachable(lower: string -> string, steps: seq<Step>, id: SessionId)
    requires id in Runs.Final(EMPTY_MEMORY, steps, Do(TurnEngine(lower))).scenarios
    ensures var m := Runs.Final(EMPTY_MEMORY, steps, Do(TurnEngine(lower)));
            var sc, s0 := m.scenarios[id], InitialWorldState(id, m.scenarios[id]);
            && AcceptedRun(lower, sc, s0, History(m, id))
            && TablesAt(m, id).world == Some(StateAfter(s0, History(m, id)))
            && var world := TablesAt(m, id).world.value;
               && world.version == |History(m, id)|
               && |TablesAt(m, id).messages| == 1 + 2 * world.version
               && world.recentEvents == FilterMap(TablesAt(m, id).events, WorldEventText())
               && (ValidScenario(sc) ==> WorldInvariant.WorldInv(sc, world))
  {
    var e := TurnEngine(lower);
    TurnEngineIsLawful(lower);
    EveryInterleavingIsLinear(e, steps);
    var m := Runs.Final(EMPTY_MEMORY, steps, Do(e));
    var sc := m.scenarios[id];
    assert SessionState(e, m, id);
    TurnEngineRuns(lower, sc, id, History(m, id));
    HistoryCounts(e, sc, id, History(m, id));
    if ValidScenario(sc) {
      WorldInvariant.ReachableWorldInv(lower, sc, id, History(m, id));
    }
  }

  /** Two requests are never inside a turn of the same session at once. */
  lemma TurnsNeverOverlap(e: Engine, steps: seq<Step>, v: WorkerId, w: WorkerId)
    requires Lawful(e)
    requires var m := Runs.Final(EMPTY_MEMORY, steps, Do(e));
             v in m.workers && w in m.workers && m.workers[v].session == m.workers[w].session
    ensures v == w
  {
    EveryInterleavingIsLinear(e, steps);
  }
}
