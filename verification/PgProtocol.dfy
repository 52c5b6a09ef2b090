/**
 Postgres mode as a state machine of workers in any number of processes. Each step is one committed
 statement or transaction. The turn lock is a lease that can be taken over, released late or orphaned by
 a crash, so nothing about the history may rest on it: the version comparison alone carries it.
 */
module PgProtocol {
  import opened Wrappers
  import opened Sequences
  import opened Domain
  import opened ScenarioValidation
  import opened Engines
  import opened Sessions
  import opened Records
  import opened PgStore
  import WorldInvariant
  import Runs

  type WorkerId = nat

  /** A worker is `Releasing` from the drop of its guard until the release statement has run. */
  datatype Stage =
    | Holding
    | Loaded(scenario: Scenario, world: WorldState)
    | Ready(delta: WorldStateDelta, updated: WorldState)
    | Finished
    | Releasing

  datatype Worker = Worker(session: SessionId, since: int, stage: Stage)

  datatype Cluster = Cluster(db: Database, now: int, workers: map<WorkerId, Worker>)

  function Start(now: int): Cluster {
    Cluster(EMPTY_DATABASE, now, map[])
  }

  datatype Step =
    | CreateSession(session: SessionId, scenario: Scenario, introId: MessageId, intro: string)
    | Acquire(worker: WorkerId, session: SessionId)
    | Load(worker: WorkerId)
    | Finalize(worker: WorkerId, delta: WorldStateDelta)
    | Commit(worker: WorkerId, rows: TurnRows, fault: Fault)
    | RecordEvent(session: SessionId, eventId: Uuid, kind: EventKind, description: string)
    | DropGuard(worker: WorkerId)
    | Release(worker: WorkerId)
    | Crash(worker: WorkerId)
    | Tick(elapsed: nat)

  predicate At(p: Cluster, w: WorkerId, stage: Stage) {
    w in p.workers && p.workers[w].stage == stage
  }

  function Advanced(p: Cluster, w: WorkerId, stage: Stage): Cluster
    requires w in p.workers
  {
    p.(workers := p.workers[w := p.workers[w].(stage := stage)])
  }

  /** The rows a worker writes are those of the turn it finalized. */
  predicate Writes(worker: Worker, t: TurnRows) {
    && worker.stage == Ready(t.delta, t.updated)
    && WellFormed(t)
    && t.user.role == User && t.user.sessionId == worker.session
    && t.assistant.role == Assistant && t.assistant.sessionId == worker.session
  }

  function Created(e: Engine, db: Database, id: SessionId, sc: Scenario, intro: Message): Database {
    WithNewSession(db, id, sc, e.initial(id, sc), intro)
  }

  function AfterCommit(db: Database, t: TurnRows, fault: Fault): Database
    requires WellFormed(t)
  {
    if Commits(db, t, fault) then WithTurnRows(db, t) else db
  }

  function AfterRelease(db: Database, id: SessionId): Database {
    if id in db.sessions then WithSessionRow(db, id, Released(db.sessions[id])) else db
  }

  /** A step that is not enabled changes nothing. A failed commit ends the turn like a successful one. */
  function After(e: Engine, p: Cluster, step: Step): Cluster {
    match step
    case CreateSession(id, sc, introId, intro) =>
      if id in p.db.sessions then p else p.(db := Created(e, p.db, id, sc, IntroMessage(introId, id, intro)))
    case Acquire(w, id) =>
      if w in p.workers || id !in p.db.sessions || !Acquirable(p.db.sessions[id], p.now) then p
      else
        p.(db := WithSessionRow(p.db, id, Leased(p.db.sessions[id], p.now)),
           workers := p.workers[w := Worker(id, p.now, Holding)])
    case Load(w) =>
      if !At(p, w, Holding) then p
      else
        var id := p.workers[w].session;
        if id !in p.db.sessions || id !in p.db.worlds then p
        else Advanced(p, w, Loaded(p.db.sessions[id].scenario, p.db.worlds[id].state))
    case Finalize(w, d) =>
      if w !in p.workers || !p.workers[w].stage.Loaded? then p
      else
        var Loaded(sc, world) := p.workers[w].stage;
        if !e.accepts(sc)(world, d) then p else Advanced(p, w, Ready(d, e.applied(world, d)))
    case Commit(w, t, fault) =>
      if w !in p.workers || !Writes(p.workers[w], t) then p
      else Advanced(p.(db := AfterCommit(p.db, t, fault)), w, Finished)
    case RecordEvent(id, eventId, kind, description) =>
      if id !in p.db.sessions then p
      else p.(db := WithEventRow(p.db, EventRecord(eventId, id, EventName(kind), description)))
    case DropGuard(w) =>
      if w !in p.workers then p else Advanced(p, w, Releasing)
    case Release(w) =>
      if !At(p, w, Releasing) then p
      else p.(db := AfterRelease(p.db, p.workers[w].session), workers := p.workers - {w})
    case Crash(w) => p.(workers := p.workers - {w})
    case Tick(elapsed) => p.(now := p.now + elapsed)
  }

  function Do(e: Engine): (Cluster, Step) -> Cluster {
    (p: Cluster, step: Step) => After(e, p, step)
  }

  // ---------- one session's rows ----------

  function DeltaOf(id: SessionId): DeltaRow -> Option<WorldStateDelta> {
    (r: DeltaRow) => if r.sessionId == id then Some(r.delta) else None
  }

  function RoleIn(id: SessionId): Message -> Option<MessageRole> {
    (m: Message) => if m.sessionId == id then Some(m.role) else None
  }

  function StoryOf(id: SessionId): EventRecord -> Option<string> {
    (r: EventRecord) => if r.sessionId == id && r.eventType == WORLD_EVENT then Some(r.description) else None
  }

  /** A session's rows, each table in insertion order. */
  datatype View = View(
    scenario: Option<Scenario>,
    world: Option<WorldRow>,
    history: seq<WorldStateDelta>,
    roles: seq<MessageRole>,
    story: seq<string>)

  /** The deltas stored for a session are its committed history. */
  function History(db: Database, id: SessionId): seq<WorldStateDelta> {
    FilterMap(db.deltas, DeltaOf(id))
  }

  function ViewOf(db: Database, id: SessionId): View {
    View(
      if id in db.sessions then Some(db.sessions[id].scenario) else None,
      if id in db.worlds then Some(db.worlds[id]) else None,
      History(db, id),
      FilterMap(db.messages, RoleIn(id)),
      FilterMap(db.events, StoryOf(id)))
  }

  const NO_SESSION := View(None, None, [], [], [])

  function Roles(turns: nat): seq<MessageRole> {
    if turns == 0 then [System] else Roles(turns - 1) + [User, Assistant]
  }

  /** The row is the fold of the stored deltas, each accepted where it was applied, and its version counts them. */
  ghost predicate SessionGood(e: Engine, id: SessionId, v: View) {
    match v.scenario
    case None => v == NO_SESSION
    case Some(sc) =>
      && LegalHistory(e, sc, id, v.history)
      && v.world == Some(WorldRow(StateOf(e, sc, id, v.history), |v.history|))
      && v.roles == Roles(|v.history|)
      && v.story == LoggedEvents(v.history)
  }

  ghost predicate StoreInv(e: Engine, db: Database) {
    forall id :: SessionGood(e, id, ViewOf(db, id))
  }

  /** What a worker has read is the state after some prefix of the history, perhaps no longer all of it. */
  ghost predicate StageGood(e: Engine, id: SessionId, v: View, stage: Stage) {
    match stage
    case Loaded(sc, world) =>
      && v.scenario == Some(sc) && world.version <= |v.history|
      && world == StateOf(e, sc, id, v.history[..world.version])
    case Ready(d, updated) =>
      && v.scenario.Some? && 1 <= updated.version <= |v.history| + 1
      && var seen := StateOf(e, v.scenario.value, id, v.history[..updated.version - 1]);
      && e.accepts(v.scenario.value)(seen, d)
      && updated == e.applied(seen, d)
    case _ => true
  }

  ghost predicate WorkersInv(e: Engine, p: Cluster) {
    forall w | w in p.workers ::
      StageGood(e, p.workers[w].session, ViewOf(p.db, p.workers[w].session), p.workers[w].stage)
  }

  ghost predicate Inv(e: Engine, p: Cluster) {
    StoreInv(e, p.db) && WorkersInv(e, p)
  }

  // ---------- what each write does to each session's rows ----------

  lemma ViewAfterCreate(e: Engine, db: Database, id: SessionId, sc: Scenario, intro: Message, other: SessionId)
    requires Lawful(e) && id !in db.sessions && ViewOf(db, id) == NO_SESSION
    requires intro.sessionId == id && intro.role == System
    ensures ViewOf(Created(e, db, id, sc, intro), other) ==
            if other == id then View(Some(sc), Some(WorldRow(e.initial(id, sc), 0)), [], [System], [])
            else ViewOf(db, other)
  {
    hide FilterMap;
    assert StartsBlank(e, sc, id);
    FilterMapPush(db.messages, intro, RoleIn(other));
    if other == id {
      assert FilterMap(db.messages, RoleIn(other)) == ViewOf(db, id).roles == [];
      assert [] + [System] == [System];
    }
  }

  lemma {:induction false} StoryOfTurn(id: SessionId, ids: seq<Uuid>, log: seq<string>, other: SessionId)
    requires |ids| == |log|
    ensures FilterMap(WorldEvents(id, ids, log), StoryOf(other)) == if other == id then log else []
    decreases |log|
  {
    if |log| > 0 {
      StoryOfTurn(id, Init(ids), Init(log), other);
      assert Init(WorldEvents(id, ids, log)) == WorldEvents(id, Init(ids), Init(log));
      InitLast(log);
    }
  }

  lemma RolesOfTurn(messages: seq<Message>, t: TurnRows, other: SessionId)
    requires t.user.sessionId == t.assistant.sessionId && t.user.role == User && t.assistant.role == Assistant
    ensures FilterMap(messages + [t.user, t.assistant], RoleIn(other)) ==
            FilterMap(messages, RoleIn(other)) + if other == t.user.sessionId then [User, Assistant] else []
  {
    assert messages + [t.user, t.assistant] == (messages + [t.user]) + [t.assistant];
    FilterMapPush(messages + [t.user], t.assistant, RoleIn(other));
    FilterMapPush(messages, t.user, RoleIn(other));
  }

  lemma HistoryOfTurn(deltas: seq<DeltaRow>, row: DeltaRow, other: SessionId)
    ensures FilterMap(deltas + [row], DeltaOf(other)) ==
            FilterMap(deltas, DeltaOf(other)) + if other == row.sessionId then [row.delta] else []
  {
    FilterMapPush(deltas, row, DeltaOf(other));
  }

  lemma StoryAfterTurn(events: seq<EventRecord>, id: SessionId, ids: seq<Uuid>, log: seq<string>, other: SessionId)
    requires |ids| == |log|
    ensures FilterMap(events + WorldEvents(id, ids, log), StoryOf(other)) ==
            FilterMap(events, StoryOf(other)) + if other == id then log else []
  {
    FilterMapAppend(events, WorldEvents(id, ids, log), StoryOf(other));
    StoryOfTurn(id, ids, log, other);
  }

  /** The view of a session after the rows of one of its turns were added. */
  function TurnAdded(v: View, t: TurnRows): View {
    View(
      v.scenario, Some(WorldRow(t.updated, t.updated.version)), v.history + [t.delta], v.roles + [User, Assistant],
      v.story + t.delta.eventLogEntries)
  }

  lemma ViewAfterTurn(db: Database, t: TurnRows, other: SessionId)
    requires WellFormed(t) && t.updated.sessionId in db.worlds
    requires t.user.role == User && t.assistant.role == Assistant
    requires t.user.sessionId == t.assistant.sessionId == t.updated.sessionId
    ensures ViewOf(WithTurnRows(db, t), other) ==
            if other == t.updated.sessionId then TurnAdded(ViewOf(db, other), t) else ViewOf(db, other)
  {
    hide FilterMap, WorldEvents, RoleIn, DeltaOf, StoryOf;
    var v := ViewOf(db, other);
    RolesOfTurn(db.messages, t, other);
    HistoryOfTurn(db.deltas, DeltaRow(t.deltaId, t.assistant.sessionId, t.assistant.id, t.delta), other);
    StoryAfterTurn(db.events, t.updated.sessionId, t.eventIds, t.delta.eventLogEntries, other);
  }

  // ---------- the version comparison ----------

  /** A worker whose version still matches has seen the whole history, and commits the next turn of it. */
  lemma MatchingVersionIsCurrent(e: Engine, id: SessionId, v: View, d: WorldStateDelta, updated: WorldState)
    requires Lawful(e) && SessionGood(e, id, v) && StageGood(e, id, v, Ready(d, updated))
    requires v.world.value.version == updated.version - 1
    ensures e.accepts(v.scenario.value)(v.world.value.state, d) && updated == e.applied(v.world.value.state, d)
    ensures SessionGood(
              e, id,
              View(
                v.scenario, Some(WorldRow(updated, updated.version)), v.history + [d], v.roles + [User, Assistant],
                v.story + d.eventLogEntries))
  {
    assert v.history[..|v.history|] == v.history;
    HistoryExtends(e, v.scenario.value, id, v.history, d);
  }

  /** Rows of other sessions stay, and a session's history only grows. */
  ghost predicate Extends(v: View, u: View) {
    && (v.scenario.Some? ==> u.scenario == v.scenario)
    && |v.history| <= |u.history| && u.history[..|v.history|] == v.history
  }

  /** A longer history does not unsettle what workers have seen of it. */
  lemma SeenStaysSeen(e: Engine, id: SessionId, v: View, u: View, stage: Stage)
    requires StageGood(e, id, v, stage) && Extends(v, u)
    ensures StageGood(e, id, u, stage)
  {
    match stage {
      case Loaded(_, world) => assert u.history[..world.version] == v.history[..world.version];
      case Ready(_, updated) => assert u.history[..updated.version - 1] == v.history[..updated.version - 1];
      case _ =>
    }
  }

  // ---------- one step ----------

  lemma UnchangedExtends(v: View)
    ensures Extends(v, v)
  {
    assert v.history[..|v.history|] == v.history;
  }

  lemma CreateKeepsStore(e: Engine, p: Cluster, step: Step)
    requires Lawful(e) && StoreInv(e, p.db) && step.CreateSession?
    ensures StoreInv(e, After(e, p, step).db)
    ensures forall id :: Extends(ViewOf(p.db, id), ViewOf(After(e, p, step).db, id))
  {
    var CreateSession(id, sc, introId, intro) := step;
    assert SessionGood(e, id, ViewOf(p.db, id));
    forall other
      ensures SessionGood(e, other, ViewOf(After(e, p, step).db, other))
      ensures Extends(ViewOf(p.db, other), ViewOf(After(e, p, step).db, other))
    {
      assert SessionGood(e, other, ViewOf(p.db, other));
      UnchangedExtends(ViewOf(p.db, other));
      if id !in p.db.sessions {
        ViewAfterCreate(e, p.db, id, sc, IntroMessage(introId, id, intro), other);
      }
    }
  }

  /** A transaction that commits adds one good turn to its session. */
  lemma CommittedTurnIsGood(e: Engine, p: Cluster, w: WorkerId, t: TurnRows)
    requires Lawful(e) && Inv(e, p) && w in p.workers && Writes(p.workers[w], t) && VersionMatches(p.db, t.updated)
    ensures t.updated.sessionId == p.workers[w].session
    ensures var v := ViewOf(p.db, t.updated.sessionId);
            SessionGood(e, t.updated.sessionId, TurnAdded(v, t)) && Extends(v, TurnAdded(v, t))
  {
    var id := p.workers[w].session;
    var v := ViewOf(p.db, id);
    assert StageGood(e, id, v, Ready(t.delta, t.updated)) && SessionGood(e, id, v);
    TurnStaysInSession(e, v.scenario.value, id, v.history[..t.updated.version - 1], t.delta);
    MatchingVersionIsCurrent(e, id, v, t.delta, t.updated);
  }

  lemma CommitKeepsStore(e: Engine, p: Cluster, step: Step)
    requires Lawful(e) && Inv(e, p) && step.Commit?
    ensures StoreInv(e, After(e, p, step).db)
    ensures forall id :: Extends(ViewOf(p.db, id), ViewOf(After(e, p, step).db, id))
  {
    hide SessionGood, StageGood, ViewOf, WithTurnRows, TurnAdded, Extends;
    var Commit(w, t, fault) := step;
    forall other
      ensures SessionGood(e, other, ViewOf(After(e, p, step).db, other))
      ensures Extends(ViewOf(p.db, other), ViewOf(After(e, p, step).db, other))
    {
      assert SessionGood(e, other, ViewOf(p.db, other));
      UnchangedExtends(ViewOf(p.db, other));
      if w in p.workers && Writes(p.workers[w], t) && Commits(p.db, t, fault) {
        CommittedTurnIsGood(e, p, w, t);
        ViewAfterTurn(p.db, t, other);
      }
    }
  }

  /** Every other step writes nothing, or only lock columns and events. */
  lemma OtherStepsKeepViews(e: Engine, p: Cluster, step: Step, id: SessionId)
    requires !step.CreateSession? && !step.Commit?
    ensures ViewOf(After(e, p, step).db, id) == ViewOf(p.db, id)
  {
    if step.RecordEvent? {
      NoEventIsAWorldEvent(step.kind);
    }
  }

  lemma StepKeepsStore(e: Engine, p: Cluster, step: Step)
    requires Lawful(e) && Inv(e, p)
    ensures StoreInv(e, After(e, p, step).db)
    ensures forall id :: Extends(ViewOf(p.db, id), ViewOf(After(e, p, step).db, id))
  {
    if step.CreateSession? {
      CreateKeepsStore(e, p, step);
    } else if step.Commit? {
      CommitKeepsStore(e, p, step);
    } else {
      forall id
        ensures SessionGood(e, id, ViewOf(After(e, p, step).db, id))
        ensures Extends(ViewOf(p.db, id), ViewOf(After(e, p, step).db, id))
      {
        OtherStepsKeepViews(e, p, step, id);
        UnchangedExtends(ViewOf(p.db, id));
        assert SessionGood(e, id, ViewOf(p.db, id));
      }
    }
  }

  /** What is loaded is the state after the whole history. */
  lemma LoadIsGood(e: Engine, id: SessionId, v: View)
    requires Lawful(e) && SessionGood(e, id, v) && v.scenario.Some?
    ensures StageGood(e, id, v, Loaded(v.scenario.value, v.world.value.state))
  {
    assert v.history[..|v.history|] == v.history;
    HistoryCounts(e, v.scenario.value, id, v.history);
  }

  lemma FinalizeIsGood(e: Engine, id: SessionId, v: View, sc: Scenario, world: WorldState, d: WorldStateDelta)
    requires Lawful(e) && StageGood(e, id, v, Loaded(sc, world)) && e.accepts(sc)(world, d)
    ensures StageGood(e, id, v, Ready(d, e.applied(world, d)))
  {
    assert CountsItself(e, world, d);
  }

  /** A stage that a step puts a worker into is good where the step finds the store. */
  lemma NewStageIsGood(e: Engine, p: Cluster, step: Step, w: WorkerId)
    requires Lawful(e) && Inv(e, p) && w in After(e, p, step).workers
    ensures var worker := After(e, p, step).workers[w];
            StageGood(e, worker.session, ViewOf(p.db, worker.session), worker.stage)
  {
    hide SessionGood, StageGood, AfterCommit, AfterRelease, Created;
    var after := After(e, p, step).workers[w];
    var id := after.session;
    var v := ViewOf(p.db, id);
    assert SessionGood(e, id, v);
    if w in p.workers && after == p.workers[w] {
      assert StageGood(e, id, v, p.workers[w].stage);
    } else if step.Load? {
      LoadIsGood(e, id, v);
    } else if step.Finalize? {
      var Loaded(sc, world) := p.workers[w].stage;
      assert StageGood(e, id, v, p.workers[w].stage);
      FinalizeIsGood(e, id, v, sc, world, step.delta);
    } else {
      IdleIsGood(e, id, v, after.stage);
    }
  }

  lemma IdleIsGood(e: Engine, id: SessionId, v: View, stage: Stage)
    requires stage.Holding? || stage.Finished? || stage.Releasing?
    ensures StageGood(e, id, v, stage)
  {
  }

  lemma StepKeepsInv(e: Engine, p: Cluster, step: Step)
    requires Lawful(e) && Inv(e, p)
    ensures Inv(e, After(e, p, step))
  {
    hide SessionGood, StageGood, After, ViewOf, Extends;
    var n := After(e, p, step);
    StepKeepsStore(e, p, step);
    forall w | w in n.workers
      ensures StageGood(e, n.workers[w].session, ViewOf(n.db, n.workers[w].session), n.workers[w].stage)
    {
      NewStageIsGood(e, p, step, w);
      var id := n.workers[w].session;
      assert Extends(ViewOf(p.db, id), ViewOf(n.db, id));
      SeenStaysSeen(e, id, ViewOf(p.db, id), ViewOf(n.db, id), n.workers[w].stage);
    }
  }

  // ---------- the theorem ----------

  /** However workers interleave, crash, and take over or release locks, the invariant holds. */
  lemma {:induction false} EveryInterleavingKeepsHistory(e: Engine, now: int, steps: seq<Step>)
    requires Lawful(e)
    ensures Inv(e, Runs.Final(Start(now), steps, Do(e)))
    decreases |steps|
  {
    if |steps| > 0 {
      EveryInterleavingKeepsHistory(e, now, Init(steps));
      StepKeepsInv(e, Runs.Final(Start(now), Init(steps), Do(e)), Last(steps));
    }
  }

  /** No update is lost: the row is the fold of every stored delta, in commit order, and counts them. */
  lemma NoLostUpdate(lower: string -> string, now: int, steps: seq<Step>, id: SessionId)
    requires id in Runs.Final(Start(now), steps, Do(TurnEngine(lower))).db.sessions
    ensures var db := Runs.Final(Start(now), steps, Do(TurnEngine(lower))).db;
            var sc := db.sessions[id].scenario;
            var s0, history := InitialWorldState(id, sc), History(db, id);
            && AcceptedRun(lower, sc, s0, history)
            && id in db.worlds && db.worlds[id] == WorldRow(StateAfter(s0, history), |history|)
            && StateAfter(s0, history).version == |history|
            && FilterMap(db.messages, RoleIn(id)) == Roles(|history|)
            && FilterMap(db.events, StoryOf(id)) == StateAfter(s0, history).recentEvents
            && (ValidScenario(sc) ==> WorldInvariant.WorldInv(sc, db.worlds[id].state))
  {
    var e := TurnEngine(lower);
    TurnEngineIsLawful(lower);
    EveryInterleavingKeepsHistory(e, now, steps);
    var db := Runs.Final(Start(now), steps, Do(e)).db;
    var sc, history := db.sessions[id].scenario, History(db, id);
    assert SessionGood(e, id, ViewOf(db, id));
    TurnEngineRuns(lower, sc, id, history);
    HistoryCounts(e, sc, id, history);
    if ValidScenario(sc) {
      WorldInvariant.ReachableWorldInv(lower, sc, id, history);
    }
  }

  /** Of workers that computed the same version of a session, only the first to commit gets through. */
  lemma RaceHasOneWinner(
    e: Engine, p: Cluster, v: WorkerId, w: WorkerId, first: TurnRows, second: TurnRows, fault: Fault)
    requires Lawful(e) && Inv(e, p) && v in p.workers && w in p.workers
    requires Writes(p.workers[v], first) && Writes(p.workers[w], second)
    requires p.workers[v].session == p.workers[w].session && first.updated.version == second.updated.version
    ensures !Commits(WithTurnRows(p.db, first), second, fault)
  {
    var id := p.workers[v].session;
    var view := ViewOf(p.db, id);
    assert StageGood(e, id, view, Ready(first.delta, first.updated));
    assert StageGood(e, id, view, Ready(second.delta, second.updated));
    var seen := view.history[..first.updated.version - 1];
    TurnStaysInSession(e, view.scenario.value, id, seen, first.delta);
    TurnStaysInSession(e, view.scenario.value, id, seen, second.delta);
  }
}
