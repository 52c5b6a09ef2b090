/**
 `PgPersistence` and `PostgresSessionTurnLock` over one database. Tables are maps and lists of rows in
 insertion order; a transaction works on a copy that replaces the database when it commits. Queries
 that order rows by timestamp are not modelled.
 */
module PgStore {
  import opened Wrappers
  import opened Sequences
  import opened Domain
  import opened Records
  import opened MemoryStore
  import opened Sessions

  /** A session row, read together with its scenario row, and the two columns of the turn lock. */
  datatype SessionRow = SessionRow(scenario: Scenario, processingTurn: bool, startedAt: Option<int>)

  datatype WorldRow = WorldRow(state: WorldState, version: nat)

  datatype DeltaRow = DeltaRow(id: Uuid, sessionId: SessionId, messageId: MessageId, delta: WorldStateDelta)

  datatype Database = Database(
    sessions: map<SessionId, SessionRow>,
    worlds: map<SessionId, WorldRow>,
    messages: seq<Message>,
    deltas: seq<DeltaRow>,
    events: seq<EventRecord>)

  const EMPTY_DATABASE := Database(map[], map[], [], [], [])

  /** Milliseconds after which a turn lock may be taken over. */
  const LEASE := 5 * 60 * 1000

  /** What is written for one turn. */
  datatype TurnRows = TurnRows(
    user: Message,
    assistant: Message,
    deltaId: Uuid,
    delta: WorldStateDelta,
    eventIds: seq<Uuid>,
    updated: WorldState)

  predicate WellFormed(t: TurnRows) {
    |t.eventIds| == |t.delta.eventLogEntries| && t.updated.version > 0
  }

  /** `WHERE session_id = $1 AND version = $4` finds the row. */
  predicate VersionMatches(db: Database, updated: WorldState) {
    updated.sessionId in db.worlds && db.worlds[updated.sessionId].version == updated.version - 1
  }

  /** The foreign keys of the rows a turn inserts. */
  predicate KeysExist(db: Database, t: TurnRows) {
    && t.user.sessionId in db.sessions && t.assistant.sessionId in db.sessions
    && (|t.delta.eventLogEntries| > 0 ==> t.updated.sessionId in db.sessions)
  }

  /** The turn's transaction commits. */
  predicate Commits(db: Database, t: TurnRows, fault: Fault) {
    KeysExist(db, t) && VersionMatches(db, t.updated) && Survives(t, fault)
  }

  /** The database after a committed turn. */
  function WithTurnRows(db: Database, t: TurnRows): Database
    requires WellFormed(t)
  {
    var id := t.updated.sessionId;
    db.(messages := db.messages + [t.user, t.assistant],
        deltas := db.deltas + [DeltaRow(t.deltaId, t.assistant.sessionId, t.assistant.id, t.delta)],
        worlds := db.worlds[id := WorldRow(t.updated, t.updated.version)],
        events := db.events + WorldEvents(id, t.eventIds, t.delta.eventLogEntries))
  }

  /**
   Where the connection fails, if it does: at a statement, counted from the first insert to the commit,
   or after the server has committed and before the client hears of it.
   */
  datatype Fault = NoFault | FailsAt(statement: nat) | Unacknowledged

  predicate Strikes(fault: Fault, statement: nat) {
    fault == FailsAt(statement)
  }

  /** Statements of a turn's transaction: three inserts, the update, the events, the commit. */
  function CommitStatement(t: TurnRows): nat {
    4 + |t.delta.eventLogEntries|
  }

  predicate Survives(t: TurnRows, fault: Fault) {
    fault.FailsAt? ==> fault.statement > CommitStatement(t)
  }

  function Acquirable(row: SessionRow, now: int): bool {
    !row.processingTurn || (row.startedAt.Some? && row.startedAt.value < now - LEASE)
  }

  function Leased(row: SessionRow, now: int): SessionRow {
    row.(processingTurn := true, startedAt := Some(now))
  }

  function Released(row: SessionRow): SessionRow {
    row.(processingTurn := false, startedAt := None)
  }

  /** The database after a session was created: row, initial state at its version, intro message. */
  function WithNewSession(
    db: Database, id: SessionId, scenario: Scenario, world: WorldState, intro: Message): Database
  {
    db.(sessions := db.sessions[id := SessionRow(scenario, false, None)],
        worlds := db.worlds[id := WorldRow(world, world.version)],
        messages := db.messages + [intro])
  }

  function WithEventRow(db: Database, e: EventRecord): Database {
    db.(events := db.events + [e])
  }

  function WithSessionRow(db: Database, id: SessionId, row: SessionRow): Database {
    db.(sessions := db.sessions[id := row])
  }

  /** A committed turn, row by row: two messages, the delta beside the answer, the state, one event for each line. */
  lemma CommittedRows(db: Database, t: TurnRows)
    requires WellFormed(t)
    ensures var r, id, m, e := WithTurnRows(db, t), t.updated.sessionId, |db.messages|, |db.events|;
            && r.sessions == db.sessions
            && r.worlds == db.worlds[id := WorldRow(t.updated, t.updated.version)]
            && r.messages == db.messages + [t.user, t.assistant]
            && r.deltas == db.deltas + [DeltaRow(t.deltaId, t.assistant.sessionId, t.assistant.id, t.delta)]
            && db.events <= r.events && |r.events| == e + |t.delta.eventLogEntries|
            && forall i | 0 <= i < |t.delta.eventLogEntries| ::
                 r.events[e + i] == EventRecord(t.eventIds[i], id, "world_event", t.delta.eventLogEntries[i])
  {
  }

  /** A turn commits exactly when its keys exist, the stored version is the one before it and no statement fails. */
  lemma CommitsIff(db: Database, t: TurnRows, fault: Fault)
    requires WellFormed(t)
    ensures var id, n := t.updated.sessionId, |t.delta.eventLogEntries|;
            Commits(db, t, fault) <==>
            && t.user.sessionId in db.sessions && t.assistant.sessionId in db.sessions
            && (n == 0 || id in db.sessions)
            && id in db.worlds && db.worlds[id].version + 1 == t.updated.version
            && (forall k: nat | k <= n + 4 :: fault != FailsAt(k))
  {
    if fault.FailsAt? {
      assert fault == FailsAt(fault.statement);
    }
  }

  class PgPool {
    var db: Database

    constructor ()
      ensures db == EMPTY_DATABASE
    {
      db := EMPTY_DATABASE;
    }

    /** One transaction: session, initial world state and intro message, if the scenario is there. */
    method CreateSession(
      id: SessionId, scenario: Option<Scenario>, introId: MessageId, intro: string, fault: Fault)
      returns (r: Result<bool, StoreError>)
      requires id !in db.sessions
      modifies this
      ensures scenario.None? ==> r == Success(false) && db == old(db)
      ensures scenario.Some? && fault.FailsAt? && fault.statement <= 3 ==>
                r == Failure(StatementFailed) && db == old(db)
      ensures scenario.Some? && !(fault.FailsAt? && fault.statement <= 3) ==>
                && r == (if fault == Unacknowledged then Failure(StatementFailed) else Success(true))
                && db == old(db).(
                           sessions := old(db.sessions)[id := SessionRow(scenario.value, false, None)],
                           worlds := old(db.worlds)[id := WorldRow(InitialWorldState(id, scenario.value), 0)],
                           messages := old(db.messages) + [Message(introId, id, System, None, intro, None)])
    {
      if scenario.None? {
        return Success(false);
      }
      var world := InitialWorldState(id, scenario.value);
      var tx := db;
      if Strikes(fault, 0) {
        return Failure(StatementFailed);
      }
      tx := tx.(sessions := tx.sessions[id := SessionRow(scenario.value, false, None)]);
      if Strikes(fault, 1) {
        return Failure(StatementFailed);
      }
      tx := tx.(worlds := tx.worlds[id := WorldRow(world, world.version)]);
      if Strikes(fault, 2) {
        return Failure(StatementFailed);
      }
      tx := tx.(messages := tx.messages + [IntroMessage(introId, id, intro)]);
      if Strikes(fault, 3) {
        return Failure(StatementFailed);
      }
      db := tx;
      r := if fault == Unacknowledged then Failure(StatementFailed) else Success(true);
    }

    method LoadTurnState(id: SessionId) returns (r: Result<LoadedTurn, StoreError>)
      ensures r.Success? <==> id in db.sessions && id in db.worlds
      ensures r.Success? ==>
                && r.value.scenario == db.sessions[id].scenario && r.value.world == db.worlds[id].state
                && r.value.recent == RecentRows(Filter(db.messages, OfSession(id)))
      ensures forall m :: m in Filter(db.messages, OfSession(id)) <==> m in db.messages && m.sessionId == id
    {
      if id !in db.sessions || id !in db.worlds {
        return Failure(NotFound);
      }
      var recent := RecentRows(Filter(db.messages, OfSession(id)));
      r := Success(LoadedTurn(db.sessions[id].scenario, db.worlds[id].state, recent));
    }

    /** A turn is written whole or not at all, and only onto the version it was computed from. */
    method PersistSuccessfulTurn(t: TurnRows, fault: Fault) returns (ok: bool)
      requires WellFormed(t)
      modifies this
      ensures ok <==> Commits(old(db), t, fault) && fault != Unacknowledged
      ensures db == if Commits(old(db), t, fault) then WithTurnRows(old(db), t) else old(db)
    {
      var tx := db;
      if Strikes(fault, 0) || t.user.sessionId !in tx.sessions {
        return false;
      }
      tx := tx.(messages := tx.messages + [t.user]);
      if Strikes(fault, 1) || t.assistant.sessionId !in tx.sessions {
        return false;
      }
      tx := tx.(messages := tx.messages + [t.assistant]);
      if Strikes(fault, 2) {
        return false;
      }
      tx := tx.(deltas := tx.deltas + [DeltaRow(t.deltaId, t.assistant.sessionId, t.assistant.id, t.delta)]);
      if Strikes(fault, 3) {
        return false;
      }
      var id := t.updated.sessionId;
      if id !in tx.worlds || tx.worlds[id].version != t.updated.version - 1 {
        return false;
      }
      tx := tx.(worlds := tx.worlds[id := WorldRow(t.updated, t.updated.version)]);
      ghost var all := WorldEvents(id, t.eventIds, t.delta.eventLogEntries);
      for i := 0 to |t.delta.eventLogEntries|
        invariant tx == WithTurnRows(db, t).(events := db.events + all[..i])
        invariant db == old(db)
        invariant fault.FailsAt? ==> fault.statement >= 4 + i
        invariant i > 0 ==> id in db.sessions
      {
        if Strikes(fault, 4 + i) || id !in tx.sessions {
          return false;
        }
        var record := EventRecord(t.eventIds[i], id, WORLD_EVENT, t.delta.eventLogEntries[i]);
        tx := tx.(events := tx.events + [record]);
        PushNext(db.events, all, i);
      }
      assert all[..|t.delta.eventLogEntries|] == all;
      if Strikes(fault, CommitStatement(t)) {
        return false;
      }
      db := tx;
      ok := fault != Unacknowledged;
    }

    method PersistEvent(id: SessionId, eventId: Uuid, kind: EventKind, description: string) returns (ok: bool)
      modifies this
      ensures ok <==> id in old(db.sessions)
      ensures db == if ok then WithEventRow(old(db), EventRecord(eventId, id, EventName(kind), description))
                    else old(db)
      ensures ok ==>
                db == old(db).(events := old(db.events) + [EventRecord(eventId, id, EventName(kind), description)])
    {
      ok := id in db.sessions;
      if ok {
        db := db.(events := db.events + [EventRecord(eventId, id, EventName(kind), description)]);
      }
    }
  }

  function OfSession(id: SessionId): Message -> bool {
    (m: Message) => m.sessionId == id
  }

  /** The lock is two columns of the session row; any holder's release clears them, whoever set them. */
  class PostgresSessionTurnLock {
    const pool: PgPool

    constructor (pool: PgPool)
      ensures this.pool == pool
    {
      this.pool := pool;
    }

    method Acquire(id: SessionId, now: int) returns (granted: bool)
      modifies pool
      ensures granted <==> id in old(pool.db.sessions) && Acquirable(old(pool.db.sessions)[id], now)
      ensures pool.db == if granted then WithSessionRow(old(pool.db), id, Leased(old(pool.db.sessions)[id], now))
                         else old(pool.db)
      ensures id in old(pool.db.sessions) ==>
                var row := old(pool.db.sessions)[id];
                && (granted <==>
                      !row.processingTurn || (row.startedAt.Some? && now - row.startedAt.value > 5 * 60 * 1000))
                && (granted ==>
                      pool.db == old(pool.db).(
                                   sessions := old(pool.db.sessions)[id := SessionRow(row.scenario, true, Some(now))]))
    {
      if id !in pool.db.sessions {
        return false;
      }
      var row := pool.db.sessions[id];
      if row.processingTurn && !(row.startedAt.Some? && row.startedAt.value < now - LEASE) {
        return false;
      }
      row := row.(processingTurn := true, startedAt := Some(now));
      pool.db := pool.db.(sessions := pool.db.sessions[id := row]);
      granted := true;
    }

    method Release(id: SessionId)
      modifies pool
      ensures pool.db == if id in old(pool.db.sessions)
                         then WithSessionRow(old(pool.db), id, Released(old(pool.db.sessions)[id]))
                         else old(pool.db)
      ensures id in old(pool.db.sessions) ==>
                var row := old(pool.db.sessions)[id];
                pool.db == old(pool.db).(
                             sessions := old(pool.db.sessions)[id := SessionRow(row.scenario, false, None)])
    {
      if id in pool.db.sessions {
        var row := pool.db.sessions[id];
        row := row.(processingTurn := false, startedAt := None);
        pool.db := pool.db.(sessions := pool.db.sessions[id := row]);
      }
    }
  }
}
