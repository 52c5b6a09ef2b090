/**
 `InMemoryApplicationStore` and `InMemorySessionTurnLock`, the two shared objects of memory mode. The
 mutex around each makes every method one atomic step. Fresh identifiers are given by the caller.
 */
module MemoryStore {
  import opened Wrappers
  import opened Sequences
  import opened Domain
  import opened Sessions
  import opened Records

  datatype TimelineEntry = TimelineEntry(
    kind: string,
    description: string,
    messageId: Option<MessageId>,
    eventId: Option<Uuid>,
    worldStateVersion: Option<nat>)

  /** Everything the store keeps under one session identifier; absent entries read as empty. */
  datatype Tables = Tables(
    world: Option<WorldState>,
    messages: seq<Message>,
    events: seq<EventRecord>,
    timeline: seq<TimelineEntry>)

  const EMPTY_TABLES := Tables(None, [], [], [])

  function EventEntry(e: EventRecord, version: Option<nat>): TimelineEntry {
    TimelineEntry(e.eventType, e.description, None, Some(e.id), version)
  }

  function IntroEntry(m: Message): TimelineEntry {
    TimelineEntry("system_message", m.content, Some(m.id), None, None)
  }

  function UserEntry(m: Message): TimelineEntry {
    TimelineEntry("user_message", m.content, Some(m.id), None, None)
  }

  function AssistantEntry(m: Message, version: nat): TimelineEntry {
    TimelineEntry("assistant_message", m.content, Some(m.id), None, Some(version))
  }

  function EventEntries(events: seq<EventRecord>, version: nat): (r: seq<TimelineEntry>)
    ensures |r| == |events|
  {
    seq(|events|, i requires 0 <= i < |events| => EventEntry(events[i], Some(version)))
  }

  function Kept(assistant: Message, storeRaw: bool): Message {
    if storeRaw then assistant else assistant.(rawProviderOutput := None)
  }

  /** The effect of inserting a session. */
  function WithSession(t: Tables, world: WorldState, intro: Message): Tables {
    t.(world := Some(world), messages := t.messages + [intro], timeline := t.timeline + [IntroEntry(intro)])
  }

  /** The effect of persisting a successful turn: no version is compared. */
  function WithTurn(
    t: Tables, user: Message, assistant: Message, updated: WorldState, events: seq<EventRecord>): Tables
  {
    Tables(
      Some(updated),
      t.messages + [user, assistant],
      t.events + events,
      t.timeline + [UserEntry(user), AssistantEntry(assistant, updated.version)] +
      EventEntries(events, updated.version))
  }

  /** The effect of an event outside a successful turn. */
  function WithEvent(t: Tables, e: EventRecord): Tables {
    t.(events := t.events + [e], timeline := t.timeline + [EventEntry(e, None)])
  }

  /**
   A stored turn, field by field: the player's message, the answer with its raw output if that is kept, and
   for each logged event one record and one timeline entry with the version.
   */
  lemma StoredTurn(
    t: Tables, user: Message, assistant: Message, updated: WorldState, ids: seq<Uuid>, log: seq<string>, storeRaw: bool)
    requires |ids| == |log|
    ensures var id := updated.sessionId;
            var r := WithTurn(t, user, Kept(assistant, storeRaw), updated, WorldEvents(id, ids, log));
            var m, e, l := |t.messages|, |t.events|, |t.timeline|;
            && r.world == Some(updated)
            && |r.messages| == m + 2 && |r.events| == e + |log| && |r.timeline| == l + 2 + |log|
            && t.messages <= r.messages && t.events <= r.events && t.timeline <= r.timeline
            && r.messages[m] == user
            && r.messages[m + 1] == Message(
                                      assistant.id, assistant.sessionId, assistant.role, assistant.speakerId,
                                      assistant.content, if storeRaw then assistant.rawProviderOutput else None)
            && r.timeline[l] == TimelineEntry("user_message", user.content, Some(user.id), None, None)
            && r.timeline[l + 1] ==
               TimelineEntry("assistant_message", assistant.content, Some(assistant.id), None, Some(updated.version))
            && (forall i | 0 <= i < |log| :: r.events[e + i] == EventRecord(ids[i], id, "world_event", log[i]))
            && (forall i | 0 <= i < |log| ::
                  r.timeline[l + 2 + i] ==
                  TimelineEntry("world_event", log[i], None, Some(ids[i]), Some(updated.version)))
  {
  }

  datatype StoreError = NotFound | StatementFailed

  function NotSystem(): Message -> bool { (m: Message) => !m.role.System? }

  function Reverse<T>(xs: seq<T>): (r: seq<T>)
    ensures |r| == |xs| && forall k | 0 <= k < |xs| :: r[k] == xs[|xs| - 1 - k]
  {
    if |xs| == 0 then [] else [Last(xs)] + Reverse(Init(xs))
  }

  function TakeSix<T>(xs: seq<T>): seq<T> {
    if |xs| <= 6 then xs else xs[..6]
  }

  /** In memory: `rev`, `filter`, `take(6)`, `rev`. */
  function RecentMessages(messages: seq<Message>): seq<Message> {
    Reverse(TakeSix(Filter(Reverse(messages), NotSystem())))
  }

  /** In Postgres mode the filter comes first: `filter`, `rev`, `take(6)`, `rev`. */
  function RecentRows(messages: seq<Message>): seq<Message> {
    Reverse(TakeSix(Reverse(Filter(messages, NotSystem()))))
  }

  lemma {:induction false} FilterPushFront<T>(x: T, xs: seq<T>, keep: T -> bool)
    ensures Filter([x] + xs, keep) == (if keep(x) then [x] else []) + Filter(xs, keep)
    decreases |xs|
  {
    if |xs| == 0 {
      assert [x] + xs == [x] && Init([x]) == [];
    } else {
      FilterPushFront(x, Init(xs), keep);
      var first, last := if keep(x) then [x] else [], if keep(Last(xs)) then [Last(xs)] else [];
      assert Init([x] + xs) == [x] + Init(xs) && Last([x] + xs) == Last(xs);
      ConcatAssociates(first, Filter(Init(xs), keep), last);
    }
  }

  lemma {:induction false} FilterReversed<T>(xs: seq<T>, keep: T -> bool)
    ensures Filter(Reverse(xs), keep) == Reverse(Filter(xs, keep))
    decreases |xs|
  {
    if |xs| > 0 {
      FilterReversed(Init(xs), keep);
      FilterPushFront(Last(xs), Reverse(Init(xs)), keep);
      var kept := Filter(Init(xs), keep);
      if keep(Last(xs)) {
        assert Init(kept + [Last(xs)]) == kept;
      } else {
        assert kept + [] == kept;
      }
    }
  }

  lemma LastSixReversed<T>(xs: seq<T>)
    ensures Reverse(TakeSix(Reverse(xs))) == if |xs| <= 6 then xs else xs[|xs| - 6..]
  {
    hide Reverse;
    var last := if |xs| <= 6 then xs else xs[|xs| - 6..];
    var r := Reverse(TakeSix(Reverse(xs)));
    assert |r| == |last|;
    forall k | 0 <= k < |r| ensures r[k] == last[k] {
    }
  }

  /** Both stores load the same messages: the last six that are not system messages, oldest first. */
  lemma RecentMessagesAreTheLast(messages: seq<Message>)
    ensures var spoken := Filter(messages, NotSystem());
            var recent := if |spoken| <= 6 then spoken else spoken[|spoken| - 6..];
            && RecentMessages(messages) == recent && RecentRows(messages) == recent
            && forall m :: m in spoken <==> m in messages && m.role != System
  {
    assert forall m :: m in Filter(messages, NotSystem()) <==> m in messages && m.role != System;
    hide Reverse, TakeSix, Filter, NotSystem;
    FilterReversed(messages, NotSystem());
    LastSixReversed(Filter(messages, NotSystem()));
  }

  datatype LoadedTurn = LoadedTurn(scenario: Scenario, world: WorldState, recent: seq<Message>)

  lemma PushNext<T>(before: seq<T>, all: seq<T>, i: nat)
    requires i < |all|
    ensures (before + all[..i]) + [all[i]] == before + all[..i + 1]
  {
  }

  class InMemoryApplicationStore {
    var scenarios: map<ScenarioId, Scenario>
    var sessions: map<SessionId, ScenarioId>
    var worldStates: map<SessionId, WorldState>
    var messages: map<SessionId, seq<Message>>
    var events: map<SessionId, seq<EventRecord>>
    var timelineEntries: map<SessionId, seq<TimelineEntry>>
    const storeRawProviderOutput: bool

    constructor (storeRaw: bool)
      ensures scenarios == map[] && sessions == map[] && storeRawProviderOutput == storeRaw
      ensures forall id :: TablesOf(id) == EMPTY_TABLES
    {
      scenarios, sessions, worldStates := map[], map[], map[];
      messages, events, timelineEntries := map[], map[], map[];
      storeRawProviderOutput := storeRaw;
    }

    ghost function EventsOf(id: SessionId): seq<EventRecord>
      reads this`events
    {
      if id in events then events[id] else []
    }

    ghost function TimelineOf(id: SessionId): seq<TimelineEntry>
      reads this`timelineEntries
    {
      if id in timelineEntries then timelineEntries[id] else []
    }

    ghost function TablesOf(id: SessionId): Tables
      reads this
    {
      Tables(
        if id in worldStates then Some(worldStates[id]) else None,
        if id in messages then messages[id] else [],
        EventsOf(id),
        TimelineOf(id))
    }

    ghost function Scenario(id: SessionId): Option<Scenario>
      reads this
    {
      if id in sessions && sessions[id] in scenarios then Some(scenarios[sessions[id]]) else None
    }

    /** `messages.entry(id).or_default().extend(..)` */
    method AppendMessages(id: SessionId, more: seq<Message>)
      modifies this`messages
      ensures messages == old(messages)[id := (if id in old(messages) then old(messages)[id] else []) + more]
    {
      var before := if id in messages then messages[id] else [];
      messages := messages[id := before + more];
    }

    method AppendTimeline(id: SessionId, more: seq<TimelineEntry>)
      modifies this`timelineEntries
      ensures timelineEntries == old(timelineEntries)[id := old(TimelineOf(id)) + more]
    {
      var before := if id in timelineEntries then timelineEntries[id] else [];
      timelineEntries := timelineEntries[id := before + more];
    }

    method AppendEvents(id: SessionId, more: seq<EventRecord>)
      modifies this`events
      ensures events == old(events)[id := old(EventsOf(id)) + more]
    {
      var before := if id in events then events[id] else [];
      events := events[id := before + more];
    }

    /** One record and one timeline entry for each logged event of the turn. */
    method AppendWorldEvents(id: SessionId, descriptions: seq<string>, eventIds: seq<Uuid>, version: nat)
      requires |eventIds| == |descriptions|
      modifies this`events, this`timelineEntries
      ensures EventsOf(id) == old(EventsOf(id)) + WorldEvents(id, eventIds, descriptions)
      ensures TimelineOf(id) ==
              old(TimelineOf(id)) + EventEntries(WorldEvents(id, eventIds, descriptions), version)
      ensures forall other | other != id :: EventsOf(other) == old(EventsOf(other))
      ensures forall other | other != id :: TimelineOf(other) == old(TimelineOf(other))
    {
      ghost var all := WorldEvents(id, eventIds, descriptions);
      ghost var entries := EventEntries(all, version);
      for i := 0 to |descriptions|
        invariant EventsOf(id) == old(EventsOf(id)) + all[..i]
        invariant TimelineOf(id) == old(TimelineOf(id)) + entries[..i]
        invariant forall other | other != id :: EventsOf(other) == old(EventsOf(other))
        invariant forall other | other != id :: TimelineOf(other) == old(TimelineOf(other))
      {
        var record := EventRecord(eventIds[i], id, WORLD_EVENT, descriptions[i]);
        AppendEvents(id, [record]);
        AppendTimeline(id, [EventEntry(record, Some(version))]);
        PushNext(old(EventsOf(id)), all, i);
        PushNext(old(TimelineOf(id)), entries, i);
      }
      assert all[..|descriptions|] == all && entries[..|descriptions|] == entries;
    }

    method InsertScenario(scenario: Scenario)
      modifies this`scenarios
      ensures scenarios == old(scenarios)[scenario.id := scenario]
    {
      scenarios := scenarios[scenario.id := scenario];
    }

    /** A session starts at its scenario's initial state, with one system message. */
    method InsertSession(scenarioId: ScenarioId, id: SessionId, introId: MessageId, intro: string)
      returns (created: bool)
      modifies this
      ensures created <==> scenarioId in old(scenarios)
      ensures created ==>
                && sessions == old(sessions)[id := scenarioId] && scenarios == old(scenarios)
                && var t := old(TablesOf(id));
                   TablesOf(id) ==
                   Tables(
                     Some(InitialWorldState(id, scenarios[scenarioId])),
                     t.messages + [Message(introId, id, System, None, intro, None)],
                     t.events,
                     t.timeline + [TimelineEntry("system_message", intro, Some(introId), None, None)])
      ensures forall other | other != id || !created :: TablesOf(other) == old(TablesOf(other))
      ensures !created ==> sessions == old(sessions) && scenarios == old(scenarios)
    {
      if scenarioId !in scenarios {
        return false;
      }
      var world := InitialWorldState(id, scenarios[scenarioId]);
      var message := IntroMessage(introId, id, intro);
      sessions := sessions[id := scenarioId];
      worldStates := worldStates[id := world];
      AppendMessages(id, [message]);
      AppendTimeline(id, [IntroEntry(message)]);
      created := true;
    }

    method LoadTurnState(id: SessionId) returns (r: Result<LoadedTurn, StoreError>)
      ensures r.Success? <==> Scenario(id).Some? && TablesOf(id).world.Some?
      ensures r.Success? ==>
                var t := TablesOf(id);
                r.value == LoadedTurn(Scenario(id).value, t.world.value, RecentMessages(t.messages))
    {
      if id !in sessions || sessions[id] !in scenarios || id !in worldStates {
        return Failure(NotFound);
      }
      var all := if id in messages then messages[id] else [];
      r := Success(LoadedTurn(scenarios[sessions[id]], worldStates[id], RecentMessages(all)));
    }

    /** Overwrites the stored state with whatever state it is given. */
    method PersistSuccessfulTurn(
      user: Message, assistant: Message, descriptions: seq<string>, eventIds: seq<Uuid>, updated: WorldState)
      requires |eventIds| == |descriptions|
      modifies this
      ensures scenarios == old(scenarios) && sessions == old(sessions)
      ensures TablesOf(updated.sessionId) ==
              WithTurn(
                old(TablesOf(updated.sessionId)), user, Kept(assistant, storeRawProviderOutput), updated,
                WorldEvents(updated.sessionId, eventIds, descriptions))
      ensures forall other | other != updated.sessionId :: TablesOf(other) == old(TablesOf(other))
    {
      var id := updated.sessionId;
      var kept := assistant;
      if !storeRawProviderOutput {
        kept := kept.(rawProviderOutput := None);
      }
      AppendMessages(id, [user, kept]);
      AppendTimeline(id, [UserEntry(user), AssistantEntry(kept, updated.version)]);
      worldStates := worldStates[id := updated];
      AppendWorldEvents(id, descriptions, eventIds, updated.version);
      forall other | other != id
        ensures TablesOf(other) == old(TablesOf(other))
      {
      }
    }

    /** Pipeline and error events: even a session that does not exist gets its event list. */
    method PersistEvent(id: SessionId, eventId: Uuid, kind: EventKind, description: string)
      modifies this
      ensures scenarios == old(scenarios) && sessions == old(sessions)
      ensures TablesOf(id) == WithEvent(old(TablesOf(id)), EventRecord(eventId, id, EventName(kind), description))
      ensures var t := old(TablesOf(id));
              TablesOf(id) ==
              Tables(
                t.world, t.messages, t.events + [EventRecord(eventId, id, EventName(kind), description)],
                t.timeline + [TimelineEntry(EventName(kind), description, None, Some(eventId), None)])
      ensures forall other | other != id :: TablesOf(other) == old(TablesOf(other))
    {
      var record := EventRecord(eventId, id, EventName(kind), description);
      AppendEvents(id, [record]);
      AppendTimeline(id, [EventEntry(record, None)]);
    }
  }

  /** The set of sessions with a live guard. */
  class InMemorySessionTurnLock {
    var lockedSessions: set<SessionId>

    constructor ()
      ensures lockedSessions == {}
    {
      lockedSessions := {};
    }

    /** `insert` reports whether the session was new; only then is a guard handed out. */
    method Acquire(id: SessionId) returns (granted: bool)
      modifies this
      ensures granted <==> id !in old(lockedSessions)
      ensures lockedSessions == old(lockedSessions) + {id}
    {
      granted := id !in lockedSessions;
      lockedSessions := lockedSessions + {id};
    }

    /** Dropping the guard. */
    method Release(id: SessionId)
      modifies this
      ensures lockedSessions == old(lockedSessions) - {id}
    {
      lockedSessions := lockedSessions - {id};
    }
  }
}
