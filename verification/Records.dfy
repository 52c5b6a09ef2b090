/** What a store keeps of a session besides its world state: messages, events and the timeline. */
module Records {
  import opened Wrappers
  import opened Sequences
  import opened Domain

  datatype MessageRole = System | User | Assistant

  datatype Message = Message(
    id: MessageId,
    sessionId: SessionId,
    role: MessageRole,
    speakerId: Option<EntityKey>,
    content: string,
    rawProviderOutput: Option<string>)

  /** The user half of a finished turn, as `finalize_with_parsed_delta` builds it. */
  function UserMessage(id: MessageId, sessionId: SessionId, input: string): Message {
    Message(id, sessionId, User, None, input, None)
  }

  /** The assistant half: spoken by whoever was the active speaker before the turn. */
  function AssistantMessage(
    id: MessageId, sessionId: SessionId, speaker: Option<EntityKey>, response: string, raw: Option<string>): Message
  {
    Message(id, sessionId, Assistant, speaker, response, raw)
  }

  function IntroMessage(id: MessageId, sessionId: SessionId, text: string): Message {
    Message(id, sessionId, System, None, text, None)
  }

  datatype EventRecord = EventRecord(id: Uuid, sessionId: SessionId, eventType: string, description: string)

  const WORLD_EVENT := "world_event"

  /** Events that stores append outside a successful turn. */
  datatype EventKind =
    | TurnStarted
    | TurnLockAcquired
    | ContextBuilt
    | ProviderCalled
    | ProviderResponded
    | DeltaApplied
    | FrontendStateProjected
    | TurnFinished
    | TurnLockReleasing
    | ProviderUsageCaptured
    | StreamIdleTimeout
    | TurnError

  function EventName(kind: EventKind): string {
    match kind
    case TurnStarted => "turn_started"
    case TurnLockAcquired => "turn_lock_acquired"
    case ContextBuilt => "context_built"
    case ProviderCalled => "provider_called"
    case ProviderResponded => "provider_responded"
    case DeltaApplied => "delta_applied"
    case FrontendStateProjected => "frontend_state_projected"
    case TurnFinished => "turn_finished"
    case TurnLockReleasing => "turn_lock_releasing"
    case ProviderUsageCaptured => "provider_usage_captured"
    case StreamIdleTimeout => "provider_stream_idle_timeout"
    case TurnError => "turn_error"
  }

  lemma NoEventIsAWorldEvent(kind: EventKind)
    ensures EventName(kind) != WORLD_EVENT
  {
    assert WORLD_EVENT[0] == 'w';
    assert EventName(kind)[0] != 'w';
  }

  /** The logged description of an event that a turn produced. */
  function WorldEventText(): EventRecord -> Option<string> {
    (e: EventRecord) => if e.eventType == WORLD_EVENT then Some(e.description) else None
  }

  function WorldEvents(sessionId: SessionId, ids: seq<Uuid>, descriptions: seq<string>): (events: seq<EventRecord>)
    requires |ids| == |descriptions|
    ensures |events| == |descriptions|
  {
    seq(|ids|, i requires 0 <= i < |ids| => EventRecord(ids[i], sessionId, WORLD_EVENT, descriptions[i]))
  }

  lemma {:induction false} WorldEventsRead(sessionId: SessionId, ids: seq<Uuid>, descriptions: seq<string>)
    requires |ids| == |descriptions|
    ensures FilterMap(WorldEvents(sessionId, ids, descriptions), WorldEventText()) == descriptions
    decreases |descriptions|
  {
    if |descriptions| > 0 {
      WorldEventsRead(sessionId, Init(ids), Init(descriptions));
      assert Init(WorldEvents(sessionId, ids, descriptions)) ==
             WorldEvents(sessionId, Init(ids), Init(descriptions));
      InitLast(descriptions);
    }
  }

  /** Recording the events of a turn appends exactly its log to what the session's events tell. */
  lemma TurnEventsRead(events: seq<EventRecord>, sessionId: SessionId, ids: seq<Uuid>, descriptions: seq<string>)
    requires |ids| == |descriptions|
    ensures FilterMap(events + WorldEvents(sessionId, ids, descriptions), WorldEventText()) ==
            FilterMap(events, WorldEventText()) + descriptions
  {
    FilterMapAppend(events, WorldEvents(sessionId, ids, descriptions), WorldEventText());
    WorldEventsRead(sessionId, ids, descriptions);
  }

  /** One intro, then user and assistant in turn. */
  ghost predicate Conversation(messages: seq<Message>, turns: nat) {
    && |messages| == 1 + 2 * turns
    && messages[0].role == System
    && forall i | 0 <= i < turns :: messages[2 * i + 1].role == User && messages[2 * i + 2].role == Assistant
  }

  lemma ConversationContinues(messages: seq<Message>, turns: nat, user: Message, assistant: Message)
    requires Conversation(messages, turns) && user.role == User && assistant.role == Assistant
    ensures Conversation(messages + [user, assistant], turns + 1)
  {
  }
}
