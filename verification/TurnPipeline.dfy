/**
 `DefaultTurnPipeline::process_turn` over the in-memory store and lock: the order of steps in one turn,
 and what each way of ending it leaves behind. What the provider says is given as `Replies`; decoding
 its JSON is the uninterpreted `Parser`. Interleaved requests are the subject of `MemoryProtocol`.
 */
module TurnPipeline {
  import opened Wrappers
  import opened Sequences
  import opened Domain
  import opened DeltaValidation
  import opened Reduction
  import opened Projection
  import opened Records
  import opened MemoryStore
  import ReasoningStripper

  datatype PipelineError =
    AlreadyInProgress | SessionNotFound | ProviderFailed | ParseFailed | Rejected(error: DeltaError)

  datatype Reply = Reply(text: string, raw: string)

  /** What each provider call answers, should it be made; `None` is a provider error. */
  datatype Replies = Replies(visible: Option<Reply>, delta: Option<Reply>, repair: Option<Reply>)

  datatype Parser = Parser(unquote: string -> string, delta: string -> Option<WorldStateDelta>)

  /** The stages of the pipeline that only compute. */
  datatype Stages = Stages(
    validate: (Scenario, WorldState, WorldStateDelta) -> Check,
    applied: (WorldState, WorldStateDelta) -> WorldState,
    project: (Scenario, WorldState, bool) -> FrontendVisibleState,
    strip: string -> string)

  function Validator(lower: string -> string): (Scenario, WorldState, WorldStateDelta) -> Check {
    (sc: Scenario, s: WorldState, d: WorldStateDelta) => Validate(lower, sc, s, d)
  }

  /** The stages `with_lock` puts together. */
  function BasicStages(lower: string -> string): Stages {
    Stages(Validator(lower), Applied, Project, ReasoningStripper.Strip)
  }

  ghost predicate StaysInSession(stages: Stages, s: WorldState, d: WorldStateDelta) {
    stages.applied(s, d).sessionId == s.sessionId
  }

  ghost predicate Lawful(stages: Stages) {
    forall s, d :: StaysInSession(stages, s, d)
  }

  lemma BasicStagesAreLawful(lower: string -> string)
    ensures Lawful(BasicStages(lower))
    ensures forall sc, s, d :: BasicStages(lower).validate(sc, s, d) == Validate(lower, sc, s, d)
    ensures forall s, d :: BasicStages(lower).applied(s, d) == Applied(s, d)
    ensures forall sc, s, admin :: BasicStages(lower).project(sc, s, admin) == Project(sc, s, admin)
    ensures forall text :: BasicStages(lower).strip(text) == ReasoningStripper.Strip(text)
  {
    forall s, d ensures StaysInSession(BasicStages(lower), s, d) {
      assert BasicStages(lower).applied(s, d) == Applied(s, d);
    }
  }

  datatype TurnRequest = TurnRequest(sessionId: SessionId, input: string, admin: bool)

  datatype TurnResponse = TurnResponse(
    messageId: MessageId,
    playerResponse: string,
    worldStateVersion: nat,
    visibleState: FrontendVisibleState)

  datatype FinalizedTurn = FinalizedTurn(
    user: Message,
    assistant: Message,
    delta: WorldStateDelta,
    updated: WorldState,
    patch: FrontendVisibleState)

  // ---------- what a turn decides ----------

  /** The extracted delta: a reply that does not parse is repaired once. */
  function ParsedDelta(parser: Parser, replies: Replies): Result<WorldStateDelta, PipelineError>
    requires replies.delta.Some?
  {
    match parser.delta(replies.delta.value.text)
    case Some(d) => Success(d)
    case None =>
      if replies.repair.None? then Failure(ProviderFailed)
      else
        match parser.delta(replies.repair.value.text)
        case Some(d) => Success(d)
        case None => Failure(ParseFailed)
  }

  /** The delta that extraction and validation let through. */
  function FinalDelta(stages: Stages, parser: Parser, loaded: LoadedTurn, replies: Replies)
    : Result<WorldStateDelta, PipelineError>
    requires replies.delta.Some?
  {
    match ParsedDelta(parser, replies)
    case Failure(e) => Failure(e)
    case Success(d) =>
      match stages.validate(loaded.scenario, loaded.world, d)
      case Fail(e) => Failure(Rejected(e))
      case Pass => Success(d)
  }

  /** The delta a turn commits, or why it commits none. */
  function Decision(stages: Stages, parser: Parser, loaded: Result<LoadedTurn, StoreError>, replies: Replies)
    : Result<WorldStateDelta, PipelineError>
  {
    if loaded.Failure? then Failure(SessionNotFound)
    else if replies.visible.None? || replies.delta.None? then Failure(ProviderFailed)
    else FinalDelta(stages, parser, loaded.value, replies)
  }

  /** The pipeline events of a turn, oldest innermost. */
  datatype Trail = Blank | Then(earlier: Trail, kind: EventKind)

  const STARTED := Then(Blank, TurnStarted)
  const LOCKED := Then(STARTED, TurnLockAcquired)
  const PREPARED := Then(LOCKED, ContextBuilt)
  const ASKED_NARRATION := Then(PREPARED, ProviderCalled)
  const NARRATED := Then(ASKED_NARRATION, ProviderResponded)
  const ASKED_DELTA := Then(NARRATED, ProviderCalled)
  const ANSWERED := Then(ASKED_DELTA, ProviderResponded)
  const REDUCED := Then(ANSWERED, DeltaApplied)
  const PROJECTED := Then(REDUCED, FrontendStateProjected)
  const FINISHED := Then(Blank, TurnFinished)
  const CLOSED := Then(FINISHED, TurnLockReleasing)

  /** A second answer that does not parse leaves an error event. */
  function WithRepairFailure(trail: Trail, failed: bool): Trail {
    if failed then Then(trail, TurnError) else trail
  }

  /** The events a turn that got the lock has recorded when it commits or gives up. */
  function Milestones(stages: Stages, parser: Parser, loaded: Result<LoadedTurn, StoreError>, replies: Replies)
    : Trail
  {
    if loaded.Failure? then LOCKED
    else if replies.visible.None? then ASKED_NARRATION
    else if replies.delta.None? then ASKED_DELTA
    else
      match FinalDelta(stages, parser, loaded.value, replies)
      case Success(_) => PROJECTED
      case Failure(e) => WithRepairFailure(ANSWERED, e == ParseFailed)
  }

  // ---------- what a turn records ----------

  /** The tables as they were before their last recorded event. */
  function BeforeLastEvent(t: Tables): Tables {
    if |t.events| == 0 || |t.timeline| == 0 then t
    else t.(events := Init(t.events), timeline := Init(t.timeline))
  }

  /** `after` is `before` with one event of each kind of the trail recorded, in that order, and nothing else. */
  ghost predicate OnlyRecorded(before: Tables, after: Tables, trail: Trail)
    decreases trail
  {
    match trail
    case Blank => after == before
    case Then(earlier, kind) =>
      && |after.events| > 0
      && Last(after.events).eventType == EventName(kind)
      && after == WithEvent(BeforeLastEvent(after), Last(after.events))
      && OnlyRecorded(before, BeforeLastEvent(after), earlier)
  }

  lemma NothingRecorded(t: Tables)
    ensures OnlyRecorded(t, t, Blank)
  {
  }

  lemma RecordOneMore(before: Tables, after: Tables, trail: Trail, kind: EventKind, e: EventRecord)
    requires OnlyRecorded(before, after, trail) && e.eventType == EventName(kind)
    ensures OnlyRecorded(before, WithEvent(after, e), Then(trail, kind))
  {
    assert BeforeLastEvent(WithEvent(after, e)) == after by {
      assert Init(after.events + [e]) == after.events;
      assert Init(after.timeline + [EventEntry(e, None)]) == after.timeline;
    }
  }

  /** Recording leaves state and messages alone, and tells nothing about the world. */
  lemma {:induction false} RecordingTellsNothing(before: Tables, after: Tables, trail: Trail)
    requires OnlyRecorded(before, after, trail)
    ensures after.world == before.world && after.messages == before.messages
    ensures FilterMap(after.events, WorldEventText()) == FilterMap(before.events, WorldEventText())
    decreases trail
  {
    match trail {
      case Blank =>
      case Then(earlier, kind) =>
        var prior := BeforeLastEvent(after);
        RecordingTellsNothing(before, prior, earlier);
        NoEventIsAWorldEvent(kind);
        UnseenPush(prior.events, Last(after.events), WorldEventText());
    }
  }

  /** The turn that was written, the tables it found, and the identifiers of its events. */
  datatype CommitPoint = CommitPoint(turn: FinalizedTurn, found: Tables, eventIds: seq<Uuid>)

  /** One turn committed between two stretches of recorded events. */
  ghost predicate TurnCommitted(before: Tables, c: CommitPoint, after: Tables, storeRaw: bool) {
    var CommitPoint(turn, found, eventIds) := c;
    && OnlyRecorded(before, found, PROJECTED)
    && |eventIds| == |turn.delta.eventLogEntries|
    && OnlyRecorded(
         WithTurn(
           found, turn.user, Kept(turn.assistant, storeRaw), turn.updated,
           WorldEvents(turn.updated.sessionId, eventIds, turn.delta.eventLogEntries)),
         after, CLOSED)
  }

  /** The turn is the delta's effect on what was loaded, seen by the viewer, with its two messages. */
  predicate Finalizes(
    stages: Stages, request: TurnRequest, loaded: LoadedTurn, response: string, turn: FinalizedTurn)
  {
    && turn.updated == stages.applied(loaded.world, turn.delta)
    && turn.patch == stages.project(loaded.scenario, turn.updated, request.admin)
    && turn.user == Message(turn.user.id, request.sessionId, User, None, request.input, None)
    && turn.assistant ==
       Message(
         turn.assistant.id, request.sessionId, Assistant, loaded.world.activeSpeakerId, response,
         turn.assistant.rawProviderOutput)
    && turn.user.id != turn.assistant.id
  }

  /** The response says what was stored, and shows the narration without its hidden reasoning. */
  predicate Describes(
    stages: Stages, parser: Parser, request: TurnRequest, replies: Replies, loaded: LoadedTurn, turn: FinalizedTurn,
    response: TurnResponse)
  {
    && replies.visible.Some?
    && response.playerResponse == stages.strip(parser.unquote(replies.visible.value.text))
    && Finalizes(stages, request, loaded, response.playerResponse, turn)
    && turn.assistant.rawProviderOutput == Some(replies.visible.value.raw)
    && response ==
       TurnResponse(turn.assistant.id, response.playerResponse, turn.updated.version, turn.patch)
  }

  /** Without a decision nothing is written but events; with one, exactly the decided turn is committed. */
  ghost predicate TurnOutcome(
    stages: Stages, parser: Parser, request: TurnRequest, replies: Replies, loaded: Result<LoadedTurn, StoreError>,
    before: Tables, after: Tables, storeRaw: bool, r: Result<TurnResponse, PipelineError>, commit: Option<CommitPoint>)
  {
    match Decision(stages, parser, loaded, replies)
    case Failure(e) =>
      r == Failure(e) && OnlyRecorded(before, after, Milestones(stages, parser, loaded, replies))
    case Success(d) =>
      && r.Success? && commit.Some? && commit.value.turn.delta == d
      && Describes(stages, parser, request, replies, loaded.value, commit.value.turn, r.value)
      && TurnCommitted(before, commit.value, after, storeRaw)
  }

  // ---------- the outcome in the stored rows ----------

  function TypeOf(e: EventRecord): string { e.eventType }

  function TrailNames(trail: Trail): seq<string> {
    match trail
    case Blank => []
    case Then(earlier, kind) => TrailNames(earlier) + [EventName(kind)]
  }

  /** The types of the events a trail leaves, in order; messages and state stay. */
  lemma {:induction false} TrailLeaves(before: Tables, after: Tables, trail: Trail)
    requires OnlyRecorded(before, after, trail)
    ensures Map(after.events, TypeOf) == Map(before.events, TypeOf) + TrailNames(trail)
    ensures after.messages == before.messages && after.world == before.world
    decreases trail
  {
    match trail {
      case Blank => assert Map(before.events, TypeOf) + [] == Map(before.events, TypeOf);
      case Then(earlier, kind) =>
        hide WithEvent, EventName;
        var prior := BeforeLastEvent(after);
        TrailLeaves(before, prior, earlier);
        LastEventOf(after);
        assert Map(after.events, TypeOf) == Map(prior.events, TypeOf) + [EventName(kind)];
        ConcatAssociates(Map(before.events, TypeOf), TrailNames(earlier), [EventName(kind)]);
    }
  }

  lemma LastEventOf(after: Tables)
    requires |after.events| > 0 && after == WithEvent(BeforeLastEvent(after), Last(after.events))
    ensures after.events == BeforeLastEvent(after).events + [Last(after.events)]
    ensures after.messages == BeforeLastEvent(after).messages && after.world == BeforeLastEvent(after).world
  {
  }

  lemma NamesOfATurn()
    ensures TrailNames(PROJECTED) ==
            ["turn_started", "turn_lock_acquired", "context_built", "provider_called", "provider_responded",
             "provider_called", "provider_responded", "delta_applied", "frontend_state_projected"]
    ensures TrailNames(CLOSED) == ["turn_finished", "turn_lock_releasing"]
    ensures TrailNames(LOCKED) == ["turn_started", "turn_lock_acquired"]
    ensures TrailNames(ASKED_NARRATION) ==
            ["turn_started", "turn_lock_acquired", "context_built", "provider_called"]
    ensures TrailNames(ASKED_DELTA) ==
            ["turn_started", "turn_lock_acquired", "context_built", "provider_called", "provider_responded",
             "provider_called"]
    ensures TrailNames(ANSWERED) ==
            ["turn_started", "turn_lock_acquired", "context_built", "provider_called", "provider_responded",
             "provider_called", "provider_responded"]
    ensures TrailNames(Then(ANSWERED, TurnError)) == TrailNames(ANSWERED) + ["turn_error"]
  {
    assert TrailNames(STARTED) == ["turn_started"];
    assert TrailNames(LOCKED) == TrailNames(STARTED) + ["turn_lock_acquired"];
    assert TrailNames(PREPARED) == TrailNames(LOCKED) + ["context_built"];
    assert TrailNames(ASKED_NARRATION) == TrailNames(PREPARED) + ["provider_called"];
    assert TrailNames(NARRATED) == TrailNames(ASKED_NARRATION) + ["provider_responded"];
    assert TrailNames(ASKED_DELTA) == TrailNames(NARRATED) + ["provider_called"];
    assert TrailNames(ANSWERED) == TrailNames(ASKED_DELTA) + ["provider_responded"];
    assert TrailNames(REDUCED) == TrailNames(ANSWERED) + ["delta_applied"];
    assert TrailNames(PROJECTED) == TrailNames(REDUCED) + ["frontend_state_projected"];
    assert TrailNames(FINISHED) == ["turn_finished"];
    assert TrailNames(CLOSED) == TrailNames(FINISHED) + ["turn_lock_releasing"];
  }

  /** The two messages of a turn: what the player wrote, and the narration under the speaker before the turn. */
  predicate TurnMessages(
    stages: Stages, parser: Parser, request: TurnRequest, reply: Reply, world: WorldState, storeRaw: bool,
    user: Message, assistant: Message)
  {
    && user == Message(user.id, request.sessionId, User, None, request.input, None)
    && assistant == Message(
                      assistant.id, request.sessionId, Assistant, world.activeSpeakerId,
                      stages.strip(parser.unquote(reply.text)), if storeRaw then Some(reply.raw) else None)
    && user.id != assistant.id
  }

  /** A successful turn in the rows it leaves: the new state, two messages, and the events in order. */
  lemma SuccessfulTurnReads(
    stages: Stages, parser: Parser, request: TurnRequest, replies: Replies, loaded: LoadedTurn,
    before: Tables, after: Tables, storeRaw: bool, r: TurnResponse, commit: CommitPoint)
    requires Lawful(stages) && loaded.world.sessionId == request.sessionId
    requires Describes(stages, parser, request, replies, loaded, commit.turn, r)
    requires TurnCommitted(before, commit, after, storeRaw)
    ensures after.world == Some(stages.applied(loaded.world, commit.turn.delta))
    ensures var n := |before.messages|;
            && |after.messages| == n + 2 && before.messages <= after.messages
            && TurnMessages(
                 stages, parser, request, replies.visible.value, loaded.world, storeRaw,
                 after.messages[n], after.messages[n + 1])
            && r.messageId == after.messages[n + 1].id && r.playerResponse == after.messages[n + 1].content
    ensures Map(after.events, TypeOf) ==
            Map(before.events, TypeOf) +
            ["turn_started", "turn_lock_acquired", "context_built", "provider_called", "provider_responded",
             "provider_called", "provider_responded", "delta_applied", "frontend_state_projected"] +
            seq(|commit.turn.delta.eventLogEntries|, i => "world_event") + ["turn_finished", "turn_lock_releasing"]
  {
    var CommitPoint(turn, found, ids) := commit;
    var log := turn.delta.eventLogEntries;
    var stored := WithTurn(
      found, turn.user, Kept(turn.assistant, storeRaw), turn.updated, WorldEvents(turn.updated.sessionId, ids, log));
    assert StaysInSession(stages, loaded.world, turn.delta);
    TrailLeaves(before, found, PROJECTED);
    StoredTurn(found, turn.user, turn.assistant, turn.updated, ids, log, storeRaw);
    TrailLeaves(stored, after, CLOSED);
    NamesOfATurn();
    hide OnlyRecorded, WithTurn, Kept, WorldEvents, TrailNames, PROJECTED, CLOSED;
    assert Map(stored.events, TypeOf) == Map(found.events, TypeOf) + seq(|log|, i => "world_event");
  }

  /** A delta is decided on exactly when it was read from the answer, or else from the repair, and is valid. */
  lemma DecisionIff(
    stages: Stages, parser: Parser, loaded: Result<LoadedTurn, StoreError>, replies: Replies, d: WorldStateDelta)
    ensures Decision(stages, parser, loaded, replies) == Success(d) <==>
            && loaded.Success? && replies.visible.Some? && replies.delta.Some?
            && (|| parser.delta(replies.delta.value.text) == Some(d)
                || (&& parser.delta(replies.delta.value.text) == None
                    && replies.repair.Some? && parser.delta(replies.repair.value.text) == Some(d)))
            && stages.validate(loaded.value.scenario, loaded.value.world, d) == Pass
  {
  }

  /** A failed turn in the rows it leaves: state and messages as they were, and the events up to the failure. */
  lemma FailedTurnReads(
    stages: Stages, parser: Parser, loaded: Result<LoadedTurn, StoreError>, replies: Replies, before: Tables,
    after: Tables, e: PipelineError)
    requires Decision(stages, parser, loaded, replies) == Failure(e)
    requires OnlyRecorded(before, after, Milestones(stages, parser, loaded, replies))
    ensures after.world == before.world && after.messages == before.messages
    ensures var started := ["turn_started", "turn_lock_acquired"];
            var asked := started + ["context_built", "provider_called"];
            var askedAgain := asked + ["provider_responded", "provider_called"];
            Map(after.events, TypeOf) ==
            Map(before.events, TypeOf) +
            if loaded.Failure? then started
            else if replies.visible.None? then asked
            else if replies.delta.None? then askedAgain
            else askedAgain + ["provider_responded"] + if e == ParseFailed then ["turn_error"] else []
    ensures e == SessionNotFound <==> loaded.Failure?
    ensures e == ParseFailed ==> replies.repair.Some? && parser.delta(replies.repair.value.text) == None
    ensures e != AlreadyInProgress
  {
    hide OnlyRecorded, TrailNames, EventName;
    TrailLeaves(before, after, Milestones(stages, parser, loaded, replies));
    NamesOfATurn();
  }

  function WithRaw(turn: FinalizedTurn, raw: string): FinalizedTurn {
    turn.(assistant := turn.assistant.(rawProviderOutput := Some(raw)))
  }

  lemma RawOutputIsBeside(
    stages: Stages, request: TurnRequest, loaded: LoadedTurn, response: string, turn: FinalizedTurn, raw: string)
    requires Lawful(stages) && Finalizes(stages, request, loaded, response, turn)
    ensures Finalizes(stages, request, loaded, response, WithRaw(turn, raw))
    ensures WithRaw(turn, raw).updated.sessionId == loaded.world.sessionId
  {
    assert StaysInSession(stages, loaded.world, turn.delta);
  }

  // ---------- the methods ----------

  /** Stands for `Uuid::new_v4`: no identifier is handed out twice. */
  class UuidSource {
    var next: Uuid

    constructor ()
      ensures next == 0
    {
      next := 0;
    }

    method Fresh() returns (id: Uuid)
      modifies this
      ensures id == old(next) && next == id + 1
    {
      id := next;
      next := next + 1;
    }

    method FreshMany(n: nat) returns (ids: seq<Uuid>)
      modifies this
      ensures |ids| == n && next == old(next) + n
      ensures forall i | 0 <= i < n :: ids[i] == old(next) + i
    {
      var first := next;
      ids := seq(n, i => first + i);
      next := next + n;
    }
  }

  class DefaultTurnPipeline {
    const stages: Stages
    const parser: Parser
    const store: InMemoryApplicationStore
    const turnLock: InMemorySessionTurnLock
    const uuids: UuidSource

    constructor (
      lower: string -> string, parser: Parser, store: InMemoryApplicationStore, turnLock: InMemorySessionTurnLock,
      uuids: UuidSource)
      ensures this.stages == BasicStages(lower) && Lawful(this.stages) && this.parser == parser
      ensures this.store == store && this.turnLock == turnLock && this.uuids == uuids
    {
      this.stages := BasicStages(lower);
      this.parser, this.store, this.turnLock, this.uuids := parser, store, turnLock, uuids;
      BasicStagesAreLawful(lower);
    }

    twostate predicate OnlySession(id: SessionId)
      reads store
    {
      && store.scenarios == old(store.scenarios) && store.sessions == old(store.sessions)
      && forall other | other != id :: store.TablesOf(other) == old(store.TablesOf(other))
    }

    ghost function Loaded(id: SessionId): Result<LoadedTurn, StoreError>
      reads store
    {
      var t := store.TablesOf(id);
      if store.Scenario(id).Some? && t.world.Some?
      then Success(LoadedTurn(store.Scenario(id).value, t.world.value, RecentMessages(t.messages)))
      else Failure(NotFound)
    }

    method Record(id: SessionId, kind: EventKind, ghost before: Tables, ghost trail: Trail)
      requires OnlyRecorded(before, store.TablesOf(id), trail)
      modifies store, uuids
      ensures OnlyRecorded(before, store.TablesOf(id), Then(trail, kind))
      ensures OnlySession(id) && Loaded(id) == old(Loaded(id))
    {
      hide OnlyRecorded, EventName, RecentMessages;
      var eventId := uuids.Fresh();
      ghost var was := store.TablesOf(id);
      store.PersistEvent(id, eventId, kind, EventName(kind));
      RecordOneMore(before, was, trail, kind, EventRecord(eventId, id, EventName(kind), EventName(kind)));
    }

    /** Validation, reduction and projection over what was loaded; the store is not touched. */
    method FinalizeWithParsedDelta(
      request: TurnRequest, loaded: LoadedTurn, response: string, delta: WorldStateDelta)
      returns (r: Result<FinalizedTurn, PipelineError>)
      modifies uuids
      ensures match stages.validate(loaded.scenario, loaded.world, delta)
              case Fail(e) => r == Failure(Rejected(e))
              case Pass => r.Success? && r.value.delta == delta && Finalizes(stages, request, loaded, response, r.value)
    {
      var check := stages.validate(loaded.scenario, loaded.world, delta);
      if check.Fail? {
        return Failure(Rejected(check.error));
      }
      var updated := stages.applied(loaded.world, delta);
      var patch := stages.project(loaded.scenario, updated, request.admin);
      var userId := uuids.Fresh();
      var assistantId := uuids.Fresh();
      var user := UserMessage(userId, request.sessionId, request.input);
      var assistant :=
        AssistantMessage(assistantId, request.sessionId, loaded.world.activeSpeakerId, response, None);
      r := Success(FinalizedTurn(user, assistant, delta, updated, patch));
    }

    /** A delta that does not parse is repaired once; a second failure leaves an error event. */
    method ParseOrRepair(id: SessionId, replies: Replies, ghost before: Tables, ghost trail: Trail)
      returns (r: Result<WorldStateDelta, PipelineError>)
      requires replies.delta.Some? && OnlyRecorded(before, store.TablesOf(id), trail)
      modifies store, uuids
      ensures r == ParsedDelta(parser, replies)
      ensures OnlyRecorded(before, store.TablesOf(id), WithRepairFailure(trail, r == Failure(ParseFailed)))
      ensures OnlySession(id)
    {
      var parsed := parser.delta(replies.delta.value.text);
      if parsed.Some? {
        return Success(parsed.value);
      }
      if replies.repair.None? {
        return Failure(ProviderFailed);
      }
      var repaired := parser.delta(replies.repair.value.text);
      if repaired.Some? {
        return Success(repaired.value);
      }
      Record(id, TurnError, before, trail);
      r := Failure(ParseFailed);
    }

    /** Parse, then validate, reduce and project. Nothing here writes a turn. */
    method FinalizeTurnDelta(
      request: TurnRequest, loaded: LoadedTurn, response: string, replies: Replies,
      ghost before: Tables, ghost trail: Trail)
      returns (r: Result<FinalizedTurn, PipelineError>)
      requires replies.delta.Some? && OnlyRecorded(before, store.TablesOf(request.sessionId), trail)
      modifies store, uuids
      ensures match FinalDelta(stages, parser, loaded, replies)
              case Failure(e) => r == Failure(e)
              case Success(d) =>
                r.Success? && r.value.delta == d && Finalizes(stages, request, loaded, response, r.value)
      ensures OnlyRecorded(
                before, store.TablesOf(request.sessionId), WithRepairFailure(trail, r == Failure(ParseFailed)))
      ensures OnlySession(request.sessionId)
    {
      var parsed := ParseOrRepair(request.sessionId, replies, before, trail);
      if parsed.Failure? {
        return Failure(parsed.error);
      }
      r := FinalizeWithParsedDelta(request, loaded, response, parsed.value);
    }

    /** Narration first, then the delta; both calls must be answered. */
    method RunTwoCallGeneration(id: SessionId, replies: Replies, ghost before: Tables)
      returns (response: Option<string>)
      requires OnlyRecorded(before, store.TablesOf(id), PREPARED)
      modifies store, uuids
      ensures response.Some? <==> replies.visible.Some? && replies.delta.Some?
      ensures response.Some? ==>
                response.value == stages.strip(parser.unquote(replies.visible.value.text))
      ensures OnlyRecorded(
                before, store.TablesOf(id),
                if replies.visible.None? then ASKED_NARRATION
                else if replies.delta.None? then ASKED_DELTA
                else ANSWERED)
      ensures OnlySession(id)
    {
      hide OnlyRecorded;
      Record(id, ProviderCalled, before, PREPARED);
      if replies.visible.None? {
        return None;
      }
      Record(id, ProviderResponded, before, ASKED_NARRATION);
      var stripped := stages.strip(parser.unquote(replies.visible.value.text));
      Record(id, ProviderCalled, before, NARRATED);
      if replies.delta.None? {
        return None;
      }
      Record(id, ProviderResponded, before, ASKED_DELTA);
      response := Some(stripped);
    }

    /** The one write of a turn, and the two events after it. */
    method Commit(turn: FinalizedTurn, ghost before: Tables) returns (ghost c: CommitPoint)
      requires OnlyRecorded(before, store.TablesOf(turn.updated.sessionId), PROJECTED)
      modifies store, uuids
      ensures OnlySession(turn.updated.sessionId)
      ensures c.turn == turn
      ensures TurnCommitted(before, c, store.TablesOf(turn.updated.sessionId), store.storeRawProviderOutput)
    {
      hide OnlyRecorded;
      var id := turn.updated.sessionId;
      ghost var found := store.TablesOf(id);
      var ids := uuids.FreshMany(|turn.delta.eventLogEntries|);
      store.PersistSuccessfulTurn(turn.user, turn.assistant, turn.delta.eventLogEntries, ids, turn.updated);
      ghost var persisted := store.TablesOf(id);
      NothingRecorded(persisted);
      Record(id, TurnFinished, persisted, Blank);
      Record(id, TurnLockReleasing, persisted, FINISHED);
      c := CommitPoint(turn, found, ids);
    }

    /** From the provider's answers to the commit. */
    method FinishTurn(
      request: TurnRequest, loaded: LoadedTurn, response: string, replies: Replies, ghost before: Tables)
      returns (r: Result<TurnResponse, PipelineError>, ghost commit: Option<CommitPoint>)
      requires replies.visible.Some? && replies.delta.Some?
      requires response == stages.strip(parser.unquote(replies.visible.value.text))
      requires OnlyRecorded(before, store.TablesOf(request.sessionId), ANSWERED)
      requires Lawful(stages) && loaded.world.sessionId == request.sessionId
      modifies store, uuids
      ensures OnlySession(request.sessionId)
      ensures r.Failure? ==>
                && FinalDelta(stages, parser, loaded, replies) == Failure(r.error)
                && OnlyRecorded(
                     before, store.TablesOf(request.sessionId),
                     WithRepairFailure(ANSWERED, r.error == ParseFailed))
      ensures r.Success? ==>
                && commit.Some? && FinalDelta(stages, parser, loaded, replies) == Success(commit.value.turn.delta)
                && Describes(stages, parser, request, replies, loaded, commit.value.turn, r.value)
                && TurnCommitted(
                     before, commit.value, store.TablesOf(request.sessionId), store.storeRawProviderOutput)
    {
      hide OnlyRecorded, TurnCommitted, Finalizes, FinalDelta;
      commit := None;
      var finalized := FinalizeTurnDelta(request, loaded, response, replies, before, ANSWERED);
      if finalized.Failure? {
        r := Failure(finalized.error);
        return;
      }
      var turn := WithRaw(finalized.value, replies.visible.value.raw);
      RawOutputIsBeside(stages, request, loaded, response, finalized.value, replies.visible.value.raw);
      Record(request.sessionId, DeltaApplied, before, ANSWERED);
      Record(request.sessionId, FrontendStateProjected, before, REDUCED);
      ghost var c := Commit(turn, before);
      commit := Some(c);
      r := Success(TurnResponse(turn.assistant.id, response, turn.updated.version, turn.patch));
    }

    /** Everything after the lock is taken. */
    method RunLocked(
      request: TurnRequest, replies: Replies, ghost before: Tables, ghost known: Result<LoadedTurn, StoreError>)
      returns (r: Result<TurnResponse, PipelineError>, ghost commit: Option<CommitPoint>)
      requires OnlyRecorded(before, store.TablesOf(request.sessionId), STARTED)
      requires Lawful(stages)
      requires Loaded(request.sessionId) == known
      requires known.Success? ==> known.value.world.sessionId == request.sessionId
      modifies store, uuids
      ensures OnlySession(request.sessionId)
      ensures TurnOutcome(
                stages, parser, request, replies, known, before,
                store.TablesOf(request.sessionId), store.storeRawProviderOutput, r, commit)
    {
      var id := request.sessionId;
      hide OnlyRecorded, TurnCommitted, Describes, FinalDelta;
      commit := None;
      Record(id, TurnLockAcquired, before, STARTED);
      var loaded := store.LoadTurnState(id);
      if loaded.Failure? {
        r := Failure(SessionNotFound);
        return;
      }
      Record(id, ContextBuilt, before, LOCKED);
      var response := RunTwoCallGeneration(id, replies, before);
      if response.None? {
        r := Failure(ProviderFailed);
        return;
      }
      r, commit := FinishTurn(request, loaded.value, response.value, replies, before);
    }

    /**
     The guard is dropped on every way out, so the lock ends as it began. The stored state must be filed under
     its own session, which `MemoryProtocol` shows of every reachable store.
     */
    method ProcessTurn(request: TurnRequest, replies: Replies)
      returns (r: Result<TurnResponse, PipelineError>, ghost commit: Option<CommitPoint>)
      requires Lawful(stages)
      requires Loaded(request.sessionId).Success? ==>
                 Loaded(request.sessionId).value.world.sessionId == request.sessionId
      modifies store, turnLock, uuids
      ensures turnLock.lockedSessions == old(turnLock.lockedSessions)
      ensures OnlySession(request.sessionId)
      ensures request.sessionId in old(turnLock.lockedSessions) ==>
                && r == Failure(AlreadyInProgress)
                && OnlyRecorded(
                     old(store.TablesOf(request.sessionId)), store.TablesOf(request.sessionId), STARTED)
      ensures request.sessionId !in old(turnLock.lockedSessions) ==>
                TurnOutcome(
                  stages, parser, request, replies, old(Loaded(request.sessionId)),
                  old(store.TablesOf(request.sessionId)), store.TablesOf(request.sessionId),
                  store.storeRawProviderOutput, r, commit)
    {
      var id := request.sessionId;
      commit := None;
      hide TurnOutcome, OnlyRecorded, Decision, Milestones;
      ghost var before, known := store.TablesOf(id), Loaded(id);
      NothingRecorded(before);
      Record(id, TurnStarted, before, Blank);
      var granted := turnLock.Acquire(id);
      if !granted {
        r := Failure(AlreadyInProgress);
        return;
      }
      r, commit := RunLocked(request, replies, before, known);
      ghost var after := store.TablesOf(id);
      turnLock.Release(id);
      assert store.TablesOf(id) == after;
    }
  }
}
