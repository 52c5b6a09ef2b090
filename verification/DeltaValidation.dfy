/**
 `BasicDeltaValidator::validate`: a proposed delta is checked, change by change, against the scenario
 and the state before the turn. Loops that return early become `FirstFailure`; the checks within one
 change run in the source's order, so the error is the one the source reports.
 `lower` stands for `str::to_lowercase`.
 */
module DeltaValidation {
  import opened Wrappers
  import opened Sequences
  import opened Text
  import opened Domain
  import ScenarioValidation

  datatype DeltaError =
    | UnknownEntity(entity: string, id: EntityKey)
    | MissingReason
    | MissingField(field: string)
    | SecretLeak(text: string)
    | ClockOutOfRange(clockId: EntityKey, clockValue: int)
    | StandingOutOfRange(factionId: EntityKey, standing: int)
    | PressureOutOfRange(factionId: EntityKey, pressure: int)
    | InvalidStatus
    | MemoryImportanceOutOfRange(importance: int)
    | MissingRevealProof
    | MissingActionStakes
    | MissingActionConsequence
    | UnknownRevealCondition(clueId: EntityKey, conditionId: EntityKey)
    | GoalProgressOutOfRange(progress: int)
    | ResourceOutOfRange(resourceId: EntityKey, current: int, min: int, max: int)
    | MetricOutOfRange(sourceId: EntityKey, targetId: EntityKey, metric: int)
    | InvalidNpcStatusAction(npcId: EntityKey, status: NpcStatus, action: string)

  type Check = Outcome<DeltaError>

  /** Runs a check over a list and stops at the first element that fails it. */
  function FirstFailure<T>(xs: seq<T>, check: T -> Check): (r: Check)
    ensures r.Pass? <==> forall x | x in xs :: check(x).Pass?
    ensures r.Fail? ==> exists i | 0 <= i < |xs| :: check(xs[i]) == r && forall j | 0 <= j < i :: check(xs[j]).Pass?
  {
    if |xs| == 0 then Pass
    else
      assert xs == Init(xs) + [Last(xs)];
      var before := FirstFailure(Init(xs), check);
      assert forall j | 0 <= j < |Init(xs)| :: Init(xs)[j] == xs[j] && Init(xs)[j] in Init(xs);
      if before.Fail? then before else check(Last(xs))
  }

  function RequireKnown(entity: string, id: EntityKey, known: set<EntityKey>): Check {
    Need(id in known, UnknownEntity(entity, id))
  }

  function RequireReason(reason: string): Check {
    Need(!IsBlank(reason), MissingReason)
  }

  function RequireNonEmpty(field: string, value: string): Check {
    Need(!IsBlank(value), MissingField(field))
  }

  predicate InRange(value: int) {
    -100 <= value <= 100
  }

  function CheckImportance(importance: U8): Check {
    Need(importance <= 10, MemoryImportanceOutOfRange(importance))
  }

  function CheckProgress(progress: int): Check {
    Need(0 <= progress <= 100, GoalProgressOutOfRange(progress))
  }

  // ---------- scene, speaker, summary, location ----------

  function CheckHeader(sc: Scenario, d: WorldStateDelta): Check {
    var scene := if d.sceneChange.Some? then RequireReason(d.sceneChange.value.reason) else Pass;
    :- scene;
    :- if d.activeSpeakerChange.Some? then CheckSpeaker(sc, d.activeSpeakerChange.value) else Pass;
    if d.summaryUpdate.Some? then RequireReason(d.summaryUpdate.value.reason) else Pass
  }

  function CheckSpeaker(sc: Scenario, change: ActiveSpeakerChange): Check {
    var reasoned := RequireReason(change.reason);
    :- reasoned;
    if change.speakerId.Some? then RequireKnown("npc", change.speakerId.value, NpcIds(sc)) else Pass
  }

  function CheckLocation(sc: Scenario, d: WorldStateDelta): Check {
    if d.locationChange.None? then Pass
    else
      :- RequireKnown("location", d.locationChange.value.locationId, LocationIds(sc));
      RequireReason(d.locationChange.value.reason)
  }

  // ---------- action resolutions and memories ----------

  predicate HasObservableConsequence(d: WorldStateDelta) {
    || |d.factsToAdd| > 0
    || |d.npcChanges| > 0
    || |d.factionChanges| > 0
    || |d.questChanges| > 0
    || |d.clockChanges| > 0
    || |d.relationshipChanges| > 0
    || |d.inventoryChanges| > 0
    || |d.playerChanges| > 0
    || |d.clueChanges| > 0
    || d.locationChange.Some?
    || |d.eventLogEntries| > 0
  }

  function CheckAction(s: WorldState, d: WorldStateDelta, change: ActionResolutionChange): (r: Check)
    ensures r.Pass? <==>
            && !IsBlank(change.reason) && !IsBlank(change.intent) && !IsBlank(change.consequence)
            && (exists i :: 0 <= i < |change.stakes| && !IsBlank(change.stakes[i]))
            && (forall id | id in change.linkedClockIds :: id in ClockIds(s))
            && HasObservableConsequence(d)
  {
    var reasoned := RequireReason(change.reason);
    :- reasoned;
    :- RequireNonEmpty("action intent", change.intent);
    :- RequireNonEmpty("action consequence", change.consequence);
    :- Need(exists i | 0 <= i < |change.stakes| :: !IsBlank(change.stakes[i]), MissingActionStakes);
    var known := (id: EntityKey) => RequireKnown("clock", id, ClockIds(s));
    var clocks := FirstFailure(change.linkedClockIds, known);
    assert clocks.Pass? <==> forall id | id in change.linkedClockIds :: known(id).Pass?;
    :- clocks;
    Need(HasObservableConsequence(d), MissingActionConsequence)
  }

  function CheckMemory(s: WorldState, change: MemoryChange): Check {
    match change
    case MemoryAdded(_, _, importance, _, reason) =>
      :- RequireReason(reason);
      CheckImportance(importance)
    case ImportanceChanged(memoryId, importance, reason) =>
      :- RequireReason(reason);
      :- CheckImportance(importance);
      Need(Any(s.memories, MemoryIs(memoryId)), UnknownEntity("memory", memoryId))
  }

  // ---------- facts and secrets ----------

  /** A non-blank GM-only text occurs, letter case aside, inside `text`. */
  predicate LeaksInto(lower: string -> string, fact: Fact, text: string) {
    && fact.visibility.GmOnly?
    && !IsBlank(fact.text)
    && Contains(lower(text), lower(fact.text))
  }

  function LeaksIntoText(lower: string -> string, text: string): Fact -> bool {
    (fact: Fact) => LeaksInto(lower, fact, text)
  }

  function LeakedGmOnlyFacts(lower: string -> string, s: WorldState, text: string): (leaked: seq<Fact>)
    ensures forall f :: f in leaked <==> f in s.facts && LeaksInto(lower, f, text)
  {
    Filter(s.facts, LeaksIntoText(lower, text))
  }

  function CheckLeak(fact: FactToAdd, gmFact: Fact): Check {
    Need(
      && gmFact.id in fact.relatedSecretIds
      && fact.revealConditionSatisfied.Some?
      && |gmFact.revealConditions| > 0,
      SecretLeak(fact.text))
  }

  predicate LinksAll(secretIds: seq<EntityKey>, linked: seq<EntityKey>) {
    forall id | id in secretIds :: id in linked
  }

  predicate ClueProves(clue: ClueState, secretIds: seq<EntityKey>, condition: ConditionRef) {
    LinksAll(secretIds, clue.linkedSecretIds) && condition in clue.satisfiedRevealConditions
  }

  predicate ProofInWorld(s: WorldState, secretIds: seq<EntityKey>, condition: ConditionRef) {
    exists clue | clue in s.clues :: clue.visibleToPlayer && ClueProves(clue, secretIds, condition)
  }

  predicate ChangeProves(
    s: WorldState, change: ClueChange, secretIds: seq<EntityKey>, condition: ConditionRef)
  {
    match change
    case Discovered(_, _, linked, satisfied, visible, _) =>
      visible && LinksAll(secretIds, linked) && condition in satisfied
    case ClueVisibilityChanged(clueId, visible, _) =>
      && visible
      && var clue := Find(s.clues, ClueIs(clueId));
      clue.Some? && ClueProves(clue.value, secretIds, condition)
  }

  predicate ProofInDelta(
    s: WorldState, d: WorldStateDelta, secretIds: seq<EntityKey>, condition: ConditionRef)
  {
    exists change | change in d.clueChanges :: ChangeProves(s, change, secretIds, condition)
  }

  function CheckSecretCondition(
    conditions: map<EntityKey, set<EntityKey>>, secretId: EntityKey, condition: ConditionRef): Check
  {
    var known := Need(secretId in conditions, UnknownEntity("secret", secretId));
    :- known;
    Need(condition.id in conditions[secretId], UnknownRevealCondition("secret-reveal-proof", condition.id))
  }

  predicate ConditionOfAll(sc: Scenario, secretIds: seq<EntityKey>, condition: ConditionRef) {
    var conditions := SecretConditions(sc.secrets);
    forall id | id in secretIds :: id in conditions && condition.id in conditions[id]
  }

  /** The condition belongs to every named secret, and a visible clue, old or new, satisfies it for them all. */
  predicate Proven(
    sc: Scenario, s: WorldState, d: WorldStateDelta, secretIds: seq<EntityKey>, condition: ConditionRef)
  {
    && ConditionOfAll(sc, secretIds, condition)
    && (ProofInWorld(s, secretIds, condition) || ProofInDelta(s, d, secretIds, condition))
  }

  function CheckRevealProof(
    sc: Scenario, s: WorldState, d: WorldStateDelta, secretIds: seq<EntityKey>, condition: ConditionRef): (r: Check)
    ensures r.Pass? <==> Proven(sc, s, d, secretIds, condition)
  {
    var conditions := SecretConditions(sc.secrets);
    var known := (id: EntityKey) => CheckSecretCondition(conditions, id, condition);
    var all := FirstFailure(secretIds, known);
    assert all.Pass? <==> forall id | id in secretIds :: known(id).Pass?;
    :- all;
    Need(
      ProofInWorld(s, secretIds, condition) || ProofInDelta(s, d, secretIds, condition),
      MissingRevealProof)
  }

  function CheckFact(
    lower: string -> string, sc: Scenario, s: WorldState, d: WorldStateDelta, fact: FactToAdd): (r: Check)
    ensures r.Pass? <==>
            && !IsBlank(fact.reason)
            && (fact.visibility.PlayerKnown? ==>
                  && (forall gm | gm in s.facts && LeaksInto(lower, gm, fact.text) :: CheckLeak(fact, gm).Pass?)
                  && (|fact.relatedSecretIds| > 0 ==> fact.revealConditionSatisfied.Some?)
                  && (fact.revealConditionSatisfied.Some? ==>
                        Proven(sc, s, d, fact.relatedSecretIds, fact.revealConditionSatisfied.value)))
  {
    var reasoned := RequireReason(fact.reason);
    :- reasoned;
    if !fact.visibility.PlayerKnown? then Pass
    else
      var leak := (gm: Fact) => CheckLeak(fact, gm);
      var leaks := FirstFailure(LeakedGmOnlyFacts(lower, s, fact.text), leak);
      assert leaks.Pass? <==> forall gm | gm in LeakedGmOnlyFacts(lower, s, fact.text) :: leak(gm).Pass?;
      :- leaks;
      :- Need(|fact.relatedSecretIds| == 0 || fact.revealConditionSatisfied.Some?, MissingRevealProof);
      if fact.revealConditionSatisfied.Some?
      then CheckRevealProof(sc, s, d, fact.relatedSecretIds, fact.revealConditionSatisfied.value)
      else Pass
  }

  // ---------- npcs ----------

  function CheckAgency(change: NpcChange, status: NpcStatus): Check {
    match change
    case KnowledgeAdded(id, _, _, _) =>
      Need(!status.Unconscious? && !status.Dead?,
           InvalidNpcStatusAction(id, status, "knowledge or attitude change"))
    case AttitudeChanged(id, _, _) =>
      Need(!status.Unconscious? && !status.Dead?,
           InvalidNpcStatusAction(id, status, "knowledge or attitude change"))
    case NpcLocationChanged(id, _, _) =>
      Need(!status.Dead?, InvalidNpcStatusAction(id, status, "location change"))
    case IntentChanged(id, _, _) =>
      Need(!status.Unconscious? && !status.Dead?, InvalidNpcStatusAction(id, status, "agency change"))
    case OffscreenActionRecorded(id, _, _, _, _) =>
      Need(!status.Unconscious? && !status.Dead?, InvalidNpcStatusAction(id, status, "agency change"))
    case _ => Pass
  }

  function CurrentStatus(sc: Scenario, s: WorldState, id: EntityKey): Option<NpcStatus> {
    match Find(s.npcs, NpcIs(id))
    case Some(npc) => Some(npc.status)
    case None =>
      match Find(sc.npcs, ScenarioNpcIs(id))
      case Some(npc) => Some(npc.initialStatus)
      case None => None
  }

  function CheckStatusChange(sc: Scenario, s: WorldState, id: EntityKey, status: NpcStatus): Check {
    var current := CurrentStatus(sc, s, id);
    :- Need(current.Some?, UnknownEntity("npc", id));
    Need(ScenarioValidation.CheckStatusTransition(current.value, status, false).Pass?, InvalidStatus)
  }

  function CheckNpcContent(lower: string -> string, sc: Scenario, s: WorldState, change: NpcChange): Check {
    match change
    case KnowledgeAdded(_, fact, visibility, _) =>
      Need(!(visibility.PlayerKnown? && |LeakedGmOnlyFacts(lower, s, fact)| > 0), SecretLeak(fact))
    case StatusChanged(id, status, _) => CheckStatusChange(sc, s, id, status)
    case NpcLocationChanged(_, locationId, _) => RequireKnown("location", locationId, LocationIds(sc))
    case IntentChanged(_, intent, _) =>
      if intent.Some? then RequireNonEmpty("npc intent", intent.value) else Pass
    case OffscreenActionRecorded(_, intent, result, _, _) =>
      :- RequireNonEmpty("npc offscreen intent", intent);
      RequireNonEmpty("npc offscreen result", result)
    case _ => Pass
  }

  function CheckNpc(lower: string -> string, sc: Scenario, s: WorldState, change: NpcChange): Check {
    var known := RequireKnown("npc", change.npcId, NpcIds(sc));
    :- known;
    :- RequireReason(change.reason);
    var npc := Find(s.npcs, NpcIs(change.npcId));
    :- if npc.Some? then CheckAgency(change, npc.value.status) else Pass;
    CheckNpcContent(lower, sc, s, change)
  }

  // ---------- factions, quests, clocks ----------

  function StandingOf(s: WorldState, id: EntityKey): int {
    var f := Find(s.factions, FactionIs(id));
    if f.Some? then f.value.standing else 0
  }

  function PressureOf(s: WorldState, id: EntityKey): int {
    var f := Find(s.factions, FactionIs(id));
    if f.Some? then f.value.pressure else 0
  }

  function CheckFaction(sc: Scenario, s: WorldState, change: FactionChange): Check {
    var known := RequireKnown("faction", change.factionId, FactionIds(sc));
    :- known;
    :- RequireReason(change.reason);
    match change
    case StandingChanged(id, delta, _) =>
      var next := StandingOf(s, id) + delta;
      Need(InRange(next), StandingOutOfRange(id, next))
    case PressureChanged(id, delta, _, _) =>
      var next := PressureOf(s, id) + delta;
      Need(InRange(next), PressureOutOfRange(id, next))
    case _ => Pass
  }

  function CheckQuest(sc: Scenario, change: QuestChange): Check {
    var known := RequireKnown("quest", change.questId, QuestIds(sc));
    :- known;
    RequireReason(change.reason)
  }

  function CheckClock(s: WorldState, change: ClockChange): Check {
    var known := RequireKnown("clock", change.clockId, ClockIds(s));
    :- known;
    :- RequireReason(change.reason);
    var clock := Find(s.clocks, ClockIs(change.clockId));
    match change
    case Advanced(id, delta, _) =>
      if clock.None? then Pass
      else
        var next := clock.value.current + delta;
        Need(0 <= next <= clock.value.max, ClockOutOfRange(id, next))
    case SetValue(id, value, _) =>
      if clock.None? then Pass else Need(value <= clock.value.max, ClockOutOfRange(id, value))
    case ClockVisibilityChanged(_, _, _) => Pass
  }

  /** The source's `expect("clock checked")`: after the identifier check the lookup cannot fail. */
  lemma ClockLookupNeverPanics(s: WorldState, id: EntityKey)
    ensures id in ClockIds(s) <==> Find(s.clocks, ClockIs(id)).Some?
  {
    var i := FirstIndex(s.clocks, ClockIs(id));
    if i < |s.clocks| {
      assert s.clocks[i] in s.clocks;
    }
    if id in ClockIds(s) {
      var c :| c in s.clocks && c.id == id;
      var k :| 0 <= k < |s.clocks| && s.clocks[k] == c;
      assert ClockIs(id)(s.clocks[k]);
    }
  }

  // ---------- relationships ----------

  predicate KnownEndpoint(sc: Scenario, id: EntityKey) {
    id == "player" || id in NpcIds(sc) || id in FactionIds(sc)
  }

  function CurrentMetric(s: WorldState, change: RelationshipChange): int {
    match Find(s.relationships, RelationshipIs(change.sourceId, change.targetId))
    case None => 0
    case Some(r) =>
      match change
      case TrustChanged(_, _, _, _) => r.trust
      case SuspicionChanged(_, _, _, _) => r.suspicion
      case LoyaltyChanged(_, _, _, _) => r.loyalty
      case _ => 0
  }

  function CheckRelationship(sc: Scenario, s: WorldState, change: RelationshipChange): Check {
    var reasoned := RequireReason(change.reason);
    :- reasoned;
    :- Need(KnownEndpoint(sc, change.sourceId), UnknownEntity("relationship source", change.sourceId));
    :- Need(KnownEndpoint(sc, change.targetId), UnknownEntity("relationship target", change.targetId));
    if change.TrustChanged? || change.SuspicionChanged? || change.LoyaltyChanged? then
      var next := CurrentMetric(s, change) + change.delta;
      Need(InRange(next), MetricOutOfRange(change.sourceId, change.targetId, next))
    else Pass
  }

  // ---------- inventory, player, clues ----------

  function CheckInventory(s: WorldState, change: InventoryChange): Check {
    var reasoned := RequireReason(change.reason);
    :- reasoned;
    match change
    case ItemAdded(item, _) => Need(!IsBlank(item.id), UnknownEntity("inventory item", item.id))
    case ItemRemoved(id, _) => RequireKnown("inventory item", id, ItemIds(s))
    case ItemUpdated(item, _) => RequireKnown("inventory item", item.id, ItemIds(s))
  }

  function CheckPlayer(s: WorldState, change: PlayerChange): Check {
    var reasoned := RequireReason(change.reason);
    :- reasoned;
    match change
    case TraitAdded(id, name, description, _, _) =>
      :- RequireNonEmpty("player trait id", id);
      :- RequireNonEmpty("player trait label", name);
      RequireNonEmpty("player trait description", description)
    case GoalAdded(id, name, description, progress, _, _) =>
      :- RequireNonEmpty("player goal id", id);
      :- RequireNonEmpty("player goal label", name);
      :- RequireNonEmpty("player goal description", description);
      CheckProgress(progress)
    case GoalProgressed(id, delta, _) =>
      var goal := Find(s.player.goals, GoalIs(id));
      :- Need(goal.Some?, UnknownEntity("player goal", id));
      CheckProgress(goal.value.progress + delta)
    case ConditionAdded(id, name, description, _, _) =>
      :- RequireNonEmpty("player condition id", id);
      :- RequireNonEmpty("player condition label", name);
      RequireNonEmpty("player condition description", description)
    case ConditionCleared(id, _) =>
      Need(Any(s.player.conditions, ConditionIs(id)), UnknownEntity("player condition", id))
    case ResourceChanged(id, delta, _) =>
      var resource := Find(s.player.resources, ResourceIs(id));
      :- Need(resource.Some?, UnknownEntity("player resource", id));
      var next := resource.value.current + delta;
      Need(
        resource.value.min <= next <= resource.value.max,
        ResourceOutOfRange(id, next, resource.value.min, resource.value.max))
    case GmNoteAdded(note, _) => RequireNonEmpty("player gm note", note)
  }

  predicate ConditionOfSome(sc: Scenario, secretIds: seq<EntityKey>, condition: ConditionRef) {
    var conditions := SecretConditions(sc.secrets);
    exists id | id in secretIds :: id in conditions && condition.id in conditions[id]
  }

  /** The links of a clue: known secrets, a condition whenever there is a link, no foreign condition. */
  predicate GoodLinks(sc: Scenario, secretIds: seq<EntityKey>, satisfied: seq<ConditionRef>) {
    && (forall id | id in secretIds :: id in SecretConditions(sc.secrets))
    && (|secretIds| == 0 || |satisfied| > 0)
    && (forall c | c in satisfied :: ConditionOfSome(sc, secretIds, c))
  }

  function CheckClueLinks(
    sc: Scenario, clueId: EntityKey, secretIds: seq<EntityKey>, satisfied: seq<ConditionRef>): (r: Check)
    ensures r.Pass? <==> GoodLinks(sc, secretIds, satisfied)
  {
    var known := (id: EntityKey) => Need(id in SecretConditions(sc.secrets), UnknownEntity("secret", id));
    var secrets := FirstFailure(secretIds, known);
    assert secrets.Pass? <==> forall id | id in secretIds :: known(id).Pass?;
    :- secrets;
    :- Need(|secretIds| == 0 || |satisfied| > 0, MissingRevealProof);
    var belongs :=
      (c: ConditionRef) => Need(ConditionOfSome(sc, secretIds, c), UnknownRevealCondition(clueId, c.id));
    var conditions := FirstFailure(satisfied, belongs);
    assert conditions.Pass? <==> forall c | c in satisfied :: belongs(c).Pass?;
    conditions
  }

  predicate DiscoveredIn(d: WorldStateDelta, clueId: EntityKey) {
    exists change | change in d.clueChanges :: change.Discovered? && change.clueId == clueId
  }

  function CheckClue(sc: Scenario, s: WorldState, d: WorldStateDelta, change: ClueChange): Check {
    var reasoned := RequireReason(change.reason);
    :- reasoned;
    match change
    case Discovered(id, text, linked, satisfied, _, _) =>
      :- RequireNonEmpty("clue id", id);
      :- RequireNonEmpty("clue text", text);
      CheckClueLinks(sc, id, linked, satisfied)
    case ClueVisibilityChanged(id, _, _) =>
      Need(Any(s.clues, ClueIs(id)) || DiscoveredIn(d, id), UnknownEntity("clue", id))
  }

  // ---------- the whole delta ----------

  function CheckCast(lower: string -> string, sc: Scenario, s: WorldState, d: WorldStateDelta): (r: Check)
    ensures r.Pass? <==>
            && (forall c | c in d.actionResolutionChanges :: CheckAction(s, d, c).Pass?)
            && (forall c | c in d.memoryChanges :: CheckMemory(s, c).Pass?)
            && (forall f | f in d.factsToAdd :: CheckFact(lower, sc, s, d, f).Pass?)
            && (forall c | c in d.npcChanges :: CheckNpc(lower, sc, s, c).Pass?)
  {
    var action := (c: ActionResolutionChange) => CheckAction(s, d, c);
    var memory := (c: MemoryChange) => CheckMemory(s, c);
    var fact := (f: FactToAdd) => CheckFact(lower, sc, s, d, f);
    var npc := (c: NpcChange) => CheckNpc(lower, sc, s, c);
    var actions := FirstFailure(d.actionResolutionChanges, action);
    var memories := FirstFailure(d.memoryChanges, memory);
    var facts := FirstFailure(d.factsToAdd, fact);
    var npcs := FirstFailure(d.npcChanges, npc);
    assert actions.Pass? <==> forall c | c in d.actionResolutionChanges :: action(c).Pass?;
    assert memories.Pass? <==> forall c | c in d.memoryChanges :: memory(c).Pass?;
    assert facts.Pass? <==> forall f | f in d.factsToAdd :: fact(f).Pass?;
    assert npcs.Pass? <==> forall c | c in d.npcChanges :: npc(c).Pass?;
    :- actions;
    :- memories;
    :- facts;
    npcs
  }

  function CheckGroups(sc: Scenario, s: WorldState, d: WorldStateDelta): (r: Check)
    ensures r.Pass? <==>
            && (forall c | c in d.factionChanges :: CheckFaction(sc, s, c).Pass?)
            && (forall c | c in d.questChanges :: CheckQuest(sc, c).Pass?)
            && (forall c | c in d.clockChanges :: CheckClock(s, c).Pass?)
            && (forall c | c in d.relationshipChanges :: CheckRelationship(sc, s, c).Pass?)
  {
    var faction := (c: FactionChange) => CheckFaction(sc, s, c);
    var quest := (c: QuestChange) => CheckQuest(sc, c);
    var clock := (c: ClockChange) => CheckClock(s, c);
    var relationship := (c: RelationshipChange) => CheckRelationship(sc, s, c);
    var factions := FirstFailure(d.factionChanges, faction);
    var quests := FirstFailure(d.questChanges, quest);
    var clocks := FirstFailure(d.clockChanges, clock);
    var relationships := FirstFailure(d.relationshipChanges, relationship);
    assert factions.Pass? <==> forall c | c in d.factionChanges :: faction(c).Pass?;
    assert quests.Pass? <==> forall c | c in d.questChanges :: quest(c).Pass?;
    assert clocks.Pass? <==> forall c | c in d.clockChanges :: clock(c).Pass?;
    assert relationships.Pass? <==> forall c | c in d.relationshipChanges :: relationship(c).Pass?;
    :- factions;
    :- quests;
    :- clocks;
    relationships
  }

  function CheckPossessions(sc: Scenario, s: WorldState, d: WorldStateDelta): (r: Check)
    ensures r.Pass? <==>
            && (forall c | c in d.inventoryChanges :: CheckInventory(s, c).Pass?)
            && (forall c | c in d.playerChanges :: CheckPlayer(s, c).Pass?)
            && (forall c | c in d.clueChanges :: CheckClue(sc, s, d, c).Pass?)
  {
    var item := (c: InventoryChange) => CheckInventory(s, c);
    var player := (c: PlayerChange) => CheckPlayer(s, c);
    var clue := (c: ClueChange) => CheckClue(sc, s, d, c);
    var items := FirstFailure(d.inventoryChanges, item);
    var players := FirstFailure(d.playerChanges, player);
    var clues := FirstFailure(d.clueChanges, clue);
    assert items.Pass? <==> forall c | c in d.inventoryChanges :: item(c).Pass?;
    assert players.Pass? <==> forall c | c in d.playerChanges :: player(c).Pass?;
    assert clues.Pass? <==> forall c | c in d.clueChanges :: clue(c).Pass?;
    :- items;
    :- players;
    clues
  }

  /** On success the source returns the delta it was given, unchanged. */
  function Validate(lower: string -> string, sc: Scenario, s: WorldState, d: WorldStateDelta): Check {
    var header := CheckHeader(sc, d);
    :- header;
    :- CheckCast(lower, sc, s, d);
    :- CheckGroups(sc, s, d);
    :- CheckPossessions(sc, s, d);
    CheckLocation(sc, d)
  }

  predicate Accepts(lower: string -> string, sc: Scenario, s: WorldState, d: WorldStateDelta) {
    Validate(lower, sc, s, d).Pass?
  }
}
