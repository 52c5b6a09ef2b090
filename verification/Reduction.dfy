/**
 What `BasicWorldStateReducer::apply` computes, list by list. Each function folds one list of changes,
 in order, over the part of the world state it touches; `Applied` puts the parts together.
 `version` is the version of the new state, the one that goes into generated identifiers.
 */
module Reduction {
  import opened Wrappers
  import opened Sequences
  import opened Identifiers
  import opened Domain

  // ---------- memories ----------

  function WithImportance(importance: U8): MemoryEntry -> MemoryEntry {
    (m: MemoryEntry) => m.(importance := importance)
  }

  function StepMemory(memories: seq<MemoryEntry>, change: MemoryChange, version: nat): seq<MemoryEntry> {
    match change
    case MemoryAdded(text, visibility, importance, related, _) =>
      memories + [MemoryEntry(MemoryId(version, |memories| + 1), text, visibility, importance, related, None)]
    case ImportanceChanged(id, importance, _) =>
      UpdateFirst(memories, MemoryIs(id), WithImportance(importance))
  }

  function Memories(memories: seq<MemoryEntry>, changes: seq<MemoryChange>, version: nat): seq<MemoryEntry>
    decreases |changes|
  {
    if |changes| == 0 then memories
    else StepMemory(Memories(memories, Init(changes), version), Last(changes), version)
  }

  // ---------- facts ----------

  function AddedFact(fact: FactToAdd, id: EntityKey): Fact {
    Fact(id, fact.text, fact.visibility, fact.knownBy, FromTurn, fact.revealConditions, fact.relatedSecretIds,
         fact.revealConditionSatisfied)
  }

  function FactsAdded(facts: seq<Fact>, adds: seq<FactToAdd>, version: nat): (r: seq<Fact>)
    ensures |r| == |facts| + |adds|
    decreases |adds|
  {
    if |adds| == 0 then facts
    else
      var before := FactsAdded(facts, Init(adds), version);
      before + [AddedFact(Last(adds), FactId(version, |before| + 1))]
  }

  function LearnedFact(change: NpcChange, id: EntityKey): Fact
    requires change.KnowledgeAdded?
  {
    Fact(id, change.fact, change.visibility, [change.npcId], FromTurn, [], [], None)
  }

  function FactsLearned(facts: seq<Fact>, changes: seq<NpcChange>, version: nat): (r: seq<Fact>)
    ensures |facts| <= |r|
    decreases |changes|
  {
    if |changes| == 0 then facts
    else
      var before := FactsLearned(facts, Init(changes), version);
      if Last(changes).KnowledgeAdded?
      then before + [LearnedFact(Last(changes), FactId(version, |before| + 1))]
      else before
  }

  // ---------- action resolutions ----------

  function ResolvedAction(change: ActionResolutionChange, id: EntityKey): ActionResolution {
    ActionResolution(id, change.intent, change.stakes, change.outcome, change.consequence,
                     change.visibleToPlayer, change.linkedClockIds)
  }

  function Actions(
    actions: seq<ActionResolution>, changes: seq<ActionResolutionChange>, version: nat): (r: seq<ActionResolution>)
    ensures |r| == |actions| + |changes|
    decreases |changes|
  {
    if |changes| == 0 then actions
    else
      var before := Actions(actions, Init(changes), version);
      before + [ResolvedAction(Last(changes), ActionId(version, |before| + 1))]
  }

  // ---------- npcs ----------

  /** `factId` is the identifier the change generates when it records knowledge. */
  function ChangedNpc(npc: NpcState, change: NpcChange, factId: EntityKey): NpcState {
    match change
    case AttitudeChanged(_, attitude, _) => npc.(attitudeToPlayer := Some(attitude))
    case KnowledgeAdded(_, _, _, _) => npc.(knownFacts := npc.knownFacts + [factId])
    case StatusChanged(_, status, _) => npc.(status := status)
    case NpcLocationChanged(_, locationId, _) => npc.(locationId := Some(locationId))
    case NpcNoteAdded(_, note, _) => npc.(notes := npc.notes + [note])
    case NpcVisibilityChanged(_, visible, _) => npc.(visibleToPlayer := visible)
    case AvailabilityChanged(_, availability, _) => npc.(availability := availability)
    case IntentChanged(_, intent, _) => npc.(currentIntent := intent)
    case OffscreenActionRecorded(_, intent, result, visible, _) =>
      npc.(offscreenActions := npc.offscreenActions + [OffscreenAction(intent, result, visible)])
  }

  function NpcPatch(change: NpcChange, factId: EntityKey): NpcState -> NpcState {
    (npc: NpcState) => ChangedNpc(npc, change, factId)
  }

  /** The identifier of the next fact, when `facts` grows by what `changes` teach. */
  function NextFactId(facts: seq<Fact>, changes: seq<NpcChange>, version: nat): EntityKey {
    FactId(version, |FactsLearned(facts, changes, version)| + 1)
  }

  function Npcs(npcs: seq<NpcState>, facts: seq<Fact>, changes: seq<NpcChange>, version: nat): seq<NpcState>
    decreases |changes|
  {
    if |changes| == 0 then npcs
    else
      UpdateFirst(
        Npcs(npcs, facts, Init(changes), version),
        NpcIs(Last(changes).npcId),
        NpcPatch(Last(changes), NextFactId(facts, Init(changes), version)))
  }

  // ---------- factions, quests, clocks ----------

  function ChangedFaction(f: FactionState, change: FactionChange): FactionState {
    match change
    case StandingChanged(_, delta, _) => f.(standing := f.standing + delta)
    case GoalRevealed(_, goal, _) => f.(revealedGoals := f.revealedGoals + [goal])
    case PublicNoteAdded(_, note, _) => f.(publicNotes := f.publicNotes + [note])
    case HiddenNoteAdded(_, note, _) => f.(hiddenNotes := f.hiddenNotes + [note])
    case PressureChanged(_, delta, _, _) => f.(pressure := f.pressure + delta)
    case PublicPressureNoteAdded(_, note, _) => f.(publicPressureNotes := f.publicPressureNotes + [note])
    case HiddenPressureNoteAdded(_, note, _) => f.(hiddenPressureNotes := f.hiddenPressureNotes + [note])
  }

  function FactionPatch(change: FactionChange): FactionState -> FactionState {
    (f: FactionState) => ChangedFaction(f, change)
  }

  function Factions(factions: seq<FactionState>, changes: seq<FactionChange>): seq<FactionState>
    decreases |changes|
  {
    if |changes| == 0 then factions
    else
      UpdateFirst(Factions(factions, Init(changes)), FactionIs(Last(changes).factionId), FactionPatch(Last(changes)))
  }

  function ChangedQuest(q: QuestState, change: QuestChange): QuestState {
    match change
    case Started(_, _) => q.(status := QuestActive)
    case ObjectiveCompleted(_, objectiveId, _) =>
      if objectiveId in q.completedObjectives then q
      else q.(completedObjectives := q.completedObjectives + [objectiveId])
    case Completed(_, _) => q.(status := QuestCompleted)
    case Failed(_, _) => q.(status := QuestFailed)
  }

  function QuestPatch(change: QuestChange): QuestState -> QuestState {
    (q: QuestState) => ChangedQuest(q, change)
  }

  function Quests(quests: seq<QuestState>, changes: seq<QuestChange>): seq<QuestState>
    decreases |changes|
  {
    if |changes| == 0 then quests
    else UpdateFirst(Quests(quests, Init(changes)), QuestIs(Last(changes).questId), QuestPatch(Last(changes)))
  }

  /** `value.clamp(0, max)` */
  function Clamp(value: int, max: U8): U8 {
    if value < 0 then 0 else if value > max then max else value
  }

  function ChangedClock(c: ClockState, change: ClockChange): ClockState {
    match change
    case Advanced(_, delta, _) => c.(current := Clamp(c.current + delta, c.max))
    case SetValue(_, value, _) => c.(current := if value < c.max then value else c.max)
    case ClockVisibilityChanged(_, visible, _) => c.(visibleToPlayer := visible)
  }

  function ClockPatch(change: ClockChange): ClockState -> ClockState {
    (c: ClockState) => ChangedClock(c, change)
  }

  function Clocks(clocks: seq<ClockState>, changes: seq<ClockChange>): seq<ClockState>
    decreases |changes|
  {
    if |changes| == 0 then clocks
    else UpdateFirst(Clocks(clocks, Init(changes)), ClockIs(Last(changes).clockId), ClockPatch(Last(changes)))
  }

  // ---------- inventory, relationships, clues ----------

  function StepInventory(items: seq<InventoryItem>, change: InventoryChange): seq<InventoryItem> {
    match change
    case ItemAdded(item, _) => Upsert(items, ItemIs(item.id), item)
    case ItemRemoved(id, _) => Filter(items, ItemIsNot(id))
    case ItemUpdated(item, _) => UpdateFirst(items, ItemIs(item.id), Replace(item))
  }

  function Inventory(items: seq<InventoryItem>, changes: seq<InventoryChange>): seq<InventoryItem>
    decreases |changes|
  {
    if |changes| == 0 then items else StepInventory(Inventory(items, Init(changes)), Last(changes))
  }

  function NewRelationship(source: EntityKey, target: EntityKey): RelationshipState {
    RelationshipState(source, target, 0, [], 0, 0, 0)
  }

  function WithRelationship(
    relationships: seq<RelationshipState>, source: EntityKey, target: EntityKey): seq<RelationshipState>
  {
    if Any(relationships, RelationshipIs(source, target)) then relationships
    else relationships + [NewRelationship(source, target)]
  }

  function ChangedRelationship(r: RelationshipState, change: RelationshipChange): RelationshipState {
    match change
    case AttitudeShifted(_, _, delta, _) => r.(attitude := r.attitude + delta)
    case RelationshipNoteAdded(_, _, note, _) => r.(notes := r.notes + [note])
    case TrustChanged(_, _, delta, _) => r.(trust := r.trust + delta)
    case SuspicionChanged(_, _, delta, _) => r.(suspicion := r.suspicion + delta)
    case LoyaltyChanged(_, _, delta, _) => r.(loyalty := r.loyalty + delta)
  }

  function RelationshipPatch(change: RelationshipChange): RelationshipState -> RelationshipState {
    (r: RelationshipState) => ChangedRelationship(r, change)
  }

  function StepRelationship(
    relationships: seq<RelationshipState>, change: RelationshipChange): seq<RelationshipState>
  {
    UpdateFirst(
      WithRelationship(relationships, change.sourceId, change.targetId),
      RelationshipIs(change.sourceId, change.targetId),
      RelationshipPatch(change))
  }

  function Relationships(
    relationships: seq<RelationshipState>, changes: seq<RelationshipChange>): seq<RelationshipState>
    decreases |changes|
  {
    if |changes| == 0 then relationships
    else StepRelationship(Relationships(relationships, Init(changes)), Last(changes))
  }

  function WithClueVisibility(visible: bool): ClueState -> ClueState {
    (c: ClueState) => c.(visibleToPlayer := visible)
  }

  function StepClue(clues: seq<ClueState>, change: ClueChange): seq<ClueState> {
    match change
    case Discovered(id, text, linked, satisfied, visible, _) =>
      Upsert(clues, ClueIs(id), ClueState(id, text, linked, satisfied, visible))
    case ClueVisibilityChanged(id, visible, _) => UpdateFirst(clues, ClueIs(id), WithClueVisibility(visible))
  }

  function Clues(clues: seq<ClueState>, changes: seq<ClueChange>): seq<ClueState>
    decreases |changes|
  {
    if |changes| == 0 then clues else StepClue(Clues(clues, Init(changes)), Last(changes))
  }

  // ---------- player ----------

  function WithProgress(delta: int): PlayerGoal -> PlayerGoal {
    (g: PlayerGoal) => g.(progress := g.progress + delta)
  }

  function WithResource(delta: int): PlayerResource -> PlayerResource {
    (r: PlayerResource) => r.(current := r.current + delta)
  }

  function StepPlayer(p: PlayerCharacterState, change: PlayerChange): PlayerCharacterState {
    match change
    case TraitAdded(id, name, description, visible, _) =>
      p.(traits := p.traits + [PlayerTrait(id, name, description, visible)])
    case GoalAdded(id, name, description, progress, visible, _) =>
      p.(goals := p.goals + [PlayerGoal(id, name, description, progress, visible)])
    case GoalProgressed(id, delta, _) => p.(goals := UpdateFirst(p.goals, GoalIs(id), WithProgress(delta)))
    case ConditionAdded(id, name, description, visible, _) =>
      p.(conditions := p.conditions + [PlayerCondition(id, name, description, visible)])
    case ConditionCleared(id, _) => p.(conditions := Filter(p.conditions, ConditionIsNot(id)))
    case ResourceChanged(id, delta, _) =>
      p.(resources := UpdateFirst(p.resources, ResourceIs(id), WithResource(delta)))
    case GmNoteAdded(note, _) => p.(gmNotes := p.gmNotes + [note])
  }

  function Player(p: PlayerCharacterState, changes: seq<PlayerChange>): PlayerCharacterState
    decreases |changes|
  {
    if |changes| == 0 then p else StepPlayer(Player(p, Init(changes)), Last(changes))
  }

  // ---------- the whole state ----------

  function Applied(s: WorldState, d: WorldStateDelta): (r: WorldState)
    ensures r.version == s.version + 1
    ensures r.sessionId == s.sessionId && r.scenarioId == s.scenarioId
    ensures r.recentEvents == s.recentEvents + d.eventLogEntries
  {
    var version := s.version + 1;
    var facts := FactsAdded(s.facts, d.factsToAdd, version);
    WorldState(
      s.sessionId,
      s.scenarioId,
      version,
      if d.locationChange.Some? then Some(d.locationChange.value.locationId) else s.currentLocationId,
      if d.sceneChange.Some? then d.sceneChange.value.scene else s.currentScene,
      if d.activeSpeakerChange.Some? then d.activeSpeakerChange.value.speakerId else s.activeSpeakerId,
      FactsLearned(facts, d.npcChanges, version),
      Npcs(s.npcs, facts, d.npcChanges, version),
      Factions(s.factions, d.factionChanges),
      Quests(s.quests, d.questChanges),
      Clocks(s.clocks, d.clockChanges),
      Actions(s.actionResolutions, d.actionResolutionChanges, version),
      Relationships(s.relationships, d.relationshipChanges),
      Inventory(s.inventory, d.inventoryChanges),
      Player(s.player, d.playerChanges),
      Clues(s.clues, d.clueChanges),
      Memories(s.memories, d.memoryChanges, version),
      if d.summaryUpdate.Some? then d.summaryUpdate.value.summary else s.summary,
      s.recentEvents + d.eventLogEntries)
  }
}
