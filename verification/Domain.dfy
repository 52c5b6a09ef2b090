/**
 The engine's data: scenarios, the authoritative world state, and the typed deltas a provider may propose.
 Text the modelled code only carries (titles, prose of a role identity) is not represented.
 */
module Domain {
  import opened Wrappers

  type EntityKey = string
  type Uuid = nat
  type SessionId = Uuid
  type ScenarioId = Uuid
  type MessageId = Uuid
  type U8 = x: int | 0 <= x < 0x100
  type I8 = x: int | -0x80 <= x < 0x80

  // ---------- scenario ----------

  datatype Scenario = Scenario(
    id: ScenarioId,
    locations: seq<Location>,
    factions: seq<Faction>,
    npcs: seq<Npc>,
    quests: seq<Quest>,
    secrets: seq<Secret>,
    clocks: seq<ClockTemplate>)

  datatype Location = Location(id: EntityKey, name: string, description: string, visible: bool)

  datatype Npc = Npc(
    id: EntityKey,
    name: string,
    description: string,
    initialStatus: NpcStatus,
    initialLocationId: Option<EntityKey>,
    initialVisibleToPlayer: bool)

  datatype NpcStatus = Active | Injured | Unconscious | Missing | Captured | Dead | HiddenAway | Unknown

  datatype Faction = Faction(id: EntityKey, name: string, initialStanding: int)

  datatype Quest = Quest(id: EntityKey, visible: bool)

  datatype Secret = Secret(id: EntityKey, text: string, revealConditions: seq<RevealCondition>)

  datatype RevealCondition = RevealCondition(id: EntityKey, description: string)

  datatype ClockTemplate = ClockTemplate(id: EntityKey, title: string, current: U8, max: U8, consequence: string)

  // ---------- world state ----------

  datatype WorldState = WorldState(
    sessionId: SessionId,
    scenarioId: ScenarioId,
    version: nat,
    currentLocationId: Option<EntityKey>,
    currentScene: Option<string>,
    activeSpeakerId: Option<EntityKey>,
    facts: seq<Fact>,
    npcs: seq<NpcState>,
    factions: seq<FactionState>,
    quests: seq<QuestState>,
    clocks: seq<ClockState>,
    actionResolutions: seq<ActionResolution>,
    relationships: seq<RelationshipState>,
    inventory: seq<InventoryItem>,
    player: PlayerCharacterState,
    clues: seq<ClueState>,
    memories: seq<MemoryEntry>,
    summary: Option<string>,
    recentEvents: seq<string>)

  datatype Fact = Fact(
    id: EntityKey,
    text: string,
    visibility: FactVisibility,
    knownBy: seq<EntityKey>,
    source: FactSource,
    revealConditions: seq<RevealCondition>,
    relatedSecretIds: seq<EntityKey>,
    revealConditionSatisfied: Option<ConditionRef>)

  datatype FactVisibility = PlayerKnown | GmOnly | NpcKnown | FactionKnown

  datatype FactSource = FromScenario | FromTurn | FromPlayerCorrection | FromSystem

  datatype NpcState = NpcState(
    npcId: EntityKey,
    status: NpcStatus,
    visibleToPlayer: bool,
    locationId: Option<EntityKey>,
    attitudeToPlayer: Option<string>,
    knownFacts: seq<EntityKey>,
    notes: seq<string>,
    availability: NpcAvailability,
    currentIntent: Option<string>,
    offscreenActions: seq<OffscreenAction>)

  datatype NpcAvailability = Present | Nearby | Offscreen | Unavailable

  datatype OffscreenAction = OffscreenAction(intent: string, result: string, visibleToPlayer: bool)

  datatype FactionState = FactionState(
    factionId: EntityKey,
    standing: int,
    publicNotes: seq<string>,
    hiddenNotes: seq<string>,
    revealedGoals: seq<string>,
    pressure: int,
    publicPressureNotes: seq<string>,
    hiddenPressureNotes: seq<string>)

  datatype QuestState = QuestState(
    questId: EntityKey,
    status: QuestStatus,
    completedObjectives: seq<EntityKey>,
    visible: bool)

  datatype QuestStatus = QuestAvailable | QuestActive | QuestCompleted | QuestFailed | QuestHidden

  datatype ClockState = ClockState(
    id: EntityKey,
    title: string,
    current: U8,
    max: U8,
    consequence: string,
    visibleToPlayer: bool)

  datatype RelationshipState = RelationshipState(
    sourceId: EntityKey,
    targetId: EntityKey,
    attitude: int,
    notes: seq<string>,
    trust: int,
    suspicion: int,
    loyalty: int)

  datatype ActionResolution = ActionResolution(
    id: EntityKey,
    intent: string,
    stakes: seq<string>,
    outcome: ActionOutcome,
    consequence: string,
    visibleToPlayer: bool,
    linkedClockIds: seq<EntityKey>)

  datatype ActionOutcome = FullSuccess | SuccessWithCost | Partial | NoSuccess

  datatype PlayerCharacterState = PlayerCharacterState(
    traits: seq<PlayerTrait>,
    goals: seq<PlayerGoal>,
    conditions: seq<PlayerCondition>,
    resources: seq<PlayerResource>,
    gmNotes: seq<string>)

  datatype PlayerTrait = PlayerTrait(id: EntityKey, name: string, description: string, visibleToPlayer: bool)

  datatype PlayerGoal = PlayerGoal(
    id: EntityKey,
    name: string,
    description: string,
    progress: int,
    visibleToPlayer: bool)

  datatype PlayerCondition =
    PlayerCondition(id: EntityKey, name: string, description: string, visibleToPlayer: bool)

  datatype PlayerResource = PlayerResource(
    id: EntityKey,
    name: string,
    current: int,
    min: int,
    max: int,
    visibleToPlayer: bool)

  /** `ConditionRef`; the source's match mode has the single value `Exact` and carries nothing. */
  datatype ConditionRef = ExactCondition(id: EntityKey)

  datatype ClueState = ClueState(
    id: EntityKey,
    text: string,
    linkedSecretIds: seq<EntityKey>,
    satisfiedRevealConditions: seq<ConditionRef>,
    visibleToPlayer: bool)

  datatype InventoryItem = InventoryItem(id: EntityKey, name: string, description: string, visible: bool)

  datatype MemoryEntry = MemoryEntry(
    id: EntityKey,
    text: string,
    visibility: MemoryVisibility,
    importance: U8,
    relatedEntityIds: seq<EntityKey>,
    sourceMessageId: Option<MessageId>)

  datatype MemoryVisibility = PlayerMemory | GmMemory

  // ---------- deltas ----------

  datatype WorldStateDelta = WorldStateDelta(
    sceneChange: Option<SceneChange>,
    activeSpeakerChange: Option<ActiveSpeakerChange>,
    factsToAdd: seq<FactToAdd>,
    actionResolutionChanges: seq<ActionResolutionChange>,
    npcChanges: seq<NpcChange>,
    factionChanges: seq<FactionChange>,
    questChanges: seq<QuestChange>,
    clockChanges: seq<ClockChange>,
    relationshipChanges: seq<RelationshipChange>,
    inventoryChanges: seq<InventoryChange>,
    playerChanges: seq<PlayerChange>,
    clueChanges: seq<ClueChange>,
    locationChange: Option<LocationChange>,
    summaryUpdate: Option<SummaryUpdate>,
    memoryChanges: seq<MemoryChange>,
    eventLogEntries: seq<string>)

  const EMPTY_DELTA := WorldStateDelta(None, None, [], [], [], [], [], [], [], [], [], [], None, None, [], [])

  datatype SceneChange = SceneChange(scene: Option<string>, reason: string)

  datatype ActiveSpeakerChange = ActiveSpeakerChange(speakerId: Option<EntityKey>, reason: string)

  datatype SummaryUpdate = SummaryUpdate(summary: Option<string>, reason: string)

  datatype LocationChange = LocationChange(locationId: EntityKey, reason: string)

  datatype MemoryChange =
    | MemoryAdded(
        text: string, visibility: MemoryVisibility, importance: U8, relatedEntityIds: seq<EntityKey>,
        reason: string)
    | ImportanceChanged(memoryId: EntityKey, importance: U8, reason: string)

  datatype FactToAdd = FactToAdd(
    text: string,
    visibility: FactVisibility,
    knownBy: seq<EntityKey>,
    revealConditions: seq<RevealCondition>,
    reason: string,
    relatedSecretIds: seq<EntityKey>,
    revealConditionSatisfied: Option<ConditionRef>)

  datatype ActionResolutionChange = Recorded(
    intent: string,
    stakes: seq<string>,
    outcome: ActionOutcome,
    consequence: string,
    visibleToPlayer: bool,
    linkedClockIds: seq<EntityKey>,
    reason: string)

  datatype NpcChange =
    | AttitudeChanged(npcId: EntityKey, attitude: string, reason: string)
    | KnowledgeAdded(npcId: EntityKey, fact: string, visibility: FactVisibility, reason: string)
    | StatusChanged(npcId: EntityKey, status: NpcStatus, reason: string)
    | NpcLocationChanged(npcId: EntityKey, locationId: EntityKey, reason: string)
    | NpcNoteAdded(npcId: EntityKey, note: string, reason: string)
    | NpcVisibilityChanged(npcId: EntityKey, visibleToPlayer: bool, reason: string)
    | AvailabilityChanged(npcId: EntityKey, availability: NpcAvailability, reason: string)
    | IntentChanged(npcId: EntityKey, intent: Option<string>, reason: string)
    | OffscreenActionRecorded(
        npcId: EntityKey, offscreenIntent: string, result: string, visibleToPlayer: bool, reason: string)

  datatype FactionChange =
    | StandingChanged(factionId: EntityKey, standingDelta: int, reason: string)
    | GoalRevealed(factionId: EntityKey, goal: string, reason: string)
    | PublicNoteAdded(factionId: EntityKey, note: string, reason: string)
    | HiddenNoteAdded(factionId: EntityKey, note: string, reason: string)
    | PressureChanged(factionId: EntityKey, delta: int, public: bool, reason: string)
    | PublicPressureNoteAdded(factionId: EntityKey, note: string, reason: string)
    | HiddenPressureNoteAdded(factionId: EntityKey, note: string, reason: string)

  datatype ClockChange =
    | Advanced(clockId: EntityKey, delta: I8, reason: string)
    | SetValue(clockId: EntityKey, value: U8, reason: string)
    | ClockVisibilityChanged(clockId: EntityKey, visibleToPlayer: bool, reason: string)

  datatype QuestChange =
    | Started(questId: EntityKey, reason: string)
    | ObjectiveCompleted(questId: EntityKey, objectiveId: EntityKey, reason: string)
    | Completed(questId: EntityKey, reason: string)
    | Failed(questId: EntityKey, reason: string)

  datatype RelationshipChange =
    | AttitudeShifted(sourceId: EntityKey, targetId: EntityKey, attitudeDelta: int, reason: string)
    | RelationshipNoteAdded(sourceId: EntityKey, targetId: EntityKey, note: string, reason: string)
    | TrustChanged(sourceId: EntityKey, targetId: EntityKey, delta: int, reason: string)
    | SuspicionChanged(sourceId: EntityKey, targetId: EntityKey, delta: int, reason: string)
    | LoyaltyChanged(sourceId: EntityKey, targetId: EntityKey, delta: int, reason: string)

  datatype InventoryChange =
    | ItemAdded(item: InventoryItem, reason: string)
    | ItemRemoved(itemId: EntityKey, reason: string)
    | ItemUpdated(item: InventoryItem, reason: string)

  datatype PlayerChange =
    | TraitAdded(
        traitId: EntityKey, name: string, description: string, visibleToPlayer: bool, reason: string)
    | GoalAdded(
        goalId: EntityKey, name: string, description: string, progress: int, visibleToPlayer: bool,
        reason: string)
    | GoalProgressed(goalId: EntityKey, delta: int, reason: string)
    | ConditionAdded(
        conditionId: EntityKey, name: string, description: string, visibleToPlayer: bool, reason: string)
    | ConditionCleared(conditionId: EntityKey, reason: string)
    | ResourceChanged(resourceId: EntityKey, delta: int, reason: string)
    | GmNoteAdded(note: string, reason: string)

  datatype ClueChange =
    | Discovered(
        clueId: EntityKey, text: string, linkedSecretIds: seq<EntityKey>,
        satisfiedRevealConditions: seq<ConditionRef>, visibleToPlayer: bool, reason: string)
    | ClueVisibilityChanged(clueId: EntityKey, visibleToPlayer: bool, reason: string)

  // ---------- keys, and the identifier sets the source collects ----------

  function NpcKey(npc: NpcState): EntityKey { npc.npcId }
  function FactionKey(faction: FactionState): EntityKey { faction.factionId }
  function QuestKey(quest: QuestState): EntityKey { quest.questId }
  function ClockKey(clock: ClockState): EntityKey { clock.id }
  function ItemKey(item: InventoryItem): EntityKey { item.id }
  function ClueKey(clue: ClueState): EntityKey { clue.id }
  function MemoryKey(memory: MemoryEntry): EntityKey { memory.id }
  function GoalKey(goal: PlayerGoal): EntityKey { goal.id }
  function ConditionKey(condition: PlayerCondition): EntityKey { condition.id }
  function ResourceKey(resource: PlayerResource): EntityKey { resource.id }
  function RelationshipKey(r: RelationshipState): (EntityKey, EntityKey) { (r.sourceId, r.targetId) }

  function NpcIs(id: EntityKey): NpcState -> bool { (n: NpcState) => n.npcId == id }
  function FactionIs(id: EntityKey): FactionState -> bool { (f: FactionState) => f.factionId == id }
  function QuestIs(id: EntityKey): QuestState -> bool { (q: QuestState) => q.questId == id }
  function ClockIs(id: EntityKey): ClockState -> bool { (c: ClockState) => c.id == id }
  function MemoryIs(id: EntityKey): MemoryEntry -> bool { (m: MemoryEntry) => m.id == id }
  function ItemIs(id: EntityKey): InventoryItem -> bool { (i: InventoryItem) => i.id == id }
  function ItemIsNot(id: EntityKey): InventoryItem -> bool { (i: InventoryItem) => i.id != id }
  function ClueIs(id: EntityKey): ClueState -> bool { (c: ClueState) => c.id == id }
  function GoalIs(id: EntityKey): PlayerGoal -> bool { (g: PlayerGoal) => g.id == id }
  function ResourceIs(id: EntityKey): PlayerResource -> bool { (r: PlayerResource) => r.id == id }
  function ConditionIs(id: EntityKey): PlayerCondition -> bool { (c: PlayerCondition) => c.id == id }
  function ConditionIsNot(id: EntityKey): PlayerCondition -> bool { (c: PlayerCondition) => c.id != id }
  function RelationshipIs(source: EntityKey, target: EntityKey): RelationshipState -> bool {
    (r: RelationshipState) => r.sourceId == source && r.targetId == target
  }
  function ScenarioNpcIs(id: EntityKey): Npc -> bool { (n: Npc) => n.id == id }
  function ScenarioFactionIs(id: EntityKey): Faction -> bool { (f: Faction) => f.id == id }

  function NpcIds(sc: Scenario): set<EntityKey> { set n | n in sc.npcs :: n.id }
  function FactionIds(sc: Scenario): set<EntityKey> { set f | f in sc.factions :: f.id }
  function QuestIds(sc: Scenario): set<EntityKey> { set q | q in sc.quests :: q.id }
  function LocationIds(sc: Scenario): set<EntityKey> { set l | l in sc.locations :: l.id }
  function ClockIds(s: WorldState): set<EntityKey> { set c | c in s.clocks :: c.id }
  function ItemIds(s: WorldState): set<EntityKey> { set i | i in s.inventory :: i.id }

  function ConditionIds(secret: Secret): set<EntityKey> {
    set c | c in secret.revealConditions :: c.id
  }

  /** Collecting (id, condition ids) pairs into a hash map: a later secret replaces an earlier one. */
  function SecretConditions(secrets: seq<Secret>): (m: map<EntityKey, set<EntityKey>>)
    ensures m.Keys == set s | s in secrets :: s.id
  {
    if |secrets| == 0 then map[]
    else
      var last := secrets[|secrets| - 1];
      assert secrets == secrets[..|secrets| - 1] + [last];
      SecretConditions(secrets[..|secrets| - 1])[last.id := ConditionIds(last)]
  }
}
