/** `BasicFrontendStateProjector::project`: what a viewer, player or admin, is shown of a world state. */
module Projection {
  import opened Wrappers
  import opened Sequences
  import opened Domain
  import opened ScenarioValidation
  import opened WorldInvariant

  datatype VisibleLocation = VisibleLocation(id: EntityKey, name: string, description: string)

  datatype VisibleNpc = VisibleNpc(
    id: EntityKey,
    name: string,
    description: string,
    status: NpcStatus,
    attitudeToPlayer: Option<string>,
    availability: NpcAvailability)

  datatype VisibleFaction = VisibleFaction(
    id: EntityKey,
    name: string,
    standing: int,
    pressure: int,
    publicNotes: seq<string>,
    publicPressureNotes: seq<string>,
    revealedGoals: seq<string>)

  datatype VisibleQuest = VisibleQuest(id: EntityKey, status: QuestStatus)

  datatype VisibleClock = VisibleClock(id: EntityKey, title: string, current: U8, max: U8, consequence: string)

  datatype VisibleFact = VisibleFact(id: EntityKey, text: string)

  datatype VisibleAction = VisibleAction(
    id: EntityKey,
    intent: string,
    stakes: seq<string>,
    outcome: ActionOutcome,
    consequence: string,
    linkedClockIds: seq<EntityKey>)

  datatype VisibleClue = VisibleClue(id: EntityKey, text: string, satisfiedRevealConditions: seq<ConditionRef>)

  datatype VisiblePlayer = VisiblePlayer(
    traits: seq<PlayerTrait>,
    goals: seq<PlayerGoal>,
    conditions: seq<PlayerCondition>,
    resources: seq<PlayerResource>)

  datatype VisibleMemory =
    VisibleMemory(id: EntityKey, text: string, importance: U8, relatedEntityIds: seq<EntityKey>)

  datatype FrontendVisibleState = FrontendVisibleState(
    stateVersion: nat,
    currentLocation: Option<VisibleLocation>,
    activeSpeaker: Option<VisibleNpc>,
    visibleNpcs: seq<VisibleNpc>,
    visibleFactions: seq<VisibleFaction>,
    visibleRelationships: seq<RelationshipState>,
    visibleQuests: seq<VisibleQuest>,
    visibleClocks: seq<VisibleClock>,
    playerKnownFacts: seq<VisibleFact>,
    visibleActions: seq<VisibleAction>,
    visibleClues: seq<VisibleClue>,
    player: VisiblePlayer,
    visibleMemories: seq<VisibleMemory>,
    recentPublicEvents: seq<string>)

  // ---------- the view of each kind of entity ----------

  function LocationShown(id: EntityKey, admin: bool): Location -> bool {
    (l: Location) => l.id == id && (l.visible || admin)
  }

  function LocationView(sc: Scenario, at: Option<EntityKey>, admin: bool): Option<VisibleLocation> {
    if at.None? then None
    else
      match Find(sc.locations, LocationShown(at.value, admin))
      case Some(l) => Some(VisibleLocation(l.id, l.name, l.description))
      case None => None
  }

  function NpcView(sc: Scenario, admin: bool): NpcState -> Option<VisibleNpc> {
    (npc: NpcState) =>
      if !(admin || npc.visibleToPlayer) then None
      else
        match Find(sc.npcs, ScenarioNpcIs(npc.npcId))
        case Some(n) =>
          Some(VisibleNpc(n.id, n.name, n.description, npc.status, npc.attitudeToPlayer, npc.availability))
        case None => None
  }

  function FactionView(sc: Scenario): FactionState -> Option<VisibleFaction> {
    (f: FactionState) =>
      match Find(sc.factions, ScenarioFactionIs(f.factionId))
      case Some(x) =>
        Some(VisibleFaction(x.id, x.name, f.standing, f.pressure, f.publicNotes, f.publicPressureNotes,
                            f.revealedGoals))
      case None => None
  }

  function QuestView(admin: bool): QuestState -> Option<VisibleQuest> {
    (q: QuestState) =>
      if admin || (q.visible && !q.status.QuestHidden?) then Some(VisibleQuest(q.questId, q.status)) else None
  }

  function ClockView(admin: bool): ClockState -> Option<VisibleClock> {
    (c: ClockState) =>
      if admin || c.visibleToPlayer then Some(VisibleClock(c.id, c.title, c.current, c.max, c.consequence)) else None
  }

  function FactView(admin: bool): Fact -> Option<VisibleFact> {
    (f: Fact) => if f.visibility.PlayerKnown? || admin then Some(VisibleFact(f.id, f.text)) else None
  }

  function ShownIds(npcs: seq<VisibleNpc>): set<EntityKey> {
    set n | n in npcs :: n.id
  }

  predicate RelationshipShown(admin: bool, shown: set<EntityKey>, source: EntityKey, target: EntityKey) {
    admin || source == "player" || target == "player" || source in shown || target in shown
  }

  /** A shown relationship is shown with all its fields. */
  function RelationshipView(admin: bool, shown: set<EntityKey>): RelationshipState -> Option<RelationshipState> {
    (r: RelationshipState) => if RelationshipShown(admin, shown, r.sourceId, r.targetId) then Some(r) else None
  }

  function ActionView(admin: bool): ActionResolution -> Option<VisibleAction> {
    (a: ActionResolution) =>
      if admin || a.visibleToPlayer
      then Some(VisibleAction(a.id, a.intent, a.stakes, a.outcome, a.consequence, a.linkedClockIds))
      else None
  }

  function ClueView(admin: bool): ClueState -> Option<VisibleClue> {
    (c: ClueState) =>
      if admin || c.visibleToPlayer then Some(VisibleClue(c.id, c.text, c.satisfiedRevealConditions)) else None
  }

  function TraitView(admin: bool): PlayerTrait -> Option<PlayerTrait> {
    (t: PlayerTrait) => if admin || t.visibleToPlayer then Some(t) else None
  }

  function GoalView(admin: bool): PlayerGoal -> Option<PlayerGoal> {
    (g: PlayerGoal) => if admin || g.visibleToPlayer then Some(g) else None
  }

  function ConditionView(admin: bool): PlayerCondition -> Option<PlayerCondition> {
    (c: PlayerCondition) => if admin || c.visibleToPlayer then Some(c) else None
  }

  function ResourceView(admin: bool): PlayerResource -> Option<PlayerResource> {
    (r: PlayerResource) => if admin || r.visibleToPlayer then Some(r) else None
  }

  function PlayerView(p: PlayerCharacterState, admin: bool): VisiblePlayer {
    VisiblePlayer(
      FilterMap(p.traits, TraitView(admin)),
      FilterMap(p.goals, GoalView(admin)),
      FilterMap(p.conditions, ConditionView(admin)),
      FilterMap(p.resources, ResourceView(admin)))
  }

  function MemoryView(admin: bool): MemoryEntry -> Option<VisibleMemory> {
    (m: MemoryEntry) =>
      if admin || m.visibility.PlayerMemory?
      then Some(VisibleMemory(m.id, m.text, m.importance, m.relatedEntityIds))
      else None
  }

  function VisibleNpcIs(id: EntityKey): VisibleNpc -> bool { (n: VisibleNpc) => n.id == id }

  function SpeakerView(speaker: Option<EntityKey>, shown: seq<VisibleNpc>): Option<VisibleNpc> {
    if speaker.None? then None else Find(shown, VisibleNpcIs(speaker.value))
  }

  function Project(sc: Scenario, s: WorldState, admin: bool): FrontendVisibleState {
    var npcs := FilterMap(s.npcs, NpcView(sc, admin));
    FrontendVisibleState(
      s.version,
      LocationView(sc, s.currentLocationId, admin),
      SpeakerView(s.activeSpeakerId, npcs),
      npcs,
      FilterMap(s.factions, FactionView(sc)),
      FilterMap(s.relationships, RelationshipView(admin, ShownIds(npcs))),
      FilterMap(s.quests, QuestView(admin)),
      FilterMap(s.clocks, ClockView(admin)),
      FilterMap(s.facts, FactView(admin)),
      FilterMap(s.actionResolutions, ActionView(admin)),
      FilterMap(s.clues, ClueView(admin)),
      PlayerView(s.player, admin),
      FilterMap(s.memories, MemoryView(admin)),
      s.recentEvents)
  }

  // ---------- the player's view is a part of the admin's ----------

  ghost predicate SubView(player: FrontendVisibleState, admin: FrontendVisibleState) {
    && Subsequence(player.visibleNpcs, admin.visibleNpcs)
    && Subsequence(player.visibleFactions, admin.visibleFactions)
    && Subsequence(player.visibleRelationships, admin.visibleRelationships)
    && Subsequence(player.visibleQuests, admin.visibleQuests)
    && Subsequence(player.visibleClocks, admin.visibleClocks)
    && Subsequence(player.playerKnownFacts, admin.playerKnownFacts)
    && Subsequence(player.visibleActions, admin.visibleActions)
    && Subsequence(player.visibleClues, admin.visibleClues)
    && Subsequence(player.visibleMemories, admin.visibleMemories)
    && Subsequence(player.player.traits, admin.player.traits)
    && Subsequence(player.player.goals, admin.player.goals)
    && Subsequence(player.player.conditions, admin.player.conditions)
    && Subsequence(player.player.resources, admin.player.resources)
  }

  lemma PlayerListsAreSubsequences(sc: Scenario, s: WorldState)
    ensures SubView(Project(sc, s, false), Project(sc, s, true))
  {
    SubViewSubsequence(s.npcs, NpcView(sc, false), NpcView(sc, true));
    SubViewSubsequence(s.factions, FactionView(sc), FactionView(sc));
    var player, admin := FilterMap(s.npcs, NpcView(sc, false)), FilterMap(s.npcs, NpcView(sc, true));
    SubViewSubsequence(
      s.relationships, RelationshipView(false, ShownIds(player)), RelationshipView(true, ShownIds(admin)));
    SubViewSubsequence(s.quests, QuestView(false), QuestView(true));
    SubViewSubsequence(s.clocks, ClockView(false), ClockView(true));
    SubViewSubsequence(s.facts, FactView(false), FactView(true));
    SubViewSubsequence(s.actionResolutions, ActionView(false), ActionView(true));
    SubViewSubsequence(s.clues, ClueView(false), ClueView(true));
    SubViewSubsequence(s.memories, MemoryView(false), MemoryView(true));
    SubViewSubsequence(s.player.traits, TraitView(false), TraitView(true));
    SubViewSubsequence(s.player.goals, GoalView(false), GoalView(true));
    SubViewSubsequence(s.player.conditions, ConditionView(false), ConditionView(true));
    SubViewSubsequence(s.player.resources, ResourceView(false), ResourceView(true));
  }

  /** An npc view carries the identifier of the npc it shows. */
  lemma NpcViewKeepsId(sc: Scenario, admin: bool, npc: NpcState)
    requires NpcView(sc, admin)(npc).Some?
    ensures NpcView(sc, admin)(npc).value.id == npc.npcId
  {
  }

  /** With unique identifiers, looking up a shown npc finds the view of the npc that has the identifier. */
  lemma {:induction false} FindShown(sc: Scenario, admin: bool, npcs: seq<NpcState>, id: EntityKey, v: VisibleNpc)
    requires Unique(npcs, NpcKey)
    requires Find(FilterMap(npcs, NpcView(sc, admin)), VisibleNpcIs(id)) == Some(v)
    ensures exists npc :: npc in npcs && npc.npcId == id && NpcView(sc, admin)(npc) == Some(v)
  {
    var shown := FilterMap(npcs, NpcView(sc, admin));
    var i := FirstIndex(shown, VisibleNpcIs(id));
    FilterMapMember(npcs, NpcView(sc, admin), v);
    assert shown[i] in shown;
    var npc :| npc in npcs && NpcView(sc, admin)(npc) == Some(v);
    NpcViewKeepsId(sc, admin, npc);
  }

  lemma OneNpcPerId(npcs: seq<NpcState>, a: NpcState, b: NpcState)
    requires Unique(npcs, NpcKey) && a in npcs && b in npcs && a.npcId == b.npcId
    ensures a == b
  {
    var i :| 0 <= i < |npcs| && npcs[i] == a;
    var j :| 0 <= j < |npcs| && npcs[j] == b;
    assert NpcKey(npcs[i]) == NpcKey(npcs[j]);
  }

  /** A speaker or location the player sees is the one the admin sees. */
  lemma PlayerSpeakerIsAdminSpeaker(sc: Scenario, s: WorldState)
    requires DistinctIds(sc) && NpcRosterKept(sc, s.npcs)
    ensures var player, admin := Project(sc, s, false), Project(sc, s, true);
            && (player.activeSpeaker.Some? ==> admin.activeSpeaker == player.activeSpeaker)
            && (player.currentLocation.Some? ==> admin.currentLocation == player.currentLocation)
  {
    SameKeysUnique(sc.npcs, ScenarioNpcKey, s.npcs, NpcKey);
    if Project(sc, s, false).activeSpeaker.Some? {
      SpeakerAgrees(sc, s.npcs, s.activeSpeakerId.value);
    }
    if s.currentLocationId.Some? {
      LocationAgrees(sc, s.currentLocationId.value);
    }
  }

  lemma SpeakerAgrees(sc: Scenario, npcs: seq<NpcState>, id: EntityKey)
    requires Unique(npcs, NpcKey)
    requires Find(FilterMap(npcs, NpcView(sc, false)), VisibleNpcIs(id)).Some?
    ensures Find(FilterMap(npcs, NpcView(sc, true)), VisibleNpcIs(id)) ==
            Find(FilterMap(npcs, NpcView(sc, false)), VisibleNpcIs(id))
  {
    var v := Find(FilterMap(npcs, NpcView(sc, false)), VisibleNpcIs(id)).value;
    FindShown(sc, false, npcs, id, v);
    var npc :| npc in npcs && npc.npcId == id && NpcView(sc, false)(npc) == Some(v);
    assert NpcView(sc, true)(npc) == Some(v);
    FilterMapMember(npcs, NpcView(sc, true), v);
    var all := FilterMap(npcs, NpcView(sc, true));
    var i := FirstIndex(all, VisibleNpcIs(id));
    var k :| 0 <= k < |all| && all[k] == v;
    assert VisibleNpcIs(id)(all[k]);
    FindShown(sc, true, npcs, id, all[i]);
    var other :| other in npcs && other.npcId == id && NpcView(sc, true)(other) == Some(all[i]);
    OneNpcPerId(npcs, npc, other);
  }

  lemma LocationAgrees(sc: Scenario, id: EntityKey)
    requires DistinctIds(sc)
    ensures Find(sc.locations, LocationShown(id, false)).Some? ==>
              Find(sc.locations, LocationShown(id, true)) == Find(sc.locations, LocationShown(id, false))
  {
    var i := FirstIndex(sc.locations, LocationShown(id, false));
    var j := FirstIndex(sc.locations, LocationShown(id, true));
    if i < |sc.locations| {
      assert LocationShown(id, true)(sc.locations[i]);
      assert LocationKey(sc.locations[i]) == LocationKey(sc.locations[j]);
    }
  }
}
