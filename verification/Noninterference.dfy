/**
 The player's view is a function of the redacted state, the state without hidden entities and without
 the hidden fields of shown ones. So a turn that touches only what is hidden does not show.
 */
module Noninterference {
  import opened Wrappers
  import opened Sequences
  import opened Domain
  import opened Reduction
  import opened Projection
  import Identifiers

  // ---------- redaction ----------

  function RedactNpc(): NpcState -> Option<NpcState> {
    (n: NpcState) =>
      if n.visibleToPlayer
      then Some(n.(locationId := None, knownFacts := [], notes := [], currentIntent := None, offscreenActions := []))
      else None
  }

  function RedactFaction(): FactionState -> Option<FactionState> {
    (f: FactionState) => Some(f.(hiddenNotes := [], hiddenPressureNotes := []))
  }

  function RedactQuest(): QuestState -> Option<QuestState> {
    (q: QuestState) => if q.visible && !q.status.QuestHidden? then Some(q.(completedObjectives := [])) else None
  }

  function RedactClock(): ClockState -> Option<ClockState> {
    (c: ClockState) => if c.visibleToPlayer then Some(c) else None
  }

  function RedactFact(): Fact -> Option<Fact> {
    (f: Fact) =>
      if f.visibility.PlayerKnown?
      then Some(Fact(f.id, f.text, PlayerKnown, [], FromSystem, [], [], None))
      else None
  }

  function RedactAction(): ActionResolution -> Option<ActionResolution> {
    (a: ActionResolution) => if a.visibleToPlayer then Some(a) else None
  }

  function RedactClue(): ClueState -> Option<ClueState> {
    (c: ClueState) => if c.visibleToPlayer then Some(c.(linkedSecretIds := [])) else None
  }

  function RedactMemory(): MemoryEntry -> Option<MemoryEntry> {
    (m: MemoryEntry) => if m.visibility.PlayerMemory? then Some(m.(sourceMessageId := None)) else None
  }

  function RedactPlayer(p: PlayerCharacterState): PlayerCharacterState {
    PlayerCharacterState(
      FilterMap(p.traits, TraitView(false)),
      FilterMap(p.goals, GoalView(false)),
      FilterMap(p.conditions, ConditionView(false)),
      FilterMap(p.resources, ResourceView(false)),
      [])
  }

  function ShownTo(sc: Scenario, npcs: seq<NpcState>): set<EntityKey> {
    ShownIds(FilterMap(npcs, NpcView(sc, false)))
  }

  function Redact(sc: Scenario, s: WorldState): WorldState {
    s.(currentScene := None,
       facts := FilterMap(s.facts, RedactFact()),
       npcs := FilterMap(s.npcs, RedactNpc()),
       factions := FilterMap(s.factions, RedactFaction()),
       quests := FilterMap(s.quests, RedactQuest()),
       clocks := FilterMap(s.clocks, RedactClock()),
       actionResolutions := FilterMap(s.actionResolutions, RedactAction()),
       relationships := FilterMap(s.relationships, RelationshipView(false, ShownTo(sc, s.npcs))),
       inventory := [],
       player := RedactPlayer(s.player),
       clues := FilterMap(s.clues, RedactClue()),
       memories := FilterMap(s.memories, RedactMemory()),
       summary := None)
  }

  lemma RedactedPlayerLooksTheSame(p: PlayerCharacterState)
    ensures PlayerView(RedactPlayer(p), false) == PlayerView(p, false)
  {
    FilterMapFuse(p.traits, TraitView(false), TraitView(false));
    FilterMapFuse(p.goals, GoalView(false), GoalView(false));
    FilterMapFuse(p.conditions, ConditionView(false), ConditionView(false));
    FilterMapFuse(p.resources, ResourceView(false), ResourceView(false));
  }

  lemma RedactedCastLooksTheSame(sc: Scenario, s: WorldState)
    ensures FilterMap(FilterMap(s.npcs, RedactNpc()), NpcView(sc, false)) == FilterMap(s.npcs, NpcView(sc, false))
    ensures FilterMap(FilterMap(s.factions, RedactFaction()), FactionView(sc)) == FilterMap(s.factions, FactionView(sc))
    ensures FilterMap(FilterMap(s.quests, RedactQuest()), QuestView(false)) == FilterMap(s.quests, QuestView(false))
    ensures FilterMap(FilterMap(s.clocks, RedactClock()), ClockView(false)) == FilterMap(s.clocks, ClockView(false))
  {
    FilterMapFuse(s.npcs, RedactNpc(), NpcView(sc, false));
    FilterMapFuse(s.factions, RedactFaction(), FactionView(sc));
    FilterMapFuse(s.quests, RedactQuest(), QuestView(false));
    FilterMapFuse(s.clocks, RedactClock(), ClockView(false));
  }

  lemma RedactedRecordsLookTheSame(s: WorldState)
    ensures FilterMap(FilterMap(s.facts, RedactFact()), FactView(false)) == FilterMap(s.facts, FactView(false))
    ensures FilterMap(FilterMap(s.actionResolutions, RedactAction()), ActionView(false)) ==
            FilterMap(s.actionResolutions, ActionView(false))
    ensures FilterMap(FilterMap(s.clues, RedactClue()), ClueView(false)) == FilterMap(s.clues, ClueView(false))
    ensures FilterMap(FilterMap(s.memories, RedactMemory()), MemoryView(false)) ==
            FilterMap(s.memories, MemoryView(false))
  {
    FilterMapFuse(s.facts, RedactFact(), FactView(false));
    FilterMapFuse(s.actionResolutions, RedactAction(), ActionView(false));
    FilterMapFuse(s.clues, RedactClue(), ClueView(false));
    FilterMapFuse(s.memories, RedactMemory(), MemoryView(false));
  }

  /** Redaction does not show: the player's view depends on nothing that redaction removes. */
  lemma ViewFactorsThroughRedaction(sc: Scenario, s: WorldState)
    ensures Project(sc, Redact(sc, s), false) == Project(sc, s, false)
  {
    RedactedPlayerLooksTheSame(s.player);
    RedactedCastLooksTheSame(sc, s);
    RedactedRecordsLookTheSame(s);
    var view := RelationshipView(false, ShownTo(sc, s.npcs));
    FilterMapFuse(s.relationships, view, view);
  }

  // ---------- turns behind the screen ----------

  /** No element of this key is shown. */
  predicate NoneShown<T(==)>(xs: seq<T>, key: T -> EntityKey, shown: T -> bool, id: EntityKey) {
    forall x | x in xs && key(x) == id :: !shown(x)
  }

  function NpcShown(n: NpcState): bool { n.visibleToPlayer }
  function ClockShown(c: ClockState): bool { c.visibleToPlayer }
  function ClueShown(c: ClueState): bool { c.visibleToPlayer }
  function QuestShown(q: QuestState): bool { q.visible }
  function MemoryShown(m: MemoryEntry): bool { m.visibility.PlayerMemory? }
  function GoalShown(g: PlayerGoal): bool { g.visibleToPlayer }
  function ConditionShown(c: PlayerCondition): bool { c.visibleToPlayer }
  function ResourceShown(r: PlayerResource): bool { r.visibleToPlayer }

  /** Writes a field of the npc that no player is shown. */
  predicate HiddenNpcField(c: NpcChange) {
    c.KnowledgeAdded? || c.NpcNoteAdded? || c.NpcLocationChanged? || c.IntentChanged? || c.OffscreenActionRecorded?
  }

  /** Tells the player nothing, and writes a hidden field or an npc that is hidden and stays so. */
  predicate HiddenNpcChange(npcs: seq<NpcState>, c: NpcChange) {
    && (c.KnowledgeAdded? ==> !c.visibility.PlayerKnown?)
    && (HiddenNpcField(c)
        || (NoneShown(npcs, NpcKey, NpcShown, c.npcId) && (c.NpcVisibilityChanged? ==> !c.visibleToPlayer)))
  }

  predicate HiddenQuestChange(quests: seq<QuestState>, c: QuestChange) {
    c.ObjectiveCompleted? || NoneShown(quests, QuestKey, QuestShown, c.questId)
  }

  predicate HiddenMemoryChange(memories: seq<MemoryEntry>, c: MemoryChange) {
    match c
    case MemoryAdded(_, visibility, _, _, _) => visibility.GmMemory?
    case ImportanceChanged(id, _, _) => NoneShown(memories, MemoryKey, MemoryShown, id)
  }

  predicate HiddenFactionChange(c: FactionChange) {
    c.HiddenNoteAdded? || c.HiddenPressureNoteAdded?
  }

  predicate HiddenPlayerChange(p: PlayerCharacterState, c: PlayerChange) {
    match c
    case TraitAdded(_, _, _, visible, _) => !visible
    case GoalAdded(_, _, _, _, visible, _) => !visible
    case GoalProgressed(id, _, _) => NoneShown(p.goals, GoalKey, GoalShown, id)
    case ConditionAdded(_, _, _, visible, _) => !visible
    case ConditionCleared(id, _) => NoneShown(p.conditions, ConditionKey, ConditionShown, id)
    case ResourceChanged(id, _, _) => NoneShown(p.resources, ResourceKey, ResourceShown, id)
    case GmNoteAdded(_, _) => true
  }

  predicate HiddenClockChange(clocks: seq<ClockState>, c: ClockChange) {
    (c.ClockVisibilityChanged? ==> !c.visibleToPlayer) && NoneShown(clocks, ClockKey, ClockShown, c.clockId)
  }

  predicate HiddenClueChange(clues: seq<ClueState>, c: ClueChange) {
    !c.visibleToPlayer && NoneShown(clues, ClueKey, ClueShown, c.clueId)
  }

  /** Everything the delta does happens where the player cannot see it. */
  ghost predicate HiddenDelta(sc: Scenario, s: WorldState, d: WorldStateDelta) {
    && d.activeSpeakerChange.None?
    && d.locationChange.None?
    && d.eventLogEntries == []
    && (forall f | f in d.factsToAdd :: !f.visibility.PlayerKnown?)
    && (forall c | c in d.actionResolutionChanges :: !c.visibleToPlayer)
    && (forall c | c in d.npcChanges :: HiddenNpcChange(s.npcs, c))
    && (forall c | c in d.factionChanges :: HiddenFactionChange(c))
    && (forall c | c in d.questChanges :: HiddenQuestChange(s.quests, c))
    && (forall c | c in d.clockChanges :: HiddenClockChange(s.clocks, c))
    && (forall c | c in d.relationshipChanges ::
          !RelationshipShown(false, ShownTo(sc, s.npcs), c.sourceId, c.targetId))
    && (forall c | c in d.playerChanges :: HiddenPlayerChange(s.player, c))
    && (forall c | c in d.clueChanges :: HiddenClueChange(s.clues, c))
    && (forall c | c in d.memoryChanges :: HiddenMemoryChange(s.memories, c))
  }

  lemma {:induction false} HiddenFactsAdded(facts: seq<Fact>, adds: seq<FactToAdd>, version: nat)
    requires forall f | f in adds :: !f.visibility.PlayerKnown?
    ensures FilterMap(FactsAdded(facts, adds, version), RedactFact()) == FilterMap(facts, RedactFact())
    decreases |adds|
  {
    if |adds| > 0 {
      InitLast(adds);
      assert forall f | f in Init(adds) :: f in adds;
      HiddenFactsAdded(facts, Init(adds), version);
      var before := FactsAdded(facts, Init(adds), version);
      assert Last(adds) in adds;
      UnseenPush(before, AddedFact(Last(adds), Identifiers.FactId(version, |before| + 1)), RedactFact());
    }
  }

  lemma {:induction false} HiddenFactsLearned(facts: seq<Fact>, changes: seq<NpcChange>, version: nat)
    requires forall c | c in changes && c.KnowledgeAdded? :: !c.visibility.PlayerKnown?
    ensures FilterMap(FactsLearned(facts, changes, version), RedactFact()) == FilterMap(facts, RedactFact())
    decreases |changes|
  {
    if |changes| > 0 {
      InitLast(changes);
      assert forall c | c in Init(changes) :: c in changes;
      HiddenFactsLearned(facts, Init(changes), version);
      var before := FactsLearned(facts, Init(changes), version);
      assert Last(changes) in changes;
      if Last(changes).KnowledgeAdded? {
        UnseenPush(before, LearnedFact(Last(changes), Identifiers.FactId(version, |before| + 1)), RedactFact());
      }
    }
  }

  /** Whatever is shown after was shown before under the same key. */
  ghost predicate StillHidden<T>(before: seq<T>, after: seq<T>, key: T -> EntityKey, shown: T -> bool) {
    forall x | x in after && shown(x) :: exists y :: y in before && key(y) == key(x) && shown(y)
  }

  lemma StillNoneShown<T>(before: seq<T>, after: seq<T>, key: T -> EntityKey, shown: T -> bool, id: EntityKey)
    requires StillHidden(before, after, key, shown) && NoneShown(before, key, shown, id)
    ensures NoneShown(after, key, shown, id)
  {
  }

  /** A patch that keeps keys and shows nothing new keeps hidden what was hidden. */
  lemma PatchStaysHidden<T>(
    first: seq<T>, before: seq<T>, key: T -> EntityKey, shown: T -> bool, hit: T -> bool, patch: T -> T)
    requires StillHidden(first, before, key, shown)
    requires forall x | x in before && hit(x) :: key(patch(x)) == key(x) && (shown(patch(x)) ==> shown(x))
    ensures StillHidden(first, UpdateFirst(before, hit, patch), key, shown)
  {
    var after := UpdateFirst(before, hit, patch);
    forall x | x in after && shown(x) ensures exists y :: y in first && key(y) == key(x) && shown(y) {
      var k :| 0 <= k < |after| && after[k] == x;
      assert before[k] in before;
    }
  }

  lemma PushStaysHidden<T>(first: seq<T>, before: seq<T>, key: T -> EntityKey, shown: T -> bool, x: T)
    requires StillHidden(first, before, key, shown) && !shown(x)
    ensures StillHidden(first, before + [x], key, shown)
  {
  }

  lemma HiddenNpcStep(npcs: seq<NpcState>, before: seq<NpcState>, c: NpcChange, factId: EntityKey)
    requires HiddenNpcChange(npcs, c) && StillHidden(npcs, before, NpcKey, NpcShown)
    ensures var after := UpdateFirst(before, NpcIs(c.npcId), NpcPatch(c, factId));
            && FilterMap(after, RedactNpc()) == FilterMap(before, RedactNpc())
            && StillHidden(npcs, after, NpcKey, NpcShown)
  {
    if !HiddenNpcField(c) {
      StillNoneShown(npcs, before, NpcKey, NpcShown, c.npcId);
      assert forall x | x in before && NpcIs(c.npcId)(x) :: !NpcShown(x);
    }
    PatchStaysHidden(npcs, before, NpcKey, NpcShown, NpcIs(c.npcId), NpcPatch(c, factId));
    UnseenUpdate(before, NpcIs(c.npcId), NpcPatch(c, factId), RedactNpc());
  }

  lemma {:induction false} HiddenNpcs(npcs: seq<NpcState>, facts: seq<Fact>, changes: seq<NpcChange>, version: nat)
    requires forall c | c in changes :: HiddenNpcChange(npcs, c)
    ensures FilterMap(Npcs(npcs, facts, changes, version), RedactNpc()) == FilterMap(npcs, RedactNpc())
    ensures StillHidden(npcs, Npcs(npcs, facts, changes, version), NpcKey, NpcShown)
    decreases |changes|
  {
    if |changes| > 0 {
      InitLast(changes);
      assert forall c | c in Init(changes) :: c in changes;
      HiddenNpcs(npcs, facts, Init(changes), version);
      assert Last(changes) in changes;
      HiddenNpcStep(
        npcs, Npcs(npcs, facts, Init(changes), version), Last(changes), NextFactId(facts, Init(changes), version));
    }
  }

  lemma {:induction false} HiddenFactions(factions: seq<FactionState>, changes: seq<FactionChange>)
    requires forall c | c in changes :: HiddenFactionChange(c)
    ensures FilterMap(Factions(factions, changes), RedactFaction()) == FilterMap(factions, RedactFaction())
    decreases |changes|
  {
    if |changes| > 0 {
      InitLast(changes);
      assert forall c | c in Init(changes) :: c in changes;
      HiddenFactions(factions, Init(changes));
      assert Last(changes) in changes;
      UnseenUpdate(
        Factions(factions, Init(changes)), FactionIs(Last(changes).factionId), FactionPatch(Last(changes)),
        RedactFaction());
    }
  }

  lemma HiddenQuestStep(quests: seq<QuestState>, before: seq<QuestState>, c: QuestChange)
    requires HiddenQuestChange(quests, c) && StillHidden(quests, before, QuestKey, QuestShown)
    ensures var after := UpdateFirst(before, QuestIs(c.questId), QuestPatch(c));
            && FilterMap(after, RedactQuest()) == FilterMap(before, RedactQuest())
            && StillHidden(quests, after, QuestKey, QuestShown)
  {
    if !c.ObjectiveCompleted? {
      StillNoneShown(quests, before, QuestKey, QuestShown, c.questId);
      assert forall x | x in before && QuestIs(c.questId)(x) :: !QuestShown(x);
    }
    PatchStaysHidden(quests, before, QuestKey, QuestShown, QuestIs(c.questId), QuestPatch(c));
    UnseenUpdate(before, QuestIs(c.questId), QuestPatch(c), RedactQuest());
  }

  lemma {:induction false} HiddenQuests(quests: seq<QuestState>, changes: seq<QuestChange>)
    requires forall c | c in changes :: HiddenQuestChange(quests, c)
    ensures FilterMap(Quests(quests, changes), RedactQuest()) == FilterMap(quests, RedactQuest())
    ensures StillHidden(quests, Quests(quests, changes), QuestKey, QuestShown)
    decreases |changes|
  {
    if |changes| > 0 {
      InitLast(changes);
      assert forall c | c in Init(changes) :: c in changes;
      HiddenQuests(quests, Init(changes));
      assert Last(changes) in changes;
      HiddenQuestStep(quests, Quests(quests, Init(changes)), Last(changes));
    }
  }

  lemma HiddenClockStep(clocks: seq<ClockState>, before: seq<ClockState>, c: ClockChange)
    requires HiddenClockChange(clocks, c) && StillHidden(clocks, before, ClockKey, ClockShown)
    ensures var after := UpdateFirst(before, ClockIs(c.clockId), ClockPatch(c));
            && FilterMap(after, RedactClock()) == FilterMap(before, RedactClock())
            && StillHidden(clocks, after, ClockKey, ClockShown)
  {
    StillNoneShown(clocks, before, ClockKey, ClockShown, c.clockId);
    assert forall x | x in before && ClockIs(c.clockId)(x) :: !ClockShown(x);
    PatchStaysHidden(clocks, before, ClockKey, ClockShown, ClockIs(c.clockId), ClockPatch(c));
    UnseenUpdate(before, ClockIs(c.clockId), ClockPatch(c), RedactClock());
  }

  lemma {:induction false} HiddenClocks(clocks: seq<ClockState>, changes: seq<ClockChange>)
    requires forall c | c in changes :: HiddenClockChange(clocks, c)
    ensures FilterMap(Clocks(clocks, changes), RedactClock()) == FilterMap(clocks, RedactClock())
    ensures StillHidden(clocks, Clocks(clocks, changes), ClockKey, ClockShown)
    decreases |changes|
  {
    if |changes| > 0 {
      InitLast(changes);
      assert forall c | c in Init(changes) :: c in changes;
      HiddenClocks(clocks, Init(changes));
      assert Last(changes) in changes;
      HiddenClockStep(clocks, Clocks(clocks, Init(changes)), Last(changes));
    }
  }

  lemma HiddenClueStep(clues: seq<ClueState>, before: seq<ClueState>, change: ClueChange)
    requires HiddenClueChange(clues, change) && StillHidden(clues, before, ClueKey, ClueShown)
    ensures FilterMap(StepClue(before, change), RedactClue()) == FilterMap(before, RedactClue())
    ensures StillHidden(clues, StepClue(before, change), ClueKey, ClueShown)
  {
    StillNoneShown(clues, before, ClueKey, ClueShown, change.clueId);
    assert forall x | x in before && ClueIs(change.clueId)(x) :: !ClueShown(x);
    match change {
      case Discovered(id, text, linked, satisfied, visible, _) =>
        var clue := ClueState(id, text, linked, satisfied, visible);
        if Any(before, ClueIs(id)) {
          UnseenUpdate(before, ClueIs(id), Replace(clue), RedactClue());
          PatchStaysHidden(clues, before, ClueKey, ClueShown, ClueIs(id), Replace(clue));
        } else {
          UnseenPush(before, clue, RedactClue());
          PushStaysHidden(clues, before, ClueKey, ClueShown, clue);
        }
      case ClueVisibilityChanged(id, visible, _) =>
        UnseenUpdate(before, ClueIs(id), WithClueVisibility(visible), RedactClue());
        PatchStaysHidden(clues, before, ClueKey, ClueShown, ClueIs(id), WithClueVisibility(visible));
    }
  }

  lemma {:induction false} HiddenClues(clues: seq<ClueState>, changes: seq<ClueChange>)
    requires forall c | c in changes :: HiddenClueChange(clues, c)
    ensures FilterMap(Clues(clues, changes), RedactClue()) == FilterMap(clues, RedactClue())
    ensures StillHidden(clues, Clues(clues, changes), ClueKey, ClueShown)
    decreases |changes|
  {
    if |changes| > 0 {
      InitLast(changes);
      assert forall c | c in Init(changes) :: c in changes;
      HiddenClues(clues, Init(changes));
      assert Last(changes) in changes;
      HiddenClueStep(clues, Clues(clues, Init(changes)), Last(changes));
    }
  }

  lemma {:induction false} HiddenActions(
    actions: seq<ActionResolution>, changes: seq<ActionResolutionChange>, version: nat)
    requires forall c | c in changes :: !c.visibleToPlayer
    ensures FilterMap(Actions(actions, changes, version), RedactAction()) == FilterMap(actions, RedactAction())
    decreases |changes|
  {
    if |changes| > 0 {
      InitLast(changes);
      assert forall c | c in Init(changes) :: c in changes;
      HiddenActions(actions, Init(changes), version);
      var before := Actions(actions, Init(changes), version);
      assert Last(changes) in changes;
      UnseenPush(before, ResolvedAction(Last(changes), Identifiers.ActionId(version, |before| + 1)), RedactAction());
    }
  }

  lemma HiddenMemoryStep(memories: seq<MemoryEntry>, before: seq<MemoryEntry>, c: MemoryChange, version: nat)
    requires HiddenMemoryChange(memories, c) && StillHidden(memories, before, MemoryKey, MemoryShown)
    ensures FilterMap(StepMemory(before, c, version), RedactMemory()) == FilterMap(before, RedactMemory())
    ensures StillHidden(memories, StepMemory(before, c, version), MemoryKey, MemoryShown)
  {
    match c {
      case MemoryAdded(text, visibility, importance, related, _) =>
        var m := MemoryEntry(
          Identifiers.MemoryId(version, |before| + 1), text, visibility, importance, related, None);
        UnseenPush(before, m, RedactMemory());
        PushStaysHidden(memories, before, MemoryKey, MemoryShown, m);
      case ImportanceChanged(id, importance, _) =>
        StillNoneShown(memories, before, MemoryKey, MemoryShown, id);
        assert forall x | x in before && MemoryIs(id)(x) :: !MemoryShown(x);
        UnseenUpdate(before, MemoryIs(id), WithImportance(importance), RedactMemory());
        PatchStaysHidden(memories, before, MemoryKey, MemoryShown, MemoryIs(id), WithImportance(importance));
    }
  }

  lemma {:induction false} HiddenMemories(memories: seq<MemoryEntry>, changes: seq<MemoryChange>, version: nat)
    requires forall c | c in changes :: HiddenMemoryChange(memories, c)
    ensures FilterMap(Memories(memories, changes, version), RedactMemory()) == FilterMap(memories, RedactMemory())
    ensures StillHidden(memories, Memories(memories, changes, version), MemoryKey, MemoryShown)
    decreases |changes|
  {
    if |changes| > 0 {
      InitLast(changes);
      assert forall c | c in Init(changes) :: c in changes;
      HiddenMemories(memories, Init(changes), version);
      assert Last(changes) in changes;
      HiddenMemoryStep(memories, Memories(memories, Init(changes), version), Last(changes), version);
    }
  }

  lemma HiddenRelationshipStep(rs: seq<RelationshipState>, shown: set<EntityKey>, c: RelationshipChange)
    requires !RelationshipShown(false, shown, c.sourceId, c.targetId)
    ensures FilterMap(StepRelationship(rs, c), RelationshipView(false, shown)) ==
            FilterMap(rs, RelationshipView(false, shown))
  {
    var view := RelationshipView(false, shown);
    if !Any(rs, RelationshipIs(c.sourceId, c.targetId)) {
      UnseenPush(rs, NewRelationship(c.sourceId, c.targetId), view);
    }
    UnseenUpdate(
      WithRelationship(rs, c.sourceId, c.targetId), RelationshipIs(c.sourceId, c.targetId), RelationshipPatch(c), view);
  }

  lemma {:induction false} HiddenRelationships(
    rs: seq<RelationshipState>, shown: set<EntityKey>, changes: seq<RelationshipChange>)
    requires forall c | c in changes :: !RelationshipShown(false, shown, c.sourceId, c.targetId)
    ensures FilterMap(Relationships(rs, changes), RelationshipView(false, shown)) ==
            FilterMap(rs, RelationshipView(false, shown))
    decreases |changes|
  {
    if |changes| > 0 {
      InitLast(changes);
      assert forall c | c in Init(changes) :: c in changes;
      HiddenRelationships(rs, shown, Init(changes));
      assert Last(changes) in changes;
      HiddenRelationshipStep(Relationships(rs, Init(changes)), shown, Last(changes));
    }
  }

  ghost predicate PlayerStillHidden(p: PlayerCharacterState, q: PlayerCharacterState) {
    && StillHidden(p.goals, q.goals, GoalKey, GoalShown)
    && StillHidden(p.conditions, q.conditions, ConditionKey, ConditionShown)
    && StillHidden(p.resources, q.resources, ResourceKey, ResourceShown)
  }

  lemma HiddenGoalStep(p: PlayerCharacterState, q: PlayerCharacterState, id: EntityKey, delta: int)
    requires PlayerStillHidden(p, q) && NoneShown(p.goals, GoalKey, GoalShown, id)
    ensures var goals := UpdateFirst(q.goals, GoalIs(id), WithProgress(delta));
            && FilterMap(goals, GoalView(false)) == FilterMap(q.goals, GoalView(false))
            && StillHidden(p.goals, goals, GoalKey, GoalShown)
  {
    StillNoneShown(p.goals, q.goals, GoalKey, GoalShown, id);
    assert forall x | x in q.goals && GoalIs(id)(x) :: !GoalShown(x);
    UnseenUpdate(q.goals, GoalIs(id), WithProgress(delta), GoalView(false));
    PatchStaysHidden(p.goals, q.goals, GoalKey, GoalShown, GoalIs(id), WithProgress(delta));
  }

  lemma HiddenResourceStep(p: PlayerCharacterState, q: PlayerCharacterState, id: EntityKey, delta: int)
    requires PlayerStillHidden(p, q) && NoneShown(p.resources, ResourceKey, ResourceShown, id)
    ensures var resources := UpdateFirst(q.resources, ResourceIs(id), WithResource(delta));
            && FilterMap(resources, ResourceView(false)) == FilterMap(q.resources, ResourceView(false))
            && StillHidden(p.resources, resources, ResourceKey, ResourceShown)
  {
    StillNoneShown(p.resources, q.resources, ResourceKey, ResourceShown, id);
    assert forall x | x in q.resources && ResourceIs(id)(x) :: !ResourceShown(x);
    UnseenUpdate(q.resources, ResourceIs(id), WithResource(delta), ResourceView(false));
    PatchStaysHidden(p.resources, q.resources, ResourceKey, ResourceShown, ResourceIs(id), WithResource(delta));
  }

  lemma HiddenClearing(p: PlayerCharacterState, q: PlayerCharacterState, id: EntityKey)
    requires PlayerStillHidden(p, q) && NoneShown(p.conditions, ConditionKey, ConditionShown, id)
    ensures var conditions := Filter(q.conditions, ConditionIsNot(id));
            && FilterMap(conditions, ConditionView(false)) == FilterMap(q.conditions, ConditionView(false))
            && StillHidden(p.conditions, conditions, ConditionKey, ConditionShown)
  {
    StillNoneShown(p.conditions, q.conditions, ConditionKey, ConditionShown, id);
    assert forall x | x in q.conditions && !ConditionIsNot(id)(x) :: !ConditionShown(x);
    UnseenFilter(q.conditions, ConditionIsNot(id), ConditionView(false));
  }

  lemma HiddenPlayerStep(p: PlayerCharacterState, q: PlayerCharacterState, c: PlayerChange)
    requires HiddenPlayerChange(p, c) && PlayerStillHidden(p, q)
    ensures RedactPlayer(StepPlayer(q, c)) == RedactPlayer(q)
    ensures PlayerStillHidden(p, StepPlayer(q, c))
  {
    hide FilterMap, StillHidden, NoneShown;
    match c {
      case TraitAdded(id, name, description, visible, _) =>
        UnseenPush(q.traits, PlayerTrait(id, name, description, visible), TraitView(false));
      case GoalAdded(id, name, description, progress, visible, _) =>
        var goal := PlayerGoal(id, name, description, progress, visible);
        UnseenPush(q.goals, goal, GoalView(false));
        PushStaysHidden(p.goals, q.goals, GoalKey, GoalShown, goal);
      case GoalProgressed(id, delta, _) => HiddenGoalStep(p, q, id, delta);
      case ConditionAdded(id, name, description, visible, _) =>
        var condition := PlayerCondition(id, name, description, visible);
        UnseenPush(q.conditions, condition, ConditionView(false));
        PushStaysHidden(p.conditions, q.conditions, ConditionKey, ConditionShown, condition);
      case ConditionCleared(id, _) => HiddenClearing(p, q, id);
      case ResourceChanged(id, delta, _) => HiddenResourceStep(p, q, id, delta);
      case GmNoteAdded(_, _) =>
    }
  }

  lemma {:induction false} HiddenPlayer(p: PlayerCharacterState, changes: seq<PlayerChange>)
    requires forall c | c in changes :: HiddenPlayerChange(p, c)
    ensures RedactPlayer(Player(p, changes)) == RedactPlayer(p)
    ensures PlayerStillHidden(p, Player(p, changes))
    decreases |changes|
  {
    if |changes| > 0 {
      InitLast(changes);
      assert forall c | c in Init(changes) :: c in changes;
      HiddenPlayer(p, Init(changes));
      assert Last(changes) in changes;
      HiddenPlayerStep(p, Player(p, Init(changes)), Last(changes));
    }
  }

  /** The npcs shown are the redacted npcs shown, so the same redaction shows the same npcs. */
  lemma SameRedactionShowsSame(sc: Scenario, npcs: seq<NpcState>, others: seq<NpcState>)
    requires FilterMap(npcs, RedactNpc()) == FilterMap(others, RedactNpc())
    ensures ShownTo(sc, npcs) == ShownTo(sc, others)
  {
    FilterMapFuse(npcs, RedactNpc(), NpcView(sc, false));
    FilterMapFuse(others, RedactNpc(), NpcView(sc, false));
  }

  lemma HiddenFacts(facts: seq<Fact>, adds: seq<FactToAdd>, changes: seq<NpcChange>, version: nat)
    requires forall f | f in adds :: !f.visibility.PlayerKnown?
    requires forall c | c in changes && c.KnowledgeAdded? :: !c.visibility.PlayerKnown?
    ensures FilterMap(FactsLearned(FactsAdded(facts, adds, version), changes, version), RedactFact()) ==
            FilterMap(facts, RedactFact())
  {
    HiddenFactsAdded(facts, adds, version);
    HiddenFactsLearned(FactsAdded(facts, adds, version), changes, version);
  }

  lemma HiddenTurnKeepsFacts(s: WorldState, d: WorldStateDelta)
    requires forall f | f in d.factsToAdd :: !f.visibility.PlayerKnown?
    requires forall c | c in d.npcChanges && c.KnowledgeAdded? :: !c.visibility.PlayerKnown?
    ensures FilterMap(Applied(s, d).facts, RedactFact()) == FilterMap(s.facts, RedactFact())
  {
    hide FilterMap, FactsAdded, FactsLearned, Npcs;
    HiddenFacts(s.facts, d.factsToAdd, d.npcChanges, s.version + 1);
  }

  lemma HiddenTurnKeepsNpcs(s: WorldState, d: WorldStateDelta)
    requires forall c | c in d.npcChanges :: HiddenNpcChange(s.npcs, c)
    ensures FilterMap(Applied(s, d).npcs, RedactNpc()) == FilterMap(s.npcs, RedactNpc())
  {
    hide FilterMap, FactsAdded, FactsLearned, Npcs, HiddenNpcChange;
    HiddenNpcs(s.npcs, FactsAdded(s.facts, d.factsToAdd, s.version + 1), d.npcChanges, s.version + 1);
  }

  lemma HiddenTurnKeepsGroups(s: WorldState, d: WorldStateDelta)
    requires forall c | c in d.factionChanges :: HiddenFactionChange(c)
    requires forall c | c in d.questChanges :: HiddenQuestChange(s.quests, c)
    requires forall c | c in d.clockChanges :: HiddenClockChange(s.clocks, c)
    ensures FilterMap(Applied(s, d).factions, RedactFaction()) == FilterMap(s.factions, RedactFaction())
    ensures FilterMap(Applied(s, d).quests, RedactQuest()) == FilterMap(s.quests, RedactQuest())
    ensures FilterMap(Applied(s, d).clocks, RedactClock()) == FilterMap(s.clocks, RedactClock())
  {
    hide FilterMap, Factions, Quests, Clocks, HiddenFactionChange, HiddenQuestChange, HiddenClockChange;
    HiddenFactions(s.factions, d.factionChanges);
    HiddenQuests(s.quests, d.questChanges);
    HiddenClocks(s.clocks, d.clockChanges);
  }

  lemma HiddenTurnKeepsRecords(s: WorldState, d: WorldStateDelta)
    requires forall c | c in d.actionResolutionChanges :: !c.visibleToPlayer
    requires forall c | c in d.clueChanges :: HiddenClueChange(s.clues, c)
    requires forall c | c in d.memoryChanges :: HiddenMemoryChange(s.memories, c)
    ensures FilterMap(Applied(s, d).actionResolutions, RedactAction()) == FilterMap(s.actionResolutions, RedactAction())
    ensures FilterMap(Applied(s, d).clues, RedactClue()) == FilterMap(s.clues, RedactClue())
    ensures FilterMap(Applied(s, d).memories, RedactMemory()) == FilterMap(s.memories, RedactMemory())
  {
    hide FilterMap, HiddenClueChange, HiddenMemoryChange, StillHidden;
    HiddenActions(s.actionResolutions, d.actionResolutionChanges, s.version + 1);
    HiddenClues(s.clues, d.clueChanges);
    HiddenMemories(s.memories, d.memoryChanges, s.version + 1);
  }

  /** Redaction compares two states list by list. */
  lemma SameRedaction(sc: Scenario, s: WorldState, t: WorldState)
    requires t.sessionId == s.sessionId && t.scenarioId == s.scenarioId && t.recentEvents == s.recentEvents
    requires t.currentLocationId == s.currentLocationId && t.activeSpeakerId == s.activeSpeakerId
    requires FilterMap(t.facts, RedactFact()) == FilterMap(s.facts, RedactFact())
    requires FilterMap(t.npcs, RedactNpc()) == FilterMap(s.npcs, RedactNpc())
    requires FilterMap(t.factions, RedactFaction()) == FilterMap(s.factions, RedactFaction())
    requires FilterMap(t.quests, RedactQuest()) == FilterMap(s.quests, RedactQuest())
    requires FilterMap(t.clocks, RedactClock()) == FilterMap(s.clocks, RedactClock())
    requires FilterMap(t.actionResolutions, RedactAction()) == FilterMap(s.actionResolutions, RedactAction())
    requires FilterMap(t.clues, RedactClue()) == FilterMap(s.clues, RedactClue())
    requires FilterMap(t.memories, RedactMemory()) == FilterMap(s.memories, RedactMemory())
    requires RedactPlayer(t.player) == RedactPlayer(s.player)
    requires var view := RelationshipView(false, ShownTo(sc, s.npcs));
             FilterMap(t.relationships, view) == FilterMap(s.relationships, view)
    ensures Redact(sc, t) == Redact(sc, s).(version := t.version)
  {
    SameRedactionShowsSame(sc, s.npcs, t.npcs);
  }

  lemma HiddenScalars(sc: Scenario, s: WorldState, d: WorldStateDelta)
    requires HiddenDelta(sc, s, d)
    ensures var t := Applied(s, d);
            && t.currentLocationId == s.currentLocationId && t.activeSpeakerId == s.activeSpeakerId
            && t.recentEvents == s.recentEvents
            && t.relationships == Relationships(s.relationships, d.relationshipChanges)
            && t.player == Player(s.player, d.playerChanges)
  {
    assert s.recentEvents + [] == s.recentEvents;
  }

  /** A turn behind the screen changes nothing that survives redaction, except the version. */
  lemma HiddenTurnKeepsRedaction(sc: Scenario, s: WorldState, d: WorldStateDelta)
    requires HiddenDelta(sc, s, d)
    ensures Redact(sc, Applied(s, d)) == Redact(sc, s).(version := s.version + 1)
  {
    HiddenScalars(sc, s, d);
    HiddenTurnKeepsFacts(s, d);
    HiddenTurnKeepsNpcs(s, d);
    HiddenTurnKeepsGroups(s, d);
    HiddenTurnKeepsRecords(s, d);
    HiddenPlayer(s.player, d.playerChanges);
    HiddenRelationships(s.relationships, ShownTo(sc, s.npcs), d.relationshipChanges);
    SameRedaction(sc, s, Applied(s, d));
  }

  /** The player is shown the same before and after a turn behind the screen, apart from its version. */
  lemma HiddenTurnsDoNotShow(sc: Scenario, s: WorldState, d: WorldStateDelta)
    requires HiddenDelta(sc, s, d)
    ensures Project(sc, Applied(s, d), false) == Project(sc, s, false).(stateVersion := s.version + 1)
  {
    ViewFactorsThroughRedaction(sc, s);
    ViewFactorsThroughRedaction(sc, Applied(s, d));
    HiddenTurnKeepsRedaction(sc, s, d);
    var r := Redact(sc, s);
    assert Project(sc, r.(version := s.version + 1), false) == Project(sc, r, false).(stateVersion := s.version + 1);
  }
}
