/**
 What turns leave in the records and registers of a session: facts and actions are logs of literal
 records numbered by position, and place, scene, speaker and summary hold the last value written.
 */
module TurnEffects {
  import opened Wrappers
  import opened Sequences
  import opened Identifiers
  import opened Domain
  import opened Reduction
  import opened Rosters
  import opened Sessions
  import opened ScenarioValidation
  import opened WorldInvariant
  import opened KeyedLists
  import opened Metrics
  import opened RecordLists

  // ---------- action resolutions ----------

  /** An action resolution is recorded as it was proposed. */
  predicate Resolves(a: ActionResolution, c: ActionResolutionChange, id: EntityKey) {
    a == ActionResolution(id, c.intent, c.stakes, c.outcome, c.consequence, c.visibleToPlayer, c.linkedClockIds)
  }

  /** From a position on, `actions` holds the resolutions of `changes`, numbered by position. */
  ghost predicate ResolvesAll(
    actions: seq<ActionResolution>, from: nat, changes: seq<ActionResolutionChange>, version: nat)
  {
    && |actions| == from + |changes|
    && forall k | 0 <= k < |changes| :: Resolves(actions[from + k], changes[k], ActionId(version, from + k + 1))
  }

  lemma {:induction false} ActionsAreALog(
    actions: seq<ActionResolution>, changes: seq<ActionResolutionChange>, version: nat)
    ensures actions <= Actions(actions, changes, version)
    ensures ResolvesAll(Actions(actions, changes, version), |actions|, changes, version)
    decreases |changes|
  {
    if |changes| > 0 {
      ActionsAreALog(actions, Init(changes), version);
      assert forall k | 0 <= k < |changes| - 1 :: Init(changes)[k] == changes[k];
    }
  }

  // ---------- facts ----------

  function Taught(): NpcChange -> Option<NpcChange> {
    (c: NpcChange) => if c.KnowledgeAdded? then Some(c) else None
  }

  /** A fact is recorded as it was proposed. */
  predicate Adds(f: Fact, add: FactToAdd, id: EntityKey) {
    f == Fact(
           id, add.text, add.visibility, add.knownBy, FromTurn, add.revealConditions, add.relatedSecretIds,
           add.revealConditionSatisfied)
  }

  /** A fact taught to an npc is known by that npc, belongs to no secret and has no reveal condition. */
  predicate Teaches(f: Fact, c: NpcChange, id: EntityKey) {
    c.KnowledgeAdded? && f == Fact(id, c.fact, c.visibility, [c.npcId], FromTurn, [], [], None)
  }

  ghost predicate AddsAll(facts: seq<Fact>, from: nat, adds: seq<FactToAdd>, version: nat) {
    && from + |adds| <= |facts|
    && forall k | 0 <= k < |adds| :: Adds(facts[from + k], adds[k], FactId(version, from + k + 1))
  }

  ghost predicate TeachesAll(facts: seq<Fact>, from: nat, taught: seq<NpcChange>, version: nat) {
    && from + |taught| == |facts|
    && forall k | 0 <= k < |taught| :: Teaches(facts[from + k], taught[k], FactId(version, from + k + 1))
  }

  lemma {:induction false} FactsAddedAre(facts: seq<Fact>, adds: seq<FactToAdd>, version: nat)
    ensures facts <= FactsAdded(facts, adds, version)
    ensures AddsAll(FactsAdded(facts, adds, version), |facts|, adds, version)
    decreases |adds|
  {
    if |adds| > 0 {
      FactsAddedAre(facts, Init(adds), version);
      assert forall k | 0 <= k < |adds| - 1 :: Init(adds)[k] == adds[k];
    }
  }

  lemma {:induction false} FactsTaughtAre(facts: seq<Fact>, changes: seq<NpcChange>, version: nat)
    ensures facts <= FactsLearned(facts, changes, version)
    ensures TeachesAll(FactsLearned(facts, changes, version), |facts|, FilterMap(changes, Taught()), version)
    decreases |changes|
  {
    if |changes| > 0 {
      FactsTaughtAre(facts, Init(changes), version);
      FilterMapLast(changes, Taught());
    }
  }

  lemma LongerListAdds(facts: seq<Fact>, more: seq<Fact>, from: nat, adds: seq<FactToAdd>, version: nat)
    requires AddsAll(facts, from, adds, version) && facts <= more
    ensures AddsAll(more, from, adds, version)
  {
    hide Adds, FactId;
    forall k | 0 <= k < |adds| ensures Adds(more[from + k], adds[k], FactId(version, from + k + 1)) {
      assert more[from + k] == facts[from + k];
    }
  }

  /** The facts after a turn: the old ones, then those it adds, then those it teaches, numbered by position. */
  lemma FactsAreALog(s: WorldState, d: WorldStateDelta)
    ensures var after := Applied(s, d).facts;
            && s.facts <= after
            && AddsAll(after, |s.facts|, d.factsToAdd, s.version + 1)
            && TeachesAll(after, |s.facts| + |d.factsToAdd|, FilterMap(d.npcChanges, Taught()), s.version + 1)
  {
    hide FactsAdded, FactsLearned, FilterMap, AddsAll, TeachesAll, Npcs;
    var added := FactsAdded(s.facts, d.factsToAdd, s.version + 1);
    FactsAddedAre(s.facts, d.factsToAdd, s.version + 1);
    FactsTaughtAre(added, d.npcChanges, s.version + 1);
    LongerListAdds(added, Applied(s, d).facts, |s.facts|, d.factsToAdd, s.version + 1);
  }

  // ---------- registers ----------

  function PlaceWrites(): WorldStateDelta -> Option<Option<EntityKey>> {
    (d: WorldStateDelta) => if d.locationChange.Some? then Some(Some(d.locationChange.value.locationId)) else None
  }

  function SceneWrites(): WorldStateDelta -> Option<Option<string>> {
    (d: WorldStateDelta) => if d.sceneChange.Some? then Some(d.sceneChange.value.scene) else None
  }

  function SpeakerWrites(): WorldStateDelta -> Option<Option<EntityKey>> {
    (d: WorldStateDelta) => if d.activeSpeakerChange.Some? then Some(d.activeSpeakerChange.value.speakerId) else None
  }

  function SummaryWrites(): WorldStateDelta -> Option<Option<string>> {
    (d: WorldStateDelta) => if d.summaryUpdate.Some? then Some(d.summaryUpdate.value.summary) else None
  }

  /** After any turns, place, scene, speaker and summary are what was written last, if anything was. */
  lemma {:induction false} RegistersOfRun(s0: WorldState, deltas: seq<WorldStateDelta>)
    ensures var t := StateAfter(s0, deltas);
            && t.currentLocationId == LastOr(FilterMap(deltas, PlaceWrites()), s0.currentLocationId)
            && t.currentScene == LastOr(FilterMap(deltas, SceneWrites()), s0.currentScene)
            && t.activeSpeakerId == LastOr(FilterMap(deltas, SpeakerWrites()), s0.activeSpeakerId)
            && t.summary == LastOr(FilterMap(deltas, SummaryWrites()), s0.summary)
    decreases |deltas|
  {
    if |deltas| > 0 {
      RegistersOfRun(s0, Init(deltas));
      RegisterStep(deltas, PlaceWrites(), s0.currentLocationId);
      RegisterStep(deltas, SceneWrites(), s0.currentScene);
      RegisterStep(deltas, SpeakerWrites(), s0.activeSpeakerId);
      RegisterStep(deltas, SummaryWrites(), s0.summary);
      LastTurn(s0, deltas);
    }
  }

  // ---------- the whole state ----------

  /** Cast, factions, quests and clocks after a turn, each read from its own list of changes alone. */
  lemma RostersAfterTurn(sc: Scenario, s: WorldState, d: WorldStateDelta, k: nat)
    requires DistinctIds(sc) && RosterInv(sc, s)
    ensures var t, facts := Applied(s, d), FactsAdded(s.facts, d.factsToAdd, s.version + 1);
            && |t.npcs| == |s.npcs| && |t.factions| == |s.factions|
            && |t.quests| == |s.quests| && |t.clocks| == |s.clocks|
            && (k < |s.npcs| ==> t.npcs[k] == NpcAfter(s.npcs[k], facts, d.npcChanges, s.version + 1))
            && (k < |s.factions| ==> t.factions[k] == FactionAfter(s.factions[k], d.factionChanges))
            && (k < |s.quests| ==> t.quests[k] == QuestAfter(s.quests[k], d.questChanges))
            && (k < |s.clocks| ==> t.clocks[k] == ClockAfter(s.clocks[k], d.clockChanges))
  {
    hide Npcs, Factions, Quests, Clocks, NpcAfter, FactionAfter, QuestAfter, ClockAfter, FactsAdded, FactsLearned;
    hide Relationships, Inventory, Player, Clues, Memories, Actions;
    RosterKeysUnique(sc, s);
    NpcRoster(s.npcs, FactsAdded(s.facts, d.factsToAdd, s.version + 1), d.npcChanges, s.version + 1);
    FactionRoster(s.factions, d.factionChanges);
    QuestRoster(s.quests, d.questChanges);
    ClockRoster(s.clocks, d.clockChanges);
  }

  /** Inventory, clues and relationships after a turn, as maps by their keys. */
  lemma TablesAfterTurn(s: WorldState, d: WorldStateDelta)
    requires KeyInv(s)
    ensures var t := Applied(s, d);
            && Index(t.inventory, ItemKey) == InventoryMap(Index(s.inventory, ItemKey), d.inventoryChanges)
            && Index(t.clues, ClueKey) == ClueMap(Index(s.clues, ClueKey), d.clueChanges)
            && Index(t.relationships, RelationshipKey) ==
               RelationshipMap(Index(s.relationships, RelationshipKey), d.relationshipChanges)
  {
    hide Npcs, Factions, Quests, Clocks, FactsAdded, FactsLearned, Index, InventoryMap, ClueMap, RelationshipMap;
    hide Relationships, Inventory, Player, Clues, Memories, Actions;
    InventoryRefines(s.inventory, d.inventoryChanges);
    CluesRefine(s.clues, d.clueChanges);
    RelationshipsRefine(s.relationships, d.relationshipChanges);
  }

  /** What turns only append to: actions, traits, notes and the event list. */
  lemma LogsAfterTurn(s: WorldState, d: WorldStateDelta)
    ensures var t := Applied(s, d);
            && s.actionResolutions <= t.actionResolutions
            && ResolvesAll(t.actionResolutions, |s.actionResolutions|, d.actionResolutionChanges, s.version + 1)
            && t.player.traits == s.player.traits + FilterMap(d.playerChanges, NewTrait())
            && t.player.gmNotes == s.player.gmNotes + FilterMap(d.playerChanges, NewNote())
            && t.recentEvents == s.recentEvents + d.eventLogEntries
  {
    hide Npcs, Factions, Quests, Clocks, FactsAdded, FactsLearned, ResolvesAll, FilterMap;
    hide Relationships, Inventory, Player, Clues, Memories, Actions;
    ActionsAreALog(s.actionResolutions, d.actionResolutionChanges, s.version + 1);
    TraitsAndNotesAreLogs(s.player, d.playerChanges);
  }

  /** Goals, conditions and memories after a turn whose progress and importance go to goals and memories it found. */
  lemma RecordsAfterTurn(s: WorldState, d: WorldStateDelta, k: nat, condition: PlayerCondition)
    requires forall c | c in d.playerChanges && c.GoalProgressed? :: Any(s.player.goals, GoalIs(c.goalId))
    requires forall c | c in d.memoryChanges && c.ImportanceChanged? :: Any(s.memories, MemoryIs(c.memoryId))
    ensures var t, p, n, m := Applied(s, d), s.player, |s.player.goals|, |s.memories|;
            && n <= |t.player.goals| && m <= |t.memories| && |t.player.resources| == |p.resources|
            && t.player.goals[n..] == FilterMap(d.playerChanges, NewGoal())
            && RecordedFrom(t.memories[m..], FilterMap(d.memoryChanges, MemoryAdds()), s.version + 1, m)
            && (condition in t.player.conditions <==>
                  || (condition in p.conditions && !Clears(d.playerChanges, condition.id))
                  || AddsForGood(d.playerChanges, condition))
            && (k < n ==>
                  t.player.goals[k] ==
                  Progressed(
                    p.goals[k],
                    if FirstIndex(p.goals, GoalIs(p.goals[k].id)) == k
                    then Sum(FilterMap(d.playerChanges, ProgressDeltas(p.goals[k].id))) else 0))
            && (k < m ==>
                  t.memories[k] ==
                  if FirstIndex(s.memories, MemoryIs(s.memories[k].id)) != k then s.memories[k]
                  else
                    s.memories[k].(importance :=
                      LastOr(FilterMap(d.memoryChanges, ImportanceWrites(s.memories[k].id)), s.memories[k].importance)))
  {
    hide Npcs, Factions, Quests, Clocks, FactsAdded, FactsLearned, FilterMap, FirstIndex;
    hide Clears, AddsForGood, RecordedFrom;
    hide Relationships, Inventory, Player, Clues, Memories, Actions, Sum, LastOr, Progressed, Any;
    NewGoals(s.player, d.playerChanges);
    ResourcesKeepPlaces(s.player, d.playerChanges);
    ConditionsLast(s.player, d.playerChanges, condition);
    NewMemories(s.memories, d.memoryChanges, s.version + 1);
    if k < |s.player.goals| {
      GoalProgress(s.player, d.playerChanges, k);
    }
    if k < |s.memories| {
      OldMemory(s.memories, d.memoryChanges, s.version + 1, k);
    }
  }
}
