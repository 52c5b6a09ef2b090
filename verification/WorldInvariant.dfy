/**
 What every reachable world state satisfies: rosters stay the scenario's, clocks stay in range, every
 reference names something that exists, keyed lists have unique keys, and generated identifiers
 encode the version and the position they were generated at.
 */
module WorldInvariant {
  import opened Wrappers
  import opened Sequences
  import opened Text
  import opened Identifiers
  import opened Domain
  import opened ScenarioValidation
  import opened DeltaValidation
  import opened Reduction
  import opened Rosters
  import opened Sessions
  import KeyedLists

  // ---------- rosters ----------

  ghost predicate NpcRosterKept(sc: Scenario, npcs: seq<NpcState>) {
    |npcs| == |sc.npcs| && forall k | 0 <= k < |npcs| :: npcs[k].npcId == sc.npcs[k].id
  }

  ghost predicate FactionRosterKept(sc: Scenario, factions: seq<FactionState>) {
    |factions| == |sc.factions| && forall k | 0 <= k < |factions| :: factions[k].factionId == sc.factions[k].id
  }

  ghost predicate QuestRosterKept(sc: Scenario, quests: seq<QuestState>) {
    && |quests| == |sc.quests|
    && forall k | 0 <= k < |quests| ::
         && quests[k].questId == sc.quests[k].id
         && quests[k].visible == sc.quests[k].visible
         && NoDuplicates(quests[k].completedObjectives)
  }

  ghost predicate ClockRosterKept(sc: Scenario, clocks: seq<ClockState>) {
    && |clocks| == |sc.clocks|
    && forall k | 0 <= k < |clocks| ::
         && clocks[k].id == sc.clocks[k].id
         && clocks[k].max == sc.clocks[k].max
         && clocks[k].current <= clocks[k].max
  }

  lemma RosterKeysUnique(sc: Scenario, s: WorldState)
    requires DistinctIds(sc)
    requires NpcRosterKept(sc, s.npcs) && FactionRosterKept(sc, s.factions)
    requires QuestRosterKept(sc, s.quests) && ClockRosterKept(sc, s.clocks)
    ensures Unique(s.npcs, NpcKey) && Unique(s.factions, FactionKey)
    ensures Unique(s.quests, QuestKey) && Unique(s.clocks, ClockKey)
  {
    SameKeysUnique(sc.npcs, ScenarioNpcKey, s.npcs, NpcKey);
    SameKeysUnique(sc.factions, ScenarioFactionKey, s.factions, FactionKey);
    SameKeysUnique(sc.quests, ScenarioQuestKey, s.quests, QuestKey);
    SameKeysUnique(sc.clocks, ScenarioClockKey, s.clocks, ClockKey);
  }

  lemma ClockIdsKept(sc: Scenario, s: WorldState, t: WorldState)
    requires ClockRosterKept(sc, s.clocks) && ClockRosterKept(sc, t.clocks)
    ensures ClockIds(s) <= ClockIds(t)
  {
    forall id | id in ClockIds(s)
      ensures id in ClockIds(t)
    {
      var k :| 0 <= k < |s.clocks| && s.clocks[k].id == id;
      assert t.clocks[k] in t.clocks;
    }
  }

  // ---------- references ----------

  ghost predicate KnownPlace(sc: Scenario, at: Option<EntityKey>) {
    at.Some? ==> at.value in LocationIds(sc)
  }

  ghost predicate PlacesKnown(sc: Scenario, npcs: seq<NpcState>) {
    forall k | 0 <= k < |npcs| :: KnownPlace(sc, npcs[k].locationId)
  }

  ghost predicate SpeakerKnown(sc: Scenario, speaker: Option<EntityKey>) {
    speaker.Some? ==> speaker.value in NpcIds(sc)
  }

  ghost predicate LinksWithin(actions: seq<ActionResolution>, clockIds: set<EntityKey>) {
    forall a, id | a in actions && id in a.linkedClockIds :: id in clockIds
  }

  ghost predicate ActionLinksKnown(s: WorldState) {
    LinksWithin(s.actionResolutions, ClockIds(s))
  }

  ghost predicate ClueLinksGood(sc: Scenario, clues: seq<ClueState>) {
    forall c | c in clues :: GoodLinks(sc, c.linkedSecretIds, c.satisfiedRevealConditions)
  }

  ghost predicate EndpointsKnown(sc: Scenario, relationships: seq<RelationshipState>) {
    forall r | r in relationships :: KnownEndpoint(sc, r.sourceId) && KnownEndpoint(sc, r.targetId)
  }

  // ---------- generated identifiers ----------

  ghost predicate GeneratedAt(id: EntityKey, kind: string, version: nat, position: nat) {
    exists v: nat :: 1 <= v <= version && id == GeneratedId(kind, v, position)
  }

  ghost predicate FactIdsGenerated(sc: Scenario, facts: seq<Fact>, version: nat) {
    && |sc.secrets| <= |facts|
    && (forall k | 0 <= k < |sc.secrets| :: facts[k] == InitialFact(sc.secrets[k]))
    && (forall k | |sc.secrets| <= k < |facts| :: GeneratedAt(facts[k].id, "fact-", version, k + 1))
  }

  ghost predicate MemoriesGood(memories: seq<MemoryEntry>, version: nat) {
    forall k | 0 <= k < |memories| ::
      memories[k].importance <= 10 && GeneratedAt(memories[k].id, "memory-", version, k + 1)
  }

  ghost predicate ActionIdsGenerated(actions: seq<ActionResolution>, version: nat) {
    forall k | 0 <= k < |actions| :: GeneratedAt(actions[k].id, "action-", version, k + 1)
  }

  /** `id` names a fact recorded during play that lists `npcId` among those who know it. */
  ghost predicate RecordsKnowledge(sc: Scenario, facts: seq<Fact>, id: EntityKey, npcId: EntityKey) {
    exists k :: |sc.secrets| <= k < |facts| && facts[k].id == id && npcId in facts[k].knownBy
  }

  ghost predicate KnowledgeRecorded(sc: Scenario, npcs: seq<NpcState>, facts: seq<Fact>) {
    forall n | 0 <= n < |npcs| ::
      && NoDuplicates(npcs[n].knownFacts)
      && forall id | id in npcs[n].knownFacts :: RecordsKnowledge(sc, facts, id, npcs[n].npcId)
  }

  // ---------- the invariant ----------

  ghost predicate RosterInv(sc: Scenario, s: WorldState) {
    && NpcRosterKept(sc, s.npcs)
    && FactionRosterKept(sc, s.factions)
    && QuestRosterKept(sc, s.quests)
    && ClockRosterKept(sc, s.clocks)
  }

  ghost predicate ReferenceInv(sc: Scenario, s: WorldState) {
    && KnownPlace(sc, s.currentLocationId)
    && PlacesKnown(sc, s.npcs)
    && SpeakerKnown(sc, s.activeSpeakerId)
    && ActionLinksKnown(s)
    && ClueLinksGood(sc, s.clues)
    && EndpointsKnown(sc, s.relationships)
  }

  ghost predicate KeyInv(s: WorldState) {
    && Unique(s.inventory, ItemKey)
    && Unique(s.clues, ClueKey)
    && Unique(s.relationships, RelationshipKey)
  }

  ghost predicate IdentifierInv(sc: Scenario, s: WorldState) {
    && FactIdsGenerated(sc, s.facts, s.version)
    && MemoriesGood(s.memories, s.version)
    && ActionIdsGenerated(s.actionResolutions, s.version)
    && KnowledgeRecorded(sc, s.npcs, s.facts)
  }

  ghost predicate WorldInv(sc: Scenario, s: WorldState) {
    RosterInv(sc, s) && ReferenceInv(sc, s) && KeyInv(s) && IdentifierInv(sc, s)
  }

  // ---------- base case ----------

  lemma InitialWorldInv(sessionId: SessionId, sc: Scenario)
    requires ValidScenario(sc)
    ensures WorldInv(sc, InitialWorldState(sessionId, sc))
  {
    var s := InitialWorldState(sessionId, sc);
    forall k | 0 <= k < |sc.clocks| ensures s.clocks[k].current <= s.clocks[k].max {
      assert sc.clocks[k] in sc.clocks;
    }
    if |sc.locations| > 0 {
      assert sc.locations[0] in sc.locations;
    }
    if |sc.npcs| > 0 {
      assert sc.npcs[0] in sc.npcs;
    }
    forall k | 0 <= k < |sc.npcs| ensures KnownPlace(sc, s.npcs[k].locationId) {
      assert sc.npcs[k] in sc.npcs;
      assert s.npcs[k] == InitialNpc(StartLocation(sc))(sc.npcs[k]);
    }
    assert NpcRosterKept(sc, s.npcs) by {
      forall k | 0 <= k < |sc.npcs| ensures s.npcs[k].npcId == sc.npcs[k].id {
        assert s.npcs[k] == InitialNpc(StartLocation(sc))(sc.npcs[k]);
      }
    }
    assert KnowledgeRecorded(sc, s.npcs, s.facts) by {
      forall k | 0 <= k < |sc.npcs| ensures s.npcs[k].knownFacts == [] {
        assert s.npcs[k] == InitialNpc(StartLocation(sc))(sc.npcs[k]);
      }
    }
  }

  // ---------- step: rosters ----------

  lemma NpcsKept(sc: Scenario, npcs: seq<NpcState>, facts: seq<Fact>, changes: seq<NpcChange>, version: nat)
    requires DistinctIds(sc) && NpcRosterKept(sc, npcs)
    ensures NpcRosterKept(sc, Npcs(npcs, facts, changes, version))
  {
    SameKeysUnique(sc.npcs, ScenarioNpcKey, npcs, NpcKey);
    NpcRoster(npcs, facts, changes, version);
  }

  lemma FactionsKept(sc: Scenario, factions: seq<FactionState>, changes: seq<FactionChange>)
    requires DistinctIds(sc) && FactionRosterKept(sc, factions)
    ensures FactionRosterKept(sc, Factions(factions, changes))
  {
    SameKeysUnique(sc.factions, ScenarioFactionKey, factions, FactionKey);
    FactionRoster(factions, changes);
  }

  lemma QuestsKept(sc: Scenario, quests: seq<QuestState>, changes: seq<QuestChange>)
    requires DistinctIds(sc) && QuestRosterKept(sc, quests)
    ensures QuestRosterKept(sc, Quests(quests, changes))
  {
    SameKeysUnique(sc.quests, ScenarioQuestKey, quests, QuestKey);
    QuestRoster(quests, changes);
  }

  lemma ClocksKept(sc: Scenario, clocks: seq<ClockState>, changes: seq<ClockChange>)
    requires DistinctIds(sc) && ClockRosterKept(sc, clocks)
    ensures ClockRosterKept(sc, Clocks(clocks, changes))
  {
    SameKeysUnique(sc.clocks, ScenarioClockKey, clocks, ClockKey);
    ClockRoster(clocks, changes);
  }

  lemma StepRosters(sc: Scenario, s: WorldState, d: WorldStateDelta)
    requires DistinctIds(sc) && RosterInv(sc, s)
    ensures RosterInv(sc, Applied(s, d))
  {
    NpcsKept(sc, s.npcs, FactsAdded(s.facts, d.factsToAdd, s.version + 1), d.npcChanges, s.version + 1);
    FactionsKept(sc, s.factions, d.factionChanges);
    QuestsKept(sc, s.quests, d.questChanges);
    ClocksKept(sc, s.clocks, d.clockChanges);
  }

  // ---------- step: references ----------

  lemma {:induction false} LocationsWrittenAreKnown(
    lower: string -> string, sc: Scenario, s: WorldState, npc: NpcState, changes: seq<NpcChange>)
    requires forall c | c in changes :: CheckNpc(lower, sc, s, c).Pass?
    requires KnownPlace(sc, npc.locationId)
    ensures KnownPlace(sc, LastOr(FilterMap(changes, LocationWrites(npc.npcId)), npc.locationId))
    decreases |changes|
  {
    if |changes| > 0 {
      InitLast(changes);
      assert forall c | c in Init(changes) :: c in changes;
      LocationsWrittenAreKnown(lower, sc, s, npc, Init(changes));
      RegisterStep(changes, LocationWrites(npc.npcId), npc.locationId);
      assert Last(changes) in changes;
    }
  }

  lemma {:induction false} NewActionLinksKnown(s: WorldState, d: WorldStateDelta, changes: seq<ActionResolutionChange>)
    requires ActionLinksKnown(s)
    requires forall c | c in changes :: CheckAction(s, d, c).Pass?
    ensures LinksWithin(Actions(s.actionResolutions, changes, s.version + 1), ClockIds(s))
    decreases |changes|
  {
    if |changes| > 0 {
      InitLast(changes);
      assert forall c | c in Init(changes) :: c in changes;
      NewActionLinksKnown(s, d, Init(changes));
      assert CheckAction(s, d, Last(changes)).Pass?;
    }
  }

  lemma StepClueLinksGood(sc: Scenario, clues: seq<ClueState>, change: ClueChange)
    requires ClueLinksGood(sc, clues)
    requires change.Discovered? ==> GoodLinks(sc, change.linkedSecretIds, change.satisfiedRevealConditions)
    ensures ClueLinksGood(sc, StepClue(clues, change))
  {
    var after := StepClue(clues, change);
    forall c | c in after
      ensures GoodLinks(sc, c.linkedSecretIds, c.satisfiedRevealConditions)
    {
      var k :| 0 <= k < |after| && after[k] == c;
      if change.ClueVisibilityChanged? {
        assert clues[k] in clues;
      }
    }
  }

  lemma {:induction false} NewClueLinksGood(
    sc: Scenario, s: WorldState, d: WorldStateDelta, clues: seq<ClueState>, changes: seq<ClueChange>)
    requires ClueLinksGood(sc, clues)
    requires forall c | c in changes :: CheckClue(sc, s, d, c).Pass?
    ensures ClueLinksGood(sc, Clues(clues, changes))
    decreases |changes|
  {
    if |changes| > 0 {
      InitLast(changes);
      assert forall c | c in Init(changes) :: c in changes;
      NewClueLinksGood(sc, s, d, clues, Init(changes));
      assert CheckClue(sc, s, d, Last(changes)).Pass?;
      StepClueLinksGood(sc, Clues(clues, Init(changes)), Last(changes));
    }
  }

  lemma StepEndpointsKnown(sc: Scenario, relationships: seq<RelationshipState>, change: RelationshipChange)
    requires EndpointsKnown(sc, relationships)
    requires KnownEndpoint(sc, change.sourceId) && KnownEndpoint(sc, change.targetId)
    ensures EndpointsKnown(sc, StepRelationship(relationships, change))
  {
    var inserted := WithRelationship(relationships, change.sourceId, change.targetId);
    var after := StepRelationship(relationships, change);
    forall r | r in after
      ensures KnownEndpoint(sc, r.sourceId) && KnownEndpoint(sc, r.targetId)
    {
      var k :| 0 <= k < |after| && after[k] == r;
      assert inserted[k] in inserted;
      assert r.sourceId == inserted[k].sourceId && r.targetId == inserted[k].targetId;
    }
  }

  lemma {:induction false} NewEndpointsKnown(
    sc: Scenario, s: WorldState, relationships: seq<RelationshipState>, changes: seq<RelationshipChange>)
    requires EndpointsKnown(sc, relationships)
    requires forall c | c in changes :: CheckRelationship(sc, s, c).Pass?
    ensures EndpointsKnown(sc, Relationships(relationships, changes))
    decreases |changes|
  {
    if |changes| > 0 {
      InitLast(changes);
      assert forall c | c in Init(changes) :: c in changes;
      NewEndpointsKnown(sc, s, relationships, Init(changes));
      assert CheckRelationship(sc, s, Last(changes)).Pass?;
      StepEndpointsKnown(sc, Relationships(relationships, Init(changes)), Last(changes));
    }
  }

  lemma NewPlacesKnown(
    lower: string -> string, sc: Scenario, s: WorldState, facts: seq<Fact>, changes: seq<NpcChange>)
    requires Unique(s.npcs, NpcKey) && PlacesKnown(sc, s.npcs)
    requires forall c | c in changes :: CheckNpc(lower, sc, s, c).Pass?
    ensures PlacesKnown(sc, Npcs(s.npcs, facts, changes, s.version + 1))
  {
    NpcRoster(s.npcs, facts, changes, s.version + 1);
    var npcs := Npcs(s.npcs, facts, changes, s.version + 1);
    forall k | 0 <= k < |npcs| ensures KnownPlace(sc, npcs[k].locationId) {
      LocationsWrittenAreKnown(lower, sc, s, s.npcs[k], changes);
    }
  }

  lemma StepPlaces(lower: string -> string, sc: Scenario, s: WorldState, d: WorldStateDelta)
    requires Unique(s.npcs, NpcKey) && PlacesKnown(sc, s.npcs) && KnownPlace(sc, s.currentLocationId)
    requires SpeakerKnown(sc, s.activeSpeakerId)
    requires CheckHeader(sc, d).Pass? && CheckLocation(sc, d).Pass?
    requires forall c | c in d.npcChanges :: CheckNpc(lower, sc, s, c).Pass?
    ensures PlacesKnown(sc, Applied(s, d).npcs) && KnownPlace(sc, Applied(s, d).currentLocationId)
    ensures SpeakerKnown(sc, Applied(s, d).activeSpeakerId)
  {
    NewPlacesKnown(lower, sc, s, FactsAdded(s.facts, d.factsToAdd, s.version + 1), d.npcChanges);
  }

  lemma StepActionLinks(sc: Scenario, s: WorldState, d: WorldStateDelta)
    requires ClockRosterKept(sc, s.clocks) && ClockRosterKept(sc, Applied(s, d).clocks)
    requires ActionLinksKnown(s)
    requires forall c | c in d.actionResolutionChanges :: CheckAction(s, d, c).Pass?
    ensures ActionLinksKnown(Applied(s, d))
  {
    NewActionLinksKnown(s, d, d.actionResolutionChanges);
    ClockIdsKept(sc, s, Applied(s, d));
  }

  lemma StepReferences(lower: string -> string, sc: Scenario, s: WorldState, d: WorldStateDelta)
    requires DistinctIds(sc) && RosterInv(sc, s) && ReferenceInv(sc, s)
    requires Accepts(lower, sc, s, d)
    ensures ReferenceInv(sc, Applied(s, d))
  {
    RosterKeysUnique(sc, s);
    StepRosters(sc, s, d);
    StepPlaces(lower, sc, s, d);
    StepActionLinks(sc, s, d);
    NewClueLinksGood(sc, s, d, s.clues, d.clueChanges);
    NewEndpointsKnown(sc, s, s.relationships, d.relationshipChanges);
  }

  // ---------- step: keys ----------

  lemma StepKeys(s: WorldState, d: WorldStateDelta)
    requires KeyInv(s)
    ensures KeyInv(Applied(s, d))
  {
    KeyedLists.InventoryRefines(s.inventory, d.inventoryChanges);
    KeyedLists.CluesRefine(s.clues, d.clueChanges);
    KeyedLists.RelationshipsRefine(s.relationships, d.relationshipChanges);
  }

  // ---------- step: identifiers ----------

  lemma {:induction false} FactsAddedIds(facts: seq<Fact>, adds: seq<FactToAdd>, version: nat)
    ensures facts <= FactsAdded(facts, adds, version)
    ensures var r := FactsAdded(facts, adds, version);
            forall k | |facts| <= k < |r| ::
              r[k] == AddedFact(adds[k - |facts|], FactId(version, k + 1))
    decreases |adds|
  {
    if |adds| > 0 {
      FactsAddedIds(facts, Init(adds), version);
    }
  }

  lemma {:induction false} FactsLearnedIds(facts: seq<Fact>, changes: seq<NpcChange>, version: nat)
    ensures facts <= FactsLearned(facts, changes, version)
    ensures var r := FactsLearned(facts, changes, version);
            forall k | |facts| <= k < |r| :: r[k].id == FactId(version, k + 1)
    decreases |changes|
  {
    if |changes| > 0 {
      FactsLearnedIds(facts, Init(changes), version);
    }
  }

  lemma PrefixChain(facts: seq<Fact>, added: seq<Fact>, learned: seq<Fact>, version: nat)
    requires facts <= added <= learned
    requires forall k | |facts| <= k < |added| :: added[k].id == FactId(version, k + 1)
    requires forall k | |added| <= k < |learned| :: learned[k].id == FactId(version, k + 1)
    ensures facts <= learned
    ensures forall k | |facts| <= k < |learned| :: learned[k].id == FactId(version, k + 1)
  {
  }

  /** Facts are append-only, and each new one is numbered by its position. */
  lemma FactsGrow(s: WorldState, d: WorldStateDelta)
    ensures s.facts <= Applied(s, d).facts
    ensures forall k | |s.facts| <= k < |Applied(s, d).facts| ::
              Applied(s, d).facts[k].id == FactId(s.version + 1, k + 1)
  {
    var version := s.version + 1;
    var added := FactsAdded(s.facts, d.factsToAdd, version);
    var learned := FactsLearned(added, d.npcChanges, version);
    FactsAddedIds(s.facts, d.factsToAdd, version);
    FactsLearnedIds(added, d.npcChanges, version);
    PrefixChain(s.facts, added, learned, version);
  }

  lemma StepMemoriesGood(memories: seq<MemoryEntry>, change: MemoryChange, version: nat)
    requires MemoriesGood(memories, version) && version >= 1
    requires change.importance <= 10
    ensures |memories| <= |StepMemory(memories, change, version)|
    ensures MemoriesGood(StepMemory(memories, change, version), version)
  {
    var after := StepMemory(memories, change, version);
    forall k | 0 <= k < |after|
      ensures after[k].importance <= 10 && GeneratedAt(after[k].id, "memory-", version, k + 1)
    {
      if k < |memories| {
        assert after[k].id == memories[k].id;
        assert GeneratedAt(memories[k].id, "memory-", version, k + 1);
      } else {
        assert after[k].id == GeneratedId("memory-", version, k + 1);
      }
    }
  }

  lemma {:induction false} NewMemoriesGood(s: WorldState, changes: seq<MemoryChange>)
    requires MemoriesGood(s.memories, s.version)
    requires forall c | c in changes :: CheckMemory(s, c).Pass?
    ensures |s.memories| <= |Memories(s.memories, changes, s.version + 1)|
    ensures MemoriesGood(Memories(s.memories, changes, s.version + 1), s.version + 1)
    decreases |changes|
  {
    if |changes| == 0 {
      forall k | 0 <= k < |s.memories| ensures GeneratedAt(s.memories[k].id, "memory-", s.version + 1, k + 1) {
        assert GeneratedAt(s.memories[k].id, "memory-", s.version, k + 1);
      }
    } else {
      InitLast(changes);
      assert forall c | c in Init(changes) :: c in changes;
      NewMemoriesGood(s, Init(changes));
      assert CheckMemory(s, Last(changes)).Pass?;
      StepMemoriesGood(Memories(s.memories, Init(changes), s.version + 1), Last(changes), s.version + 1);
    }
  }

  lemma {:induction false} NewActionIds(
    actions: seq<ActionResolution>, changes: seq<ActionResolutionChange>, version: nat)
    requires ActionIdsGenerated(actions, version)
    ensures actions <= Actions(actions, changes, version + 1)
    ensures ActionIdsGenerated(Actions(actions, changes, version + 1), version + 1)
    decreases |changes|
  {
    if |changes| == 0 {
      forall k | 0 <= k < |actions| ensures GeneratedAt(actions[k].id, "action-", version + 1, k + 1) {
        assert GeneratedAt(actions[k].id, "action-", version, k + 1);
      }
    } else {
      NewActionIds(actions, Init(changes), version);
    }
  }

  /** The fact `x` is recorded beyond position `from` and lists `npcId`. */
  ghost predicate LearnedBeyond(facts: seq<Fact>, from: nat, x: EntityKey, npcId: EntityKey) {
    exists k :: from <= k < |facts| && facts[k].id == x && npcId in facts[k].knownBy
  }

  lemma LearnedStays(before: seq<Fact>, after: seq<Fact>, from: nat, x: EntityKey, npcId: EntityKey)
    requires before <= after && LearnedBeyond(before, from, x, npcId)
    ensures LearnedBeyond(after, from, x, npcId)
  {
    var k :| from <= k < |before| && before[k].id == x && npcId in before[k].knownBy;
    assert after[k] == before[k];
  }

  lemma LearnedIdIsOld(facts: seq<Fact>, from: nat, x: EntityKey, npcId: EntityKey, version: nat)
    requires forall k | from <= k < |facts| :: facts[k].id == FactId(version, k + 1)
    requires LearnedBeyond(facts, from, x, npcId)
    ensures x != FactId(version, |facts| + 1)
  {
    var k :| from <= k < |facts| && facts[k].id == x && npcId in facts[k].knownBy;
    if x == FactId(version, |facts| + 1) {
      GeneratedIdInjective("fact-", version, k + 1, version, |facts| + 1);
    }
  }

  /** What one turn teaches an npc: new facts, each recorded once, each listing the npc. */
  lemma {:induction false} KnowledgeIdsRecorded(
    id: EntityKey, facts: seq<Fact>, changes: seq<NpcChange>, version: nat)
    ensures forall x | x in KnowledgeIds(id, facts, changes, version) ::
              LearnedBeyond(FactsLearned(facts, changes, version), |facts|, x, id)
    ensures NoDuplicates(KnowledgeIds(id, facts, changes, version))
    decreases |changes|
  {
    if |changes| > 0 {
      KnowledgeIdsRecorded(id, facts, Init(changes), version);
      FactsLearnedIds(facts, Init(changes), version);
      var ids := KnowledgeIds(id, facts, Init(changes), version);
      var before := FactsLearned(facts, Init(changes), version);
      var learned := FactsLearned(facts, changes, version);
      var fresh_ := FactId(version, |before| + 1);
      forall x | x in ids
        ensures LearnedBeyond(learned, |facts|, x, id) && x != fresh_
      {
        LearnedStays(before, learned, |facts|, x, id);
        LearnedIdIsOld(before, |facts|, x, id, version);
      }
      var all := KnowledgeIds(id, facts, changes, version);
      if Last(changes).KnowledgeAdded? && Last(changes).npcId == id {
        assert learned[|before|].id == fresh_ && id in learned[|before|].knownBy;
        assert LearnedBeyond(learned, |facts|, fresh_, id);
        assert all == ids + [fresh_];
      } else {
        assert all == ids;
      }
    }
  }

  lemma GeneratedVersion(id: EntityKey, kind: string, version: nat, position: nat) returns (v: nat)
    requires GeneratedAt(id, kind, version, position)
    ensures 1 <= v <= version && id == GeneratedId(kind, v, position)
  {
    v :| 1 <= v <= version && id == GeneratedId(kind, v, position);
  }

  lemma OldIdsDifferFromNew(sc: Scenario, s: WorldState, k: nat, position: nat)
    requires FactIdsGenerated(sc, s.facts, s.version) && |sc.secrets| <= k < |s.facts|
    ensures s.facts[k].id != FactId(s.version + 1, position)
  {
    var v := GeneratedVersion(s.facts[k].id, "fact-", s.version, k + 1);
    if s.facts[k].id == FactId(s.version + 1, position) {
      GeneratedIdInjective("fact-", v, k + 1, s.version + 1, position);
    }
  }

  /** One npc's list of known facts after a turn: no repetition, and every entry is on record. */
  lemma KnowledgeStays(sc: Scenario, s: WorldState, npc: NpcState, learnt: seq<EntityKey>, facts: seq<Fact>)
    requires FactIdsGenerated(sc, s.facts, s.version) && s.facts <= facts
    requires NoDuplicates(npc.knownFacts) && NoDuplicates(learnt)
    requires forall id | id in npc.knownFacts :: RecordsKnowledge(sc, s.facts, id, npc.npcId)
    requires forall id | id in learnt :: LearnedBeyond(facts, |s.facts|, id, npc.npcId)
    requires forall k | |s.facts| <= k < |facts| :: facts[k].id == FactId(s.version + 1, k + 1)
    ensures NoDuplicates(npc.knownFacts + learnt)
    ensures forall id | id in npc.knownFacts + learnt :: RecordsKnowledge(sc, facts, id, npc.npcId)
  {
    forall id | id in npc.knownFacts
      ensures RecordsKnowledge(sc, facts, id, npc.npcId) && id !in learnt
    {
      var k :| |sc.secrets| <= k < |s.facts| && s.facts[k].id == id && npc.npcId in s.facts[k].knownBy;
      assert facts[k] == s.facts[k];
      if id in learnt {
        var j :| |s.facts| <= j < |facts| && facts[j].id == id && npc.npcId in facts[j].knownBy;
        OldIdsDifferFromNew(sc, s, k, j + 1);
      }
    }
    forall id | id in learnt
      ensures RecordsKnowledge(sc, facts, id, npc.npcId)
    {
      var k :| |s.facts| <= k < |facts| && facts[k].id == id && npc.npcId in facts[k].knownBy;
    }
    NoDuplicatesAppend(npc.knownFacts, learnt);
  }

  lemma LearnedFurther(facts: seq<Fact>, from: nat, to: nat, x: EntityKey, npcId: EntityKey)
    requires from <= to && LearnedBeyond(facts, to, x, npcId)
    ensures LearnedBeyond(facts, from, x, npcId)
  {
    var k :| to <= k < |facts| && facts[k].id == x && npcId in facts[k].knownBy;
  }

  lemma NpcKnowledgeStays(
    sc: Scenario, s: WorldState, added: seq<Fact>, changes: seq<NpcChange>, npc: NpcState)
    requires FactIdsGenerated(sc, s.facts, s.version) && s.facts <= added
    requires NoDuplicates(npc.knownFacts)
    requires forall id | id in npc.knownFacts :: RecordsKnowledge(sc, s.facts, id, npc.npcId)
    requires forall k | |s.facts| <= k < |added| :: added[k].id == FactId(s.version + 1, k + 1)
    ensures var after := NpcAfter(npc, added, changes, s.version + 1);
            && NoDuplicates(after.knownFacts)
            && forall id | id in after.knownFacts ::
                 RecordsKnowledge(sc, FactsLearned(added, changes, s.version + 1), id, npc.npcId)
  {
    var learnt := KnowledgeIds(npc.npcId, added, changes, s.version + 1);
    var facts := FactsLearned(added, changes, s.version + 1);
    FactsLearnedIds(added, changes, s.version + 1);
    PrefixChain(s.facts, added, facts, s.version + 1);
    KnowledgeIdsRecorded(npc.npcId, added, changes, s.version + 1);
    forall x | x in learnt ensures LearnedBeyond(facts, |s.facts|, x, npc.npcId) {
      LearnedFurther(facts, |s.facts|, |added|, x, npc.npcId);
    }
    KnowledgeStays(sc, s, npc, learnt, facts);
  }

  lemma RosterKnowledgeStays(
    sc: Scenario, s: WorldState, added: seq<Fact>, changes: seq<NpcChange>)
    requires DistinctIds(sc) && NpcRosterKept(sc, s.npcs)
    requires FactIdsGenerated(sc, s.facts, s.version) && KnowledgeRecorded(sc, s.npcs, s.facts)
    requires s.facts <= added
    requires forall k | |s.facts| <= k < |added| :: added[k].id == FactId(s.version + 1, k + 1)
    ensures KnowledgeRecorded(
              sc, Npcs(s.npcs, added, changes, s.version + 1), FactsLearned(added, changes, s.version + 1))
  {
    SameKeysUnique(sc.npcs, ScenarioNpcKey, s.npcs, NpcKey);
    NpcRoster(s.npcs, added, changes, s.version + 1);
    var npcs := Npcs(s.npcs, added, changes, s.version + 1);
    var facts := FactsLearned(added, changes, s.version + 1);
    forall n | 0 <= n < |npcs|
      ensures NoDuplicates(npcs[n].knownFacts)
      ensures forall id | id in npcs[n].knownFacts :: RecordsKnowledge(sc, facts, id, npcs[n].npcId)
    {
      NpcKnowledgeStays(sc, s, added, changes, s.npcs[n]);
    }
  }

  lemma StepKnowledge(sc: Scenario, s: WorldState, d: WorldStateDelta)
    requires DistinctIds(sc) && RosterInv(sc, s)
    requires FactIdsGenerated(sc, s.facts, s.version) && KnowledgeRecorded(sc, s.npcs, s.facts)
    ensures KnowledgeRecorded(sc, Applied(s, d).npcs, Applied(s, d).facts)
  {
    hide KnowledgeRecorded, FactIdsGenerated, FactsLearned;
    FactsAddedIds(s.facts, d.factsToAdd, s.version + 1);
    RosterKnowledgeStays(sc, s, FactsAdded(s.facts, d.factsToAdd, s.version + 1), d.npcChanges);
  }

  lemma FactIdsStayGenerated(sc: Scenario, before: seq<Fact>, after: seq<Fact>, version: nat)
    requires FactIdsGenerated(sc, before, version) && before <= after
    requires forall k | |before| <= k < |after| :: after[k].id == FactId(version + 1, k + 1)
    ensures FactIdsGenerated(sc, after, version + 1)
  {
    forall k | |sc.secrets| <= k < |after| ensures GeneratedAt(after[k].id, "fact-", version + 1, k + 1) {
      if k < |before| {
        assert after[k] == before[k];
        assert GeneratedAt(before[k].id, "fact-", version, k + 1);
      }
    }
  }

  lemma StepFactIds(sc: Scenario, s: WorldState, d: WorldStateDelta)
    requires FactIdsGenerated(sc, s.facts, s.version)
    ensures FactIdsGenerated(sc, Applied(s, d).facts, s.version + 1)
  {
    FactsGrow(s, d);
    FactIdsStayGenerated(sc, s.facts, Applied(s, d).facts, s.version);
  }

  lemma StepIdentifiers(sc: Scenario, s: WorldState, d: WorldStateDelta)
    requires DistinctIds(sc) && RosterInv(sc, s) && IdentifierInv(sc, s)
    requires forall c | c in d.memoryChanges :: CheckMemory(s, c).Pass?
    ensures IdentifierInv(sc, Applied(s, d))
  {
    hide FactIdsGenerated, MemoriesGood, ActionIdsGenerated, KnowledgeRecorded, RosterInv;
    hide Memories, Actions, FactsAdded, FactsLearned, Npcs, CheckMemory;
    StepFactIds(sc, s, d);
    NewMemoriesGood(s, d.memoryChanges);
    NewActionIds(s.actionResolutions, d.actionResolutionChanges, s.version);
    StepKnowledge(sc, s, d);
  }

  // ---------- the theorem ----------

  lemma StepWorldInv(lower: string -> string, sc: Scenario, s: WorldState, d: WorldStateDelta)
    requires ValidScenario(sc) && WorldInv(sc, s) && Accepts(lower, sc, s, d)
    ensures WorldInv(sc, Applied(s, d))
  {
    StepRosters(sc, s, d);
    StepReferences(lower, sc, s, d);
    StepKeys(s, d);
    StepIdentifiers(sc, s, d);
  }

  /** Every state reached by accepted turns from a validated scenario satisfies the invariant. */
  lemma {:induction false} ReachableWorldInv(
    lower: string -> string, sc: Scenario, sessionId: SessionId, deltas: seq<WorldStateDelta>)
    requires ValidScenario(sc)
    requires AcceptedRun(lower, sc, InitialWorldState(sessionId, sc), deltas)
    ensures WorldInv(sc, StateAfter(InitialWorldState(sessionId, sc), deltas))
    decreases |deltas|
  {
    if |deltas| == 0 {
      InitialWorldInv(sessionId, sc);
    } else {
      ReachableWorldInv(lower, sc, sessionId, Init(deltas));
      StepWorldInv(lower, sc, StateAfter(InitialWorldState(sessionId, sc), Init(deltas)), Last(deltas));
    }
  }

  /** In a reachable state every npc, faction, quest and clock change of an accepted delta finds its entity. */
  lemma NoChangeIsDropped(lower: string -> string, sc: Scenario, s: WorldState, d: WorldStateDelta)
    requires ValidScenario(sc) && RosterInv(sc, s) && Accepts(lower, sc, s, d)
    ensures forall c | c in d.npcChanges :: Any(s.npcs, NpcIs(c.npcId))
    ensures forall c | c in d.factionChanges :: Any(s.factions, FactionIs(c.factionId))
    ensures forall c | c in d.questChanges :: Any(s.quests, QuestIs(c.questId))
    ensures forall c | c in d.clockChanges :: Any(s.clocks, ClockIs(c.clockId))
  {
    hide CheckAction, CheckMemory, CheckFact, CheckRelationship, CheckPossessions;
    forall c | c in d.npcChanges ensures Any(s.npcs, NpcIs(c.npcId)) {
      assert CheckNpc(lower, sc, s, c).Pass?;
      var n :| n in sc.npcs && n.id == c.npcId;
      var k :| 0 <= k < |sc.npcs| && sc.npcs[k] == n;
      assert NpcIs(c.npcId)(s.npcs[k]);
    }
    forall c | c in d.factionChanges ensures Any(s.factions, FactionIs(c.factionId)) {
      assert CheckFaction(sc, s, c).Pass?;
      var f :| f in sc.factions && f.id == c.factionId;
      var k :| 0 <= k < |sc.factions| && sc.factions[k] == f;
      assert FactionIs(c.factionId)(s.factions[k]);
    }
    forall c | c in d.questChanges ensures Any(s.quests, QuestIs(c.questId)) {
      assert CheckQuest(sc, c).Pass?;
      var q :| q in sc.quests && q.id == c.questId;
      var k :| 0 <= k < |sc.quests| && sc.quests[k] == q;
      assert QuestIs(c.questId)(s.quests[k]);
    }
    forall c | c in d.clockChanges ensures Any(s.clocks, ClockIs(c.clockId)) {
      assert CheckClock(s, c).Pass?;
      var k :| 0 <= k < |s.clocks| && s.clocks[k].id == c.clockId;
      assert ClockIs(c.clockId)(s.clocks[k]);
    }
  }
}
