/**
 `BasicWorldStateReducer::apply` as the program runs it: one loop per list of changes, over a state that
 is overwritten in place. Each loop is proved against the fold of the same list in `Reduction`.
 */
module Reducer {
  import opened Wrappers
  import opened Sequences
  import opened Identifiers
  import opened Domain
  import opened Reduction

  method ReduceMemories(memories0: seq<MemoryEntry>, changes: seq<MemoryChange>, version: nat)
    returns (memories: seq<MemoryEntry>)
    ensures memories == Memories(memories0, changes, version + 1)
  {
    memories := memories0;
    for i := 0 to |changes|
      invariant memories == Memories(memories0, changes[..i], version + 1)
    {
      PrefixStep(changes, i);
      match changes[i] {
        case MemoryAdded(text, visibility, importance, related, _) =>
          var id := MemoryId(version + 1, |memories| + 1);
          memories := memories + [MemoryEntry(id, text, visibility, importance, related, None)];
        case ImportanceChanged(memoryId, importance, _) =>
          var k := FirstIndex(memories, MemoryIs(memoryId));
          if k < |memories| {
            memories := memories[k := memories[k].(importance := importance)];
          }
      }
    }
    assert changes[..|changes|] == changes;
  }

  method ReduceFacts(facts0: seq<Fact>, adds: seq<FactToAdd>, version: nat) returns (facts: seq<Fact>)
    ensures facts == FactsAdded(facts0, adds, version + 1)
  {
    facts := facts0;
    for i := 0 to |adds|
      invariant facts == FactsAdded(facts0, adds[..i], version + 1)
    {
      PrefixStep(adds, i);
      var fact := adds[i];
      var id := FactId(version + 1, |facts| + 1);
      facts := facts + [Fact(id, fact.text, fact.visibility, fact.knownBy, FromTurn, fact.revealConditions,
                             fact.relatedSecretIds, fact.revealConditionSatisfied)];
    }
    assert adds[..|adds|] == adds;
  }

  method ReduceActions(actions0: seq<ActionResolution>, changes: seq<ActionResolutionChange>, version: nat)
    returns (actions: seq<ActionResolution>)
    ensures actions == Actions(actions0, changes, version + 1)
  {
    actions := actions0;
    for i := 0 to |changes|
      invariant actions == Actions(actions0, changes[..i], version + 1)
    {
      PrefixStep(changes, i);
      var Recorded(intent, stakes, outcome, consequence, visible, linked, _) := changes[i];
      var id := ActionId(version + 1, |actions| + 1);
      actions := actions + [ActionResolution(id, intent, stakes, outcome, consequence, visible, linked)];
    }
    assert changes[..|changes|] == changes;
  }

  /** The npc loop writes both the npc roster and the fact list, whose length numbers the next fact. */
  method ReduceNpcs(npcs0: seq<NpcState>, facts0: seq<Fact>, changes: seq<NpcChange>, version: nat)
    returns (npcs: seq<NpcState>, facts: seq<Fact>)
    ensures npcs == Npcs(npcs0, facts0, changes, version + 1)
    ensures facts == FactsLearned(facts0, changes, version + 1)
  {
    npcs, facts := npcs0, facts0;
    for i := 0 to |changes|
      invariant npcs == Npcs(npcs0, facts0, changes[..i], version + 1)
      invariant facts == FactsLearned(facts0, changes[..i], version + 1)
    {
      PrefixStep(changes, i);
      var k := FirstIndex(npcs, NpcIs(changes[i].npcId));
      var found := k < |npcs|;
      match changes[i] {
        case AttitudeChanged(_, attitude, _) =>
          if found { npcs := npcs[k := npcs[k].(attitudeToPlayer := Some(attitude))]; }
        case KnowledgeAdded(npcId, text, visibility, _) =>
          var factId := FactId(version + 1, |facts| + 1);
          facts := facts + [Fact(factId, text, visibility, [npcId], FromTurn, [], [], None)];
          if found { npcs := npcs[k := npcs[k].(knownFacts := npcs[k].knownFacts + [factId])]; }
        case StatusChanged(_, status, _) =>
          if found { npcs := npcs[k := npcs[k].(status := status)]; }
        case NpcLocationChanged(_, locationId, _) =>
          if found { npcs := npcs[k := npcs[k].(locationId := Some(locationId))]; }
        case NpcNoteAdded(_, note, _) =>
          if found { npcs := npcs[k := npcs[k].(notes := npcs[k].notes + [note])]; }
        case NpcVisibilityChanged(_, visible, _) =>
          if found { npcs := npcs[k := npcs[k].(visibleToPlayer := visible)]; }
        case AvailabilityChanged(_, availability, _) =>
          if found { npcs := npcs[k := npcs[k].(availability := availability)]; }
        case IntentChanged(_, intent, _) =>
          if found { npcs := npcs[k := npcs[k].(currentIntent := intent)]; }
        case OffscreenActionRecorded(_, intent, result, visible, _) =>
          var action := OffscreenAction(intent, result, visible);
          if found { npcs := npcs[k := npcs[k].(offscreenActions := npcs[k].offscreenActions + [action])]; }
      }
    }
    assert changes[..|changes|] == changes;
  }

  method ReduceFactions(factions0: seq<FactionState>, changes: seq<FactionChange>)
    returns (factions: seq<FactionState>)
    ensures factions == Factions(factions0, changes)
  {
    factions := factions0;
    for i := 0 to |changes|
      invariant factions == Factions(factions0, changes[..i])
    {
      PrefixStep(changes, i);
      var k := FirstIndex(factions, FactionIs(changes[i].factionId));
      if k < |factions| {
        var f := factions[k];
        match changes[i] {
          case StandingChanged(_, delta, _) => f := f.(standing := f.standing + delta);
          case GoalRevealed(_, goal, _) => f := f.(revealedGoals := f.revealedGoals + [goal]);
          case PublicNoteAdded(_, note, _) => f := f.(publicNotes := f.publicNotes + [note]);
          case HiddenNoteAdded(_, note, _) => f := f.(hiddenNotes := f.hiddenNotes + [note]);
          case PressureChanged(_, delta, _, _) => f := f.(pressure := f.pressure + delta);
          case PublicPressureNoteAdded(_, note, _) => f := f.(publicPressureNotes := f.publicPressureNotes + [note]);
          case HiddenPressureNoteAdded(_, note, _) => f := f.(hiddenPressureNotes := f.hiddenPressureNotes + [note]);
        }
        factions := factions[k := f];
      }
    }
    assert changes[..|changes|] == changes;
  }

  method ReduceQuests(quests0: seq<QuestState>, changes: seq<QuestChange>) returns (quests: seq<QuestState>)
    ensures quests == Quests(quests0, changes)
  {
    quests := quests0;
    for i := 0 to |changes|
      invariant quests == Quests(quests0, changes[..i])
    {
      PrefixStep(changes, i);
      var k := FirstIndex(quests, QuestIs(changes[i].questId));
      if k < |quests| {
        var q := quests[k];
        match changes[i] {
          case Started(_, _) => q := q.(status := QuestActive);
          case ObjectiveCompleted(_, objectiveId, _) =>
            if objectiveId !in q.completedObjectives {
              q := q.(completedObjectives := q.completedObjectives + [objectiveId]);
            }
          case Completed(_, _) => q := q.(status := QuestCompleted);
          case Failed(_, _) => q := q.(status := QuestFailed);
        }
        quests := quests[k := q];
      }
    }
    assert changes[..|changes|] == changes;
  }

  method ReduceClocks(clocks0: seq<ClockState>, changes: seq<ClockChange>) returns (clocks: seq<ClockState>)
    ensures clocks == Clocks(clocks0, changes)
  {
    clocks := clocks0;
    for i := 0 to |changes|
      invariant clocks == Clocks(clocks0, changes[..i])
    {
      PrefixStep(changes, i);
      var k := FirstIndex(clocks, ClockIs(changes[i].clockId));
      if k < |clocks| {
        var c := clocks[k];
        match changes[i] {
          case Advanced(_, delta, _) => c := c.(current := Clamp(c.current + delta, c.max));
          case SetValue(_, value, _) => c := c.(current := if value <= c.max then value else c.max);
          case ClockVisibilityChanged(_, visible, _) => c := c.(visibleToPlayer := visible);
        }
        clocks := clocks[k := c];
      }
    }
    assert changes[..|changes|] == changes;
  }

  method ReduceInventory(items0: seq<InventoryItem>, changes: seq<InventoryChange>)
    returns (items: seq<InventoryItem>)
    ensures items == Inventory(items0, changes)
  {
    items := items0;
    for i := 0 to |changes|
      invariant items == Inventory(items0, changes[..i])
    {
      PrefixStep(changes, i);
      match changes[i] {
        case ItemAdded(item, _) =>
          var k := FirstIndex(items, ItemIs(item.id));
          if k < |items| {
            items := items[k := item];
          } else {
            items := items + [item];
          }
        case ItemRemoved(id, _) =>
          items := Filter(items, ItemIsNot(id));
        case ItemUpdated(item, _) =>
          var k := FirstIndex(items, ItemIs(item.id));
          if k < |items| {
            items := items[k := item];
          }
      }
    }
    assert changes[..|changes|] == changes;
  }

  method ReducePlayer(player0: PlayerCharacterState, changes: seq<PlayerChange>)
    returns (player: PlayerCharacterState)
    ensures player == Player(player0, changes)
  {
    player := player0;
    for i := 0 to |changes|
      invariant player == Player(player0, changes[..i])
    {
      PrefixStep(changes, i);
      match changes[i] {
        case TraitAdded(id, name, description, visible, _) =>
          player := player.(traits := player.traits + [PlayerTrait(id, name, description, visible)]);
        case GoalAdded(id, name, description, progress, visible, _) =>
          player := player.(goals := player.goals + [PlayerGoal(id, name, description, progress, visible)]);
        case GoalProgressed(id, delta, _) =>
          player := player.(goals := UpdateFirst(player.goals, GoalIs(id), WithProgress(delta)));
        case ConditionAdded(id, name, description, visible, _) =>
          player := player.(conditions := player.conditions + [PlayerCondition(id, name, description, visible)]);
        case ConditionCleared(id, _) =>
          player := player.(conditions := Filter(player.conditions, ConditionIsNot(id)));
        case ResourceChanged(id, delta, _) =>
          player := player.(resources := UpdateFirst(player.resources, ResourceIs(id), WithResource(delta)));
        case GmNoteAdded(note, _) =>
          player := player.(gmNotes := player.gmNotes + [note]);
      }
    }
    assert changes[..|changes|] == changes;
  }

  /** `find_or_insert_relationship_mut`: the returned position holds the relationship, inserted if it was missing. */
  method FindOrInsertRelationship(relationships0: seq<RelationshipState>, source: EntityKey, target: EntityKey)
    returns (relationships: seq<RelationshipState>, k: nat)
    ensures relationships == WithRelationship(relationships0, source, target)
    ensures k == FirstIndex(relationships, RelationshipIs(source, target)) < |relationships|
  {
    relationships := relationships0;
    k := FirstIndex(relationships, RelationshipIs(source, target));
    if k == |relationships| {
      relationships := relationships + [NewRelationship(source, target)];
      assert RelationshipIs(source, target)(relationships[k]);
      assert forall j | 0 <= j < k :: relationships[j] == relationships0[j];
    }
  }

  method ReduceRelationships(relationships0: seq<RelationshipState>, changes: seq<RelationshipChange>)
    returns (relationships: seq<RelationshipState>)
    ensures relationships == Relationships(relationships0, changes)
  {
    relationships := relationships0;
    for i := 0 to |changes|
      invariant relationships == Relationships(relationships0, changes[..i])
    {
      PrefixStep(changes, i);
      var k;
      relationships, k := FindOrInsertRelationship(relationships, changes[i].sourceId, changes[i].targetId);
      var r := relationships[k];
      match changes[i] {
        case AttitudeShifted(_, _, delta, _) => r := r.(attitude := r.attitude + delta);
        case RelationshipNoteAdded(_, _, note, _) => r := r.(notes := r.notes + [note]);
        case TrustChanged(_, _, delta, _) => r := r.(trust := r.trust + delta);
        case SuspicionChanged(_, _, delta, _) => r := r.(suspicion := r.suspicion + delta);
        case LoyaltyChanged(_, _, delta, _) => r := r.(loyalty := r.loyalty + delta);
      }
      relationships := relationships[k := r];
    }
    assert changes[..|changes|] == changes;
  }

  method ReduceClues(clues0: seq<ClueState>, changes: seq<ClueChange>) returns (clues: seq<ClueState>)
    ensures clues == Clues(clues0, changes)
  {
    clues := clues0;
    for i := 0 to |changes|
      invariant clues == Clues(clues0, changes[..i])
    {
      PrefixStep(changes, i);
      var k := FirstIndex(clues, ClueIs(changes[i].clueId));
      match changes[i] {
        case Discovered(id, text, linked, satisfied, visible, _) =>
          var clue := ClueState(id, text, linked, satisfied, visible);
          if k < |clues| {
            clues := clues[k := clue];
          } else {
            clues := clues + [clue];
          }
        case ClueVisibilityChanged(_, visible, _) =>
          if k < |clues| {
            clues := clues[k := clues[k].(visibleToPlayer := visible)];
          }
      }
    }
    assert changes[..|changes|] == changes;
  }

  /** The optional single-valued changes that come first. */
  method ReduceScene(s: WorldState, d: WorldStateDelta) returns (state: WorldState)
    ensures state == s.(currentScene := state.currentScene, activeSpeakerId := state.activeSpeakerId,
                        summary := state.summary)
    ensures state.currentScene == Applied(s, d).currentScene
    ensures state.activeSpeakerId == Applied(s, d).activeSpeakerId
    ensures state.summary == Applied(s, d).summary
  {
    state := s;
    if d.sceneChange.Some? {
      state := state.(currentScene := d.sceneChange.value.scene);
    }
    if d.activeSpeakerChange.Some? {
      state := state.(activeSpeakerId := d.activeSpeakerChange.value.speakerId);
    }
    if d.summaryUpdate.Some? {
      state := state.(summary := d.summaryUpdate.value.summary);
    }
  }

  /** The whole reducer: the sequence of loops computes `Applied`. */
  method Apply(s: WorldState, d: WorldStateDelta) returns (state: WorldState)
    ensures state == Applied(s, d)
  {
    hide Actions, Memories, Inventory, Player, Clues, Relationships, Clocks, Quests, Factions;
    hide FactsAdded, FactsLearned, Npcs;
    state := ReduceScene(s, d);
    var memories := ReduceMemories(state.memories, d.memoryChanges, state.version);
    var facts := ReduceFacts(state.facts, d.factsToAdd, state.version);
    var actions := ReduceActions(state.actionResolutions, d.actionResolutionChanges, state.version);
    var npcs;
    npcs, facts := ReduceNpcs(state.npcs, facts, d.npcChanges, state.version);
    var factions := ReduceFactions(state.factions, d.factionChanges);
    var quests := ReduceQuests(state.quests, d.questChanges);
    var clocks := ReduceClocks(state.clocks, d.clockChanges);
    var inventory := ReduceInventory(state.inventory, d.inventoryChanges);
    var player := ReducePlayer(state.player, d.playerChanges);
    var relationships := ReduceRelationships(state.relationships, d.relationshipChanges);
    var clues := ReduceClues(state.clues, d.clueChanges);
    var location := state.currentLocationId;
    if d.locationChange.Some? {
      location := Some(d.locationChange.value.locationId);
    }
    state := state.(
      version := state.version + 1, currentLocationId := location, memories := memories, facts := facts,
      actionResolutions := actions, npcs := npcs, factions := factions, quests := quests, clocks := clocks,
      inventory := inventory, player := player, relationships := relationships, clues := clues,
      recentEvents := state.recentEvents + d.eventLogEntries);
  }
}
