/** What the validator reports of a refused delta is true of it: the change blamed breaks its own law in that way. */
module DeltaErrors {
  import opened Wrappers
  import opened Sequences
  import opened Text
  import opened Domain
  import opened ScenarioValidation
  import opened DeltaValidation
  import opened LawfulDeltas

  ghost predicate OutOfHundred(value: int) {
    value < -100 || 100 < value
  }

  // ---------- the faults of one change ----------

  ghost predicate HeaderFault(sc: Scenario, d: WorldStateDelta, e: DeltaError) {
    || (e == MissingReason &&
        (|| (d.sceneChange.Some? && !Written(d.sceneChange.value.reason))
         || (d.activeSpeakerChange.Some? && !Written(d.activeSpeakerChange.value.reason))
         || (d.summaryUpdate.Some? && !Written(d.summaryUpdate.value.reason))
         || (d.locationChange.Some? && !Written(d.locationChange.value.reason))))
    || (d.activeSpeakerChange.Some? && d.activeSpeakerChange.value.speakerId.Some?
        && var id := d.activeSpeakerChange.value.speakerId.value;
        e == UnknownEntity("npc", id) && !NpcExists(sc, id))
    || (d.locationChange.Some?
        && var id := d.locationChange.value.locationId;
        e == UnknownEntity("location", id) && !LocationExists(sc, id))
  }

  ghost predicate ActionFault(s: WorldState, d: WorldStateDelta, c: ActionResolutionChange, e: DeltaError) {
    || (e == MissingReason && !Written(c.reason))
    || (e == MissingField("action intent") && !Written(c.intent))
    || (e == MissingField("action consequence") && !Written(c.consequence))
    || (e == MissingActionStakes && forall stake | stake in c.stakes :: !Written(stake))
    || (exists id :: id in c.linkedClockIds && e == UnknownEntity("clock", id) && !ClockExists(s, id))
    || (e == MissingActionConsequence && !Observable(d))
  }

  ghost predicate MemoryFault(s: WorldState, c: MemoryChange, e: DeltaError) {
    || (e == MissingReason && !Written(c.reason))
    || (e == MemoryImportanceOutOfRange(c.importance) && c.importance > 10)
    || (c.ImportanceChanged? && e == UnknownEntity("memory", c.memoryId) &&
        forall m | m in s.memories :: m.id != c.memoryId)
  }

  ghost predicate FactFault(
    lower: string -> string, sc: Scenario, s: WorldState, d: WorldStateDelta, f: FactToAdd, e: DeltaError)
  {
    var named, condition := f.relatedSecretIds, f.revealConditionSatisfied;
    || (e == MissingReason && !Written(f.reason))
    || (f.visibility == PlayerKnown &&
        (|| (e == SecretLeak(f.text) &&
             exists gm :: gm in s.facts && GivesAway(lower, gm, f.text) &&
               (gm.id !in named || condition.None? || gm.revealConditions == []))
         || (e == MissingRevealProof && named != [] && condition.None?)
         || (e == MissingRevealProof && condition.Some? && !ProofShown(s, d, named, condition.value))
         || (condition.Some? &&
             exists id :: id in named && !HasCondition(sc.secrets, id, condition.value.id) &&
               (|| e == UnknownEntity("secret", id)
                || e == UnknownRevealCondition("secret-reveal-proof", condition.value.id)))))
  }

  ghost predicate NpcFault(lower: string -> string, sc: Scenario, s: WorldState, c: NpcChange, e: DeltaError) {
    || (e == UnknownEntity("npc", c.npcId) && !NpcExists(sc, c.npcId))
    || (e == MissingReason && !Written(c.reason))
    || (exists k: nat ::
          && FirstAt(s.npcs, NpcKey, c.npcId, k) && OutOfReach(c, s.npcs[k].status)
          && e.InvalidNpcStatusAction? && e.npcId == c.npcId && e.status == s.npcs[k].status)
    || (c.KnowledgeAdded? && c.visibility == PlayerKnown && e == SecretLeak(c.fact) &&
        exists gm :: gm in s.facts && GivesAway(lower, gm, c.fact))
    || (c.StatusChanged? && c.status == Active && e == InvalidStatus && WasDead(sc, s, c.npcId))
    || (c.NpcLocationChanged? && e == UnknownEntity("location", c.locationId) && !LocationExists(sc, c.locationId))
    || (c.IntentChanged? && c.intent.Some? && e == MissingField("npc intent") && !Written(c.intent.value))
    || (c.OffscreenActionRecorded? && e == MissingField("npc offscreen intent") && !Written(c.offscreenIntent))
    || (c.OffscreenActionRecorded? && e == MissingField("npc offscreen result") && !Written(c.result))
  }

  /** The value reported is the one the change would have led to. */
  ghost predicate FactionFault(sc: Scenario, s: WorldState, c: FactionChange, e: DeltaError) {
    || (e == UnknownEntity("faction", c.factionId) && !FactionExists(sc, c.factionId))
    || (e == MissingReason && !Written(c.reason))
    || (&& c.StandingChanged? && e.StandingOutOfRange? && e.factionId == c.factionId && OutOfHundred(e.standing)
        && (forall k: nat | FirstAt(s.factions, FactionKey, c.factionId, k) ::
              e.standing == s.factions[k].standing + c.standingDelta))
    || (&& c.PressureChanged? && e.PressureOutOfRange? && e.factionId == c.factionId && OutOfHundred(e.pressure)
        && (forall k: nat | FirstAt(s.factions, FactionKey, c.factionId, k) ::
              e.pressure == s.factions[k].pressure + c.delta))
  }

  ghost predicate QuestFault(sc: Scenario, c: QuestChange, e: DeltaError) {
    || (e == UnknownEntity("quest", c.questId) && forall q | q in sc.quests :: q.id != c.questId)
    || (e == MissingReason && !Written(c.reason))
  }

  ghost predicate ClockFault(s: WorldState, c: ClockChange, e: DeltaError) {
    || (e == UnknownEntity("clock", c.clockId) && !ClockExists(s, c.clockId))
    || (e == MissingReason && !Written(c.reason))
    || (exists k: nat ::
          && FirstAt(s.clocks, ClockKey, c.clockId, k)
          && e.ClockOutOfRange? && e.clockId == c.clockId && (e.clockValue < 0 || s.clocks[k].max < e.clockValue)
          && (c.Advanced? ==> e.clockValue == s.clocks[k].current + c.delta)
          && (c.SetValue? ==> e.clockValue == c.value))
  }

  ghost predicate RelationshipFault(sc: Scenario, s: WorldState, c: RelationshipChange, e: DeltaError) {
    || (e == MissingReason && !Written(c.reason))
    || (e == UnknownEntity("relationship source", c.sourceId) && !LawfulEndpoint(sc, c.sourceId))
    || (e == UnknownEntity("relationship target", c.targetId) && !LawfulEndpoint(sc, c.targetId))
    || (&& e.MetricOutOfRange? && e.sourceId == c.sourceId && e.targetId == c.targetId && OutOfHundred(e.metric)
        && (c.TrustChanged? || c.SuspicionChanged? || c.LoyaltyChanged?)
        && (forall k: nat | FirstAt(s.relationships, RelationshipKey, (c.sourceId, c.targetId), k) ::
              var r := s.relationships[k];
              var metric := if c.TrustChanged? then r.trust else if c.SuspicionChanged? then r.suspicion else r.loyalty;
              e.metric == metric + c.delta))
  }

  ghost predicate ItemFault(s: WorldState, c: InventoryChange, e: DeltaError) {
    || (e == MissingReason && !Written(c.reason))
    || (c.ItemAdded? && e == UnknownEntity("inventory item", c.item.id) && !Written(c.item.id))
    || (c.ItemRemoved? && e == UnknownEntity("inventory item", c.itemId) && !ItemExists(s, c.itemId))
    || (c.ItemUpdated? && e == UnknownEntity("inventory item", c.item.id) && !ItemExists(s, c.item.id))
  }

  ghost predicate PlayerFault(p: PlayerCharacterState, c: PlayerChange, e: DeltaError) {
    || (e == MissingReason && !Written(c.reason))
    || (c.TraitAdded? &&
        (|| (e == MissingField("player trait id") && !Written(c.traitId))
         || (e == MissingField("player trait label") && !Written(c.name))
         || (e == MissingField("player trait description") && !Written(c.description))))
    || (c.GoalAdded? &&
        (|| (e == MissingField("player goal id") && !Written(c.goalId))
         || (e == MissingField("player goal label") && !Written(c.name))
         || (e == MissingField("player goal description") && !Written(c.description))
         || (e == GoalProgressOutOfRange(c.progress) && !(0 <= c.progress <= 100))))
    || (c.GoalProgressed? &&
        (|| (e == UnknownEntity("player goal", c.goalId) && forall g | g in p.goals :: g.id != c.goalId)
         || (exists k: nat ::
               && FirstAt(p.goals, GoalKey, c.goalId, k)
               && e == GoalProgressOutOfRange(p.goals[k].progress + c.delta)
               && !(0 <= p.goals[k].progress + c.delta <= 100))))
    || (c.ConditionAdded? &&
        (|| (e == MissingField("player condition id") && !Written(c.conditionId))
         || (e == MissingField("player condition label") && !Written(c.name))
         || (e == MissingField("player condition description") && !Written(c.description))))
    || (c.ConditionCleared? && e == UnknownEntity("player condition", c.conditionId) &&
        forall x | x in p.conditions :: x.id != c.conditionId)
    || (c.ResourceChanged? &&
        (|| (e == UnknownEntity("player resource", c.resourceId) && forall r | r in p.resources :: r.id != c.resourceId)
         || (exists k: nat ::
               && FirstAt(p.resources, ResourceKey, c.resourceId, k)
               && var r := p.resources[k];
               e == ResourceOutOfRange(c.resourceId, r.current + c.delta, r.min, r.max)
               && !(r.min <= r.current + c.delta <= r.max))))
    || (c.GmNoteAdded? && e == MissingField("player gm note") && !Written(c.note))
  }

  ghost predicate ClueFault(sc: Scenario, s: WorldState, d: WorldStateDelta, c: ClueChange, e: DeltaError) {
    || (e == MissingReason && !Written(c.reason))
    || (c.Discovered? &&
        (|| (e == MissingField("clue id") && !Written(c.clueId))
         || (e == MissingField("clue text") && !Written(c.text))
         || (exists x :: x in c.linkedSecretIds && e == UnknownEntity("secret", x) &&
               forall secret | secret in sc.secrets :: secret.id != x)
         || (e == MissingRevealProof && c.linkedSecretIds != [] && c.satisfiedRevealConditions == [])
         || (exists r :: r in c.satisfiedRevealConditions && e == UnknownRevealCondition(c.clueId, r.id) &&
               forall x | x in c.linkedSecretIds :: !HasCondition(sc.secrets, x, r.id))))
    || (c.ClueVisibilityChanged? && e == UnknownEntity("clue", c.clueId)
        && (forall clue | clue in s.clues :: clue.id != c.clueId)
        && (forall other | other in d.clueChanges && other.Discovered? :: other.clueId != c.clueId))
  }

  // ---------- a failed check names a fault ----------

  lemma HeaderFailure(sc: Scenario, d: WorldStateDelta, e: DeltaError)
    requires CheckHeader(sc, d) == Fail(e) || CheckLocation(sc, d) == Fail(e)
    ensures HeaderFault(sc, d, e)
  {
    forall text ensures Written(text) <==> !IsBlank(text) {
      WrittenIff(text);
    }
  }

  lemma ActionFailure(s: WorldState, d: WorldStateDelta, c: ActionResolutionChange, e: DeltaError)
    requires CheckAction(s, d, c) == Fail(e)
    ensures ActionFault(s, d, c, e)
  {
    forall text ensures Written(text) <==> !IsBlank(text) {
      WrittenIff(text);
    }
    assert forall id :: id in ClockIds(s) <==> ClockExists(s, id);
    forall stake | stake in c.stakes ensures exists i :: 0 <= i < |c.stakes| && c.stakes[i] == stake {
    }
  }

  lemma MemoryFailure(s: WorldState, c: MemoryChange, e: DeltaError)
    requires CheckMemory(s, c) == Fail(e)
    ensures MemoryFault(s, c, e)
  {
    WrittenIff(c.reason);
    if c.ImportanceChanged? {
      AnyIff(s.memories, MemoryIs(c.memoryId));
    }
  }

  lemma ProofFailure(
    sc: Scenario, s: WorldState, d: WorldStateDelta, ids: seq<EntityKey>, condition: ConditionRef, e: DeltaError)
    requires CheckRevealProof(sc, s, d, ids, condition) == Fail(e)
    ensures || (e == MissingRevealProof && !ProofShown(s, d, ids, condition))
            || (exists id :: id in ids && !HasCondition(sc.secrets, id, condition.id) &&
                  (|| e == UnknownEntity("secret", id)
                   || e == UnknownRevealCondition("secret-reveal-proof", condition.id)))
  {
    hide ProofShown, ProofInWorld, ProofInDelta, HasCondition, SecretConditions;
    ProofShownIff(s, d, ids, condition);
    forall id ensures HasCondition(sc.secrets, id, condition.id) <==>
                      id in SecretConditions(sc.secrets) && condition.id in SecretConditions(sc.secrets)[id] {
      HasConditionIff(sc.secrets, id, condition.id);
    }
  }

  lemma FactFailure(
    lower: string -> string, sc: Scenario, s: WorldState, d: WorldStateDelta, f: FactToAdd, e: DeltaError)
    requires CheckFact(lower, sc, s, d, f) == Fail(e)
    ensures FactFault(lower, sc, s, d, f, e)
  {
    hide GivesAway, LeaksInto, HasCondition, ProofShown, Written, IsBlank, CheckRevealProof;
    WrittenIff(f.reason);
    forall gm ensures GivesAway(lower, gm, f.text) <==> LeaksInto(lower, gm, f.text) {
      GivesAwayIff(lower, gm, f.text);
    }
    if f.revealConditionSatisfied.Some? {
      var condition := f.revealConditionSatisfied.value;
      if CheckRevealProof(sc, s, d, f.relatedSecretIds, condition) == Fail(e) {
        ProofFailure(sc, s, d, f.relatedSecretIds, condition, e);
      }
    }
  }

  lemma NpcFailure(lower: string -> string, sc: Scenario, s: WorldState, c: NpcChange, e: DeltaError)
    requires CheckNpc(lower, sc, s, c) == Fail(e)
    ensures NpcFault(lower, sc, s, c, e)
  {
    hide WasDead, GivesAway, LeaksInto, CurrentStatus, CheckNpcContent, Written, IsBlank, LocationExists;
    WrittenIff(c.reason);
    assert NpcExists(sc, c.npcId) <==> c.npcId in NpcIds(sc);
    FirstAtIff(s.npcs, NpcKey, c.npcId, NpcIs(c.npcId));
    if NpcExists(sc, c.npcId) && CheckNpcContent(lower, sc, s, c) == Fail(e) {
      NpcContentFailure(lower, sc, s, c, e);
    }
  }

  lemma NpcContentFailure(lower: string -> string, sc: Scenario, s: WorldState, c: NpcChange, e: DeltaError)
    requires NpcExists(sc, c.npcId) && CheckNpcContent(lower, sc, s, c) == Fail(e)
    ensures NpcFault(lower, sc, s, c, e)
  {
    hide WasDead, GivesAway, LeaksInto, CurrentStatus, OutOfReach;
    forall text ensures Written(text) <==> !IsBlank(text) {
      WrittenIff(text);
    }
    WasDeadIff(sc, s, c.npcId);
    if c.KnowledgeAdded? {
      var leaked := LeakedGmOnlyFacts(lower, s, c.fact);
      assert |leaked| > 0 ==> leaked[0] in leaked;
      forall gm ensures GivesAway(lower, gm, c.fact) <==> LeaksInto(lower, gm, c.fact) {
        GivesAwayIff(lower, gm, c.fact);
      }
    }
  }

  lemma FactionFailure(sc: Scenario, s: WorldState, c: FactionChange, e: DeltaError)
    requires CheckFaction(sc, s, c) == Fail(e)
    ensures FactionFault(sc, s, c, e)
  {
    WrittenIff(c.reason);
    assert FactionExists(sc, c.factionId) <==> c.factionId in FactionIds(sc);
    FirstAtIff(s.factions, FactionKey, c.factionId, FactionIs(c.factionId));
  }

  lemma QuestFailure(sc: Scenario, c: QuestChange, e: DeltaError)
    requires CheckQuest(sc, c) == Fail(e)
    ensures QuestFault(sc, c, e)
  {
    WrittenIff(c.reason);
  }

  lemma RelationshipFailure(sc: Scenario, s: WorldState, c: RelationshipChange, e: DeltaError)
    requires CheckRelationship(sc, s, c) == Fail(e)
    ensures RelationshipFault(sc, s, c, e)
  {
    hide LawfulEndpoint, KnownEndpoint, Written, IsBlank;
    WrittenIff(c.reason);
    EndpointIff(sc, c.sourceId);
    EndpointIff(sc, c.targetId);
    var pair := (c.sourceId, c.targetId);
    assert forall r :: RelationshipKey(r) == pair <==> r.sourceId == c.sourceId && r.targetId == c.targetId;
    FirstAtIff(s.relationships, RelationshipKey, pair, RelationshipIs(c.sourceId, c.targetId));
  }

  lemma ClockFailure(s: WorldState, c: ClockChange, e: DeltaError)
    requires CheckClock(s, c) == Fail(e)
    ensures ClockFault(s, c, e)
  {
    WrittenIff(c.reason);
    assert ClockExists(s, c.clockId) <==> c.clockId in ClockIds(s);
    FirstAtIff(s.clocks, ClockKey, c.clockId, ClockIs(c.clockId));
  }

  lemma ItemFailure(s: WorldState, c: InventoryChange, e: DeltaError)
    requires CheckInventory(s, c) == Fail(e)
    ensures ItemFault(s, c, e)
  {
    forall text ensures Written(text) <==> !IsBlank(text) {
      WrittenIff(text);
    }
    assert forall id :: ItemExists(s, id) <==> id in ItemIds(s);
  }

  lemma PlayerFailure(s: WorldState, c: PlayerChange, e: DeltaError)
    requires CheckPlayer(s, c) == Fail(e)
    ensures PlayerFault(s.player, c, e)
  {
    forall text ensures Written(text) <==> !IsBlank(text) {
      WrittenIff(text);
    }
    match c {
      case GoalProgressed(id, _, _) => FirstAtIff(s.player.goals, GoalKey, id, GoalIs(id));
      case ConditionCleared(id, _) => AnyIff(s.player.conditions, ConditionIs(id));
      case ResourceChanged(id, _, _) => FirstAtIff(s.player.resources, ResourceKey, id, ResourceIs(id));
      case _ =>
    }
  }

  lemma ClueFailure(sc: Scenario, s: WorldState, d: WorldStateDelta, c: ClueChange, e: DeltaError)
    requires CheckClue(sc, s, d, c) == Fail(e)
    ensures ClueFault(sc, s, d, c, e)
  {
    hide HasCondition, SecretConditions;
    forall text ensures Written(text) <==> !IsBlank(text) {
      WrittenIff(text);
    }
    if c.Discovered? {
      forall x, r: ConditionRef
        ensures HasCondition(sc.secrets, x, r.id) <==>
                x in SecretConditions(sc.secrets) && r.id in SecretConditions(sc.secrets)[x] {
        HasConditionIff(sc.secrets, x, r.id);
      }
    } else {
      AnyIff(s.clues, ClueIs(c.clueId));
    }
  }

  // ---------- the whole delta ----------

  /** Something in the delta has exactly the fault that the error reports. */
  ghost predicate Fault(lower: string -> string, sc: Scenario, s: WorldState, d: WorldStateDelta, e: DeltaError) {
    || HeaderFault(sc, d, e)
    || (exists c :: c in d.actionResolutionChanges && ActionFault(s, d, c, e))
    || (exists c :: c in d.memoryChanges && MemoryFault(s, c, e))
    || (exists f :: f in d.factsToAdd && FactFault(lower, sc, s, d, f, e))
    || (exists c :: c in d.npcChanges && NpcFault(lower, sc, s, c, e))
    || (exists c :: c in d.factionChanges && FactionFault(sc, s, c, e))
    || (exists c :: c in d.questChanges && QuestFault(sc, c, e))
    || (exists c :: c in d.clockChanges && ClockFault(s, c, e))
    || (exists c :: c in d.relationshipChanges && RelationshipFault(sc, s, c, e))
    || (exists c :: c in d.inventoryChanges && ItemFault(s, c, e))
    || (exists c :: c in d.playerChanges && PlayerFault(s.player, c, e))
    || (exists c :: c in d.clueChanges && ClueFault(sc, s, d, c, e))
  }

  lemma CastFailure(lower: string -> string, sc: Scenario, s: WorldState, d: WorldStateDelta, e: DeltaError)
    requires CheckCast(lower, sc, s, d) == Fail(e)
    ensures || (exists c :: c in d.actionResolutionChanges && CheckAction(s, d, c) == Fail(e))
            || (exists c :: c in d.memoryChanges && CheckMemory(s, c) == Fail(e))
            || (exists f :: f in d.factsToAdd && CheckFact(lower, sc, s, d, f) == Fail(e))
            || (exists c :: c in d.npcChanges && CheckNpc(lower, sc, s, c) == Fail(e))
  {
    hide CheckAction, CheckMemory, CheckFact, CheckNpc;
  }

  lemma GroupsFailure(sc: Scenario, s: WorldState, d: WorldStateDelta, e: DeltaError)
    requires CheckGroups(sc, s, d) == Fail(e)
    ensures || (exists c :: c in d.factionChanges && CheckFaction(sc, s, c) == Fail(e))
            || (exists c :: c in d.questChanges && CheckQuest(sc, c) == Fail(e))
            || (exists c :: c in d.clockChanges && CheckClock(s, c) == Fail(e))
            || (exists c :: c in d.relationshipChanges && CheckRelationship(sc, s, c) == Fail(e))
  {
    hide CheckFaction, CheckQuest, CheckClock, CheckRelationship;
  }

  lemma PossessionsFailure(sc: Scenario, s: WorldState, d: WorldStateDelta, e: DeltaError)
    requires CheckPossessions(sc, s, d) == Fail(e)
    ensures || (exists c :: c in d.inventoryChanges && CheckInventory(s, c) == Fail(e))
            || (exists c :: c in d.playerChanges && CheckPlayer(s, c) == Fail(e))
            || (exists c :: c in d.clueChanges && CheckClue(sc, s, d, c) == Fail(e))
  {
    hide CheckInventory, CheckPlayer, CheckClue;
  }

  /** The error reported of a refused delta is a fault the delta has. */
  lemma ReportedFaultIsReal(lower: string -> string, sc: Scenario, s: WorldState, d: WorldStateDelta, e: DeltaError)
    requires Validate(lower, sc, s, d) == Fail(e)
    ensures Fault(lower, sc, s, d, e)
  {
    hide HeaderFault, ActionFault, MemoryFault, FactFault, NpcFault, FactionFault, QuestFault, ClockFault;
    hide RelationshipFault, ItemFault, PlayerFault, ClueFault, CheckCast, CheckGroups, CheckPossessions;
    hide CheckHeader, CheckLocation, CheckAction, CheckMemory, CheckFact, CheckNpc, CheckFaction, CheckQuest;
    hide CheckClock, CheckRelationship, CheckInventory, CheckPlayer, CheckClue;
    if CheckHeader(sc, d) == Fail(e) || CheckLocation(sc, d) == Fail(e) {
      HeaderFailure(sc, d, e);
    } else if CheckCast(lower, sc, s, d) == Fail(e) {
      CastFailure(lower, sc, s, d, e);
      if c :| c in d.actionResolutionChanges && CheckAction(s, d, c) == Fail(e) { ActionFailure(s, d, c, e); }
      if c :| c in d.memoryChanges && CheckMemory(s, c) == Fail(e) { MemoryFailure(s, c, e); }
      if f :| f in d.factsToAdd && CheckFact(lower, sc, s, d, f) == Fail(e) { FactFailure(lower, sc, s, d, f, e); }
      if c :| c in d.npcChanges && CheckNpc(lower, sc, s, c) == Fail(e) { NpcFailure(lower, sc, s, c, e); }
    } else if CheckGroups(sc, s, d) == Fail(e) {
      GroupsFailure(sc, s, d, e);
      if c :| c in d.factionChanges && CheckFaction(sc, s, c) == Fail(e) { FactionFailure(sc, s, c, e); }
      if c :| c in d.questChanges && CheckQuest(sc, c) == Fail(e) { QuestFailure(sc, c, e); }
      if c :| c in d.clockChanges && CheckClock(s, c) == Fail(e) { ClockFailure(s, c, e); }
      if c :| c in d.relationshipChanges && CheckRelationship(sc, s, c) == Fail(e) { RelationshipFailure(sc, s, c, e); }
    } else {
      PossessionsFailure(sc, s, d, e);
      if c :| c in d.inventoryChanges && CheckInventory(s, c) == Fail(e) { ItemFailure(s, c, e); }
      if c :| c in d.playerChanges && CheckPlayer(s, c) == Fail(e) { PlayerFailure(s, c, e); }
      if c :| c in d.clueChanges && CheckClue(sc, s, d, c) == Fail(e) { ClueFailure(sc, s, d, c, e); }
    }
  }
}
