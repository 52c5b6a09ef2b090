/**
 What a delta must satisfy to be accepted, change by change, said of the scenario, the state before the
 turn and the delta alone. The validator accepts exactly the lawful deltas, and what it reports of the
 others is true of them. `lower` stands for `str::to_lowercase`.
 */
module LawfulDeltas {
  import opened Wrappers
  import opened Sequences
  import opened Text
  import opened Domain
  import opened ScenarioValidation
  import opened DeltaValidation

  /** Some character of the text is not white space. */
  ghost predicate Written(text: string) {
    exists c :: c in text && !IsWhitespace(c)
  }

  lemma WrittenIff(text: string)
    ensures Written(text) <==> !IsBlank(text)
  {
    if !IsBlank(text) {
      var i :| 0 <= i < |text| && !IsWhitespace(text[i]);
      assert text[i] in text;
    }
  }

  /** The place where a search from the front finds the key. */
  ghost predicate FirstAt<T, K>(xs: seq<T>, key: T -> K, k: K, i: nat) {
    i < |xs| && key(xs[i]) == k && forall j | 0 <= j < i :: key(xs[j]) != k
  }

  lemma FirstAtIff<T, K>(xs: seq<T>, key: T -> K, k: K, hit: T -> bool)
    requires forall x :: hit(x) <==> key(x) == k
    ensures forall i: nat :: FirstAt(xs, key, k, i) <==> i == FirstIndex(xs, hit) < |xs|
    ensures (exists x :: x in xs && key(x) == k) <==> Any(xs, hit)
  {
    AnyIff(xs, hit);
    forall i: nat ensures FirstAt(xs, key, k, i) <==> i == FirstIndex(xs, hit) < |xs| {
      var first := FirstIndex(xs, hit);
      if FirstAt(xs, key, k, i) {
        assert hit(xs[i]);
        assert !(first < i);
      }
    }
  }

  ghost predicate NpcExists(sc: Scenario, id: EntityKey) {
    exists n :: n in sc.npcs && n.id == id
  }

  ghost predicate FactionExists(sc: Scenario, id: EntityKey) {
    exists f :: f in sc.factions && f.id == id
  }

  ghost predicate LocationExists(sc: Scenario, id: EntityKey) {
    exists l :: l in sc.locations && l.id == id
  }

  ghost predicate ClockExists(s: WorldState, id: EntityKey) {
    exists c :: c in s.clocks && c.id == id
  }

  ghost predicate ItemExists(s: WorldState, id: EntityKey) {
    exists i :: i in s.inventory && i.id == id
  }

  // ---------- secrets and proofs ----------

  /** The secret that counts for an identifier: the last one, should there be several. */
  ghost predicate LastAt(secrets: seq<Secret>, id: EntityKey, k: nat) {
    k < |secrets| && secrets[k].id == id && forall j | k < j < |secrets| :: secrets[j].id != id
  }

  ghost predicate Offers(secret: Secret, conditionId: EntityKey) {
    exists c :: c in secret.revealConditions && c.id == conditionId
  }

  ghost predicate HasCondition(secrets: seq<Secret>, secretId: EntityKey, conditionId: EntityKey) {
    exists k: nat :: LastAt(secrets, secretId, k) && Offers(secrets[k], conditionId)
  }

  lemma LastSecretDecides(secrets: seq<Secret>, secretId: EntityKey, conditionId: EntityKey)
    requires |secrets| > 0
    ensures HasCondition(secrets, secretId, conditionId) <==>
            if Last(secrets).id == secretId then Offers(Last(secrets), conditionId)
            else HasCondition(Init(secrets), secretId, conditionId)
  {
    hide Offers;
    var n, before := |secrets| - 1, Init(secrets);
    if secrets[n].id == secretId {
      assert LastAt(secrets, secretId, n);
    } else {
      forall k: nat | k < n ensures LastAt(secrets, secretId, k) <==> LastAt(before, secretId, k) {
        assert forall j | 0 <= j < n :: before[j] == secrets[j];
      }
    }
  }

  lemma {:induction false} HasConditionIff(secrets: seq<Secret>, secretId: EntityKey, conditionId: EntityKey)
    ensures HasCondition(secrets, secretId, conditionId) <==>
            secretId in SecretConditions(secrets) && conditionId in SecretConditions(secrets)[secretId]
    decreases |secrets|
  {
    if |secrets| > 0 {
      HasConditionIff(Init(secrets), secretId, conditionId);
      LastSecretDecides(secrets, secretId, conditionId);
      assert Offers(Last(secrets), conditionId) <==> conditionId in ConditionIds(Last(secrets));
      hide HasCondition, Offers, ConditionIds;
    }
  }

  /** The text of a GM-only fact occurs in `text`, letter case aside. */
  ghost predicate GivesAway(lower: string -> string, gm: Fact, text: string) {
    && gm.visibility == GmOnly
    && Written(gm.text)
    && exists i: nat :: OccursAt(lower(text), lower(gm.text), i)
  }

  lemma GivesAwayIff(lower: string -> string, gm: Fact, text: string)
    ensures GivesAway(lower, gm, text) <==> LeaksInto(lower, gm, text)
  {
    WrittenIff(gm.text);
    ContainsIff(lower(text), lower(gm.text));
  }

  ghost predicate Links(linked: seq<EntityKey>, satisfied: seq<ConditionRef>, ids: seq<EntityKey>, c: ConditionRef) {
    (forall id | id in ids :: id in linked) && c in satisfied
  }

  /** A clue that the player sees, or that this delta shows the player, links all the secrets and the condition. */
  ghost predicate ProofShown(s: WorldState, d: WorldStateDelta, ids: seq<EntityKey>, c: ConditionRef) {
    || (exists clue ::
          && clue in s.clues && clue.visibleToPlayer
          && Links(clue.linkedSecretIds, clue.satisfiedRevealConditions, ids, c))
    || (exists change ::
          && change in d.clueChanges && change.Discovered? && change.visibleToPlayer
          && Links(change.linkedSecretIds, change.satisfiedRevealConditions, ids, c))
    || (exists change, k: nat ::
          && change in d.clueChanges && change.ClueVisibilityChanged? && change.visibleToPlayer
          && FirstAt(s.clues, ClueKey, change.clueId, k)
          && Links(s.clues[k].linkedSecretIds, s.clues[k].satisfiedRevealConditions, ids, c))
  }

  lemma ProofShownIff(s: WorldState, d: WorldStateDelta, ids: seq<EntityKey>, c: ConditionRef)
    ensures ProofShown(s, d, ids, c) <==> ProofInWorld(s, ids, c) || ProofInDelta(s, d, ids, c)
  {
    if ProofInDelta(s, d, ids, c) {
      var change :| change in d.clueChanges && ChangeProves(s, change, ids, c);
      FirstAtIff(s.clues, ClueKey, change.clueId, ClueIs(change.clueId));
      if change.ClueVisibilityChanged? {
        assert FirstAt(s.clues, ClueKey, change.clueId, FirstIndex(s.clues, ClueIs(change.clueId)));
      }
    }
    if change, k: nat :|
        && change in d.clueChanges && change.ClueVisibilityChanged? && change.visibleToPlayer
        && FirstAt(s.clues, ClueKey, change.clueId, k)
        && Links(s.clues[k].linkedSecretIds, s.clues[k].satisfiedRevealConditions, ids, c)
    {
      FirstAtIff(s.clues, ClueKey, change.clueId, ClueIs(change.clueId));
      assert ChangeProves(s, change, ids, c);
    }
    if change :|
        && change in d.clueChanges && change.Discovered? && change.visibleToPlayer
        && Links(change.linkedSecretIds, change.satisfiedRevealConditions, ids, c)
    {
      assert ChangeProves(s, change, ids, c);
    }
  }

  // ---------- the law, list by list ----------

  ghost predicate LawfulHeader(sc: Scenario, d: WorldStateDelta) {
    && (d.sceneChange.Some? ==> Written(d.sceneChange.value.reason))
    && (d.activeSpeakerChange.Some? ==>
          var change := d.activeSpeakerChange.value;
          Written(change.reason) && (change.speakerId.Some? ==> NpcExists(sc, change.speakerId.value)))
    && (d.summaryUpdate.Some? ==> Written(d.summaryUpdate.value.reason))
    && (d.locationChange.Some? ==>
          LocationExists(sc, d.locationChange.value.locationId) && Written(d.locationChange.value.reason))
  }

  lemma HeaderIff(sc: Scenario, d: WorldStateDelta)
    ensures LawfulHeader(sc, d) <==> CheckHeader(sc, d).Pass? && CheckLocation(sc, d).Pass?
  {
    forall text ensures Written(text) <==> !IsBlank(text) {
      WrittenIff(text);
    }
  }

  /** The delta says something besides scene, speaker, summary, actions and memories. */
  ghost predicate Observable(d: WorldStateDelta) {
    d != WorldStateDelta(
           d.sceneChange, d.activeSpeakerChange, [], d.actionResolutionChanges, [], [], [], [], [], [], [], [], None,
           d.summaryUpdate, d.memoryChanges, [])
  }

  ghost predicate LawfulAction(s: WorldState, d: WorldStateDelta, c: ActionResolutionChange) {
    && Written(c.reason) && Written(c.intent) && Written(c.consequence)
    && (exists stake :: stake in c.stakes && Written(stake))
    && (forall id | id in c.linkedClockIds :: ClockExists(s, id))
    && Observable(d)
  }

  lemma ActionIff(s: WorldState, d: WorldStateDelta, c: ActionResolutionChange)
    ensures LawfulAction(s, d, c) <==> CheckAction(s, d, c).Pass?
  {
    forall text ensures Written(text) <==> !IsBlank(text) {
      WrittenIff(text);
    }
    assert forall id :: id in ClockIds(s) <==> ClockExists(s, id);
    if i :| 0 <= i < |c.stakes| && !IsBlank(c.stakes[i]) {
      assert c.stakes[i] in c.stakes;
    }
  }

  ghost predicate LawfulMemory(s: WorldState, c: MemoryChange) {
    && Written(c.reason)
    && c.importance <= 10
    && (c.ImportanceChanged? ==> exists m :: m in s.memories && m.id == c.memoryId)
  }

  lemma MemoryIff(s: WorldState, c: MemoryChange)
    ensures LawfulMemory(s, c) <==> CheckMemory(s, c).Pass?
  {
    WrittenIff(c.reason);
    if c.ImportanceChanged? {
      AnyIff(s.memories, MemoryIs(c.memoryId));
    }
  }

  /** A player fact gives away a GM-only text only as a proven reveal of the secret that has it. */
  ghost predicate LawfulFact(
    lower: string -> string, sc: Scenario, s: WorldState, d: WorldStateDelta, f: FactToAdd)
  {
    var named, condition := f.relatedSecretIds, f.revealConditionSatisfied;
    && Written(f.reason)
    && (f.visibility == PlayerKnown ==>
          && (forall gm | gm in s.facts && GivesAway(lower, gm, f.text) ::
                gm.id in named && condition.Some? && gm.revealConditions != [])
          && (named != [] ==> condition.Some?)
          && (condition.Some? ==>
                && (forall id | id in named :: HasCondition(sc.secrets, id, condition.value.id))
                && ProofShown(s, d, named, condition.value)))
  }

  lemma FactIff(lower: string -> string, sc: Scenario, s: WorldState, d: WorldStateDelta, f: FactToAdd)
    ensures LawfulFact(lower, sc, s, d, f) <==> CheckFact(lower, sc, s, d, f).Pass?
  {
    WrittenIff(f.reason);
    forall gm ensures GivesAway(lower, gm, f.text) <==> LeaksInto(lower, gm, f.text) {
      GivesAwayIff(lower, gm, f.text);
    }
    if f.revealConditionSatisfied.Some? {
      var condition := f.revealConditionSatisfied.value;
      forall id ensures HasCondition(sc.secrets, id, condition.id) <==>
                        id in SecretConditions(sc.secrets) && condition.id in SecretConditions(sc.secrets)[id] {
        HasConditionIff(sc.secrets, id, condition.id);
      }
      ProofShownIff(s, d, f.relatedSecretIds, condition);
    }
    hide GivesAway, LeaksInto, HasCondition, ProofShown, ProofInWorld, ProofInDelta, SecretConditions, Written, IsBlank;
  }

  /** What an npc of that status cannot do. */
  predicate OutOfReach(c: NpcChange, status: NpcStatus) {
    || (status == Dead && c.NpcLocationChanged?)
    || ((status == Dead || status == Unconscious) &&
        (c.KnowledgeAdded? || c.AttitudeChanged? || c.IntentChanged? || c.OffscreenActionRecorded?))
  }

  /** The npc was dead before the turn; one that has no state yet is what its scenario says. */
  ghost predicate WasDead(sc: Scenario, s: WorldState, id: EntityKey) {
    || (exists k: nat :: FirstAt(s.npcs, NpcKey, id, k) && s.npcs[k].status == Dead)
    || ((forall n | n in s.npcs :: n.npcId != id) &&
        exists k: nat :: FirstAt(sc.npcs, ScenarioNpcKey, id, k) && sc.npcs[k].initialStatus == Dead)
  }

  ghost predicate LawfulNpc(lower: string -> string, sc: Scenario, s: WorldState, c: NpcChange) {
    && NpcExists(sc, c.npcId)
    && Written(c.reason)
    && (forall k: nat | FirstAt(s.npcs, NpcKey, c.npcId, k) :: !OutOfReach(c, s.npcs[k].status))
    && (c.KnowledgeAdded? && c.visibility == PlayerKnown ==>
          forall gm | gm in s.facts :: !GivesAway(lower, gm, c.fact))
    && (c.StatusChanged? && c.status == Active ==> !WasDead(sc, s, c.npcId))
    && (c.NpcLocationChanged? ==> LocationExists(sc, c.locationId))
    && (c.IntentChanged? && c.intent.Some? ==> Written(c.intent.value))
    && (c.OffscreenActionRecorded? ==> Written(c.offscreenIntent) && Written(c.result))
  }

  lemma WasDeadIff(sc: Scenario, s: WorldState, id: EntityKey)
    ensures WasDead(sc, s, id) <==> CurrentStatus(sc, s, id) == Some(Dead)
    ensures NpcExists(sc, id) ==> CurrentStatus(sc, s, id).Some?
  {
    FirstAtIff(s.npcs, NpcKey, id, NpcIs(id));
    FirstAtIff(sc.npcs, ScenarioNpcKey, id, ScenarioNpcIs(id));
  }

  lemma NpcContentIff(lower: string -> string, sc: Scenario, s: WorldState, c: NpcChange)
    requires NpcExists(sc, c.npcId)
    ensures CheckNpcContent(lower, sc, s, c).Pass? <==>
            && (c.KnowledgeAdded? && c.visibility == PlayerKnown ==>
                  forall gm | gm in s.facts :: !GivesAway(lower, gm, c.fact))
            && (c.StatusChanged? && c.status == Active ==> !WasDead(sc, s, c.npcId))
            && (c.NpcLocationChanged? ==> LocationExists(sc, c.locationId))
            && (c.IntentChanged? && c.intent.Some? ==> Written(c.intent.value))
            && (c.OffscreenActionRecorded? ==> Written(c.offscreenIntent) && Written(c.result))
  {
    hide WasDead, GivesAway, LeaksInto, CurrentStatus;
    forall text ensures Written(text) <==> !IsBlank(text) {
      WrittenIff(text);
    }
    WasDeadIff(sc, s, c.npcId);
    if c.KnowledgeAdded? {
      forall gm ensures GivesAway(lower, gm, c.fact) <==> LeaksInto(lower, gm, c.fact) {
        GivesAwayIff(lower, gm, c.fact);
      }
      var leaked := LeakedGmOnlyFacts(lower, s, c.fact);
      assert |leaked| > 0 ==> leaked[0] in leaked;
    }
  }

  lemma NpcIff(lower: string -> string, sc: Scenario, s: WorldState, c: NpcChange)
    ensures LawfulNpc(lower, sc, s, c) <==> CheckNpc(lower, sc, s, c).Pass?
  {
    hide WasDead, GivesAway, CheckNpcContent, Written, IsBlank, LocationExists;
    assert NpcExists(sc, c.npcId) <==> c.npcId in NpcIds(sc);
    WrittenIff(c.reason);
    FirstAtIff(s.npcs, NpcKey, c.npcId, NpcIs(c.npcId));
    if NpcExists(sc, c.npcId) {
      NpcContentIff(lower, sc, s, c);
    }
  }

  /** Standing and pressure are checked against the state before the turn; an unlisted faction starts at zero. */
  ghost predicate LawfulFaction(sc: Scenario, s: WorldState, c: FactionChange) {
    && FactionExists(sc, c.factionId)
    && Written(c.reason)
    && (forall k: nat | FirstAt(s.factions, FactionKey, c.factionId, k) ::
          && (c.StandingChanged? ==> -100 <= s.factions[k].standing + c.standingDelta <= 100)
          && (c.PressureChanged? ==> -100 <= s.factions[k].pressure + c.delta <= 100))
    && ((forall f | f in s.factions :: f.factionId != c.factionId) ==>
          && (c.StandingChanged? ==> -100 <= c.standingDelta <= 100)
          && (c.PressureChanged? ==> -100 <= c.delta <= 100))
  }

  lemma FactionIff(sc: Scenario, s: WorldState, c: FactionChange)
    ensures LawfulFaction(sc, s, c) <==> CheckFaction(sc, s, c).Pass?
  {
    WrittenIff(c.reason);
    assert FactionExists(sc, c.factionId) <==> c.factionId in FactionIds(sc);
    FirstAtIff(s.factions, FactionKey, c.factionId, FactionIs(c.factionId));
  }

  ghost predicate LawfulQuest(sc: Scenario, c: QuestChange) {
    (exists q :: q in sc.quests && q.id == c.questId) && Written(c.reason)
  }

  lemma QuestIff(sc: Scenario, c: QuestChange)
    ensures LawfulQuest(sc, c) <==> CheckQuest(sc, c).Pass?
  {
    WrittenIff(c.reason);
  }

  ghost predicate LawfulClock(s: WorldState, c: ClockChange) {
    && ClockExists(s, c.clockId)
    && Written(c.reason)
    && forall k: nat | FirstAt(s.clocks, ClockKey, c.clockId, k) ::
         && (c.Advanced? ==> 0 <= s.clocks[k].current + c.delta <= s.clocks[k].max)
         && (c.SetValue? ==> c.value <= s.clocks[k].max)
  }

  lemma ClockIff(s: WorldState, c: ClockChange)
    ensures LawfulClock(s, c) <==> CheckClock(s, c).Pass?
  {
    WrittenIff(c.reason);
    assert ClockExists(s, c.clockId) <==> c.clockId in ClockIds(s);
    FirstAtIff(s.clocks, ClockKey, c.clockId, ClockIs(c.clockId));
  }

  ghost predicate LawfulEndpoint(sc: Scenario, id: EntityKey) {
    id == "player" || NpcExists(sc, id) || FactionExists(sc, id)
  }

  /** Trust, suspicion and loyalty are ranged; an unlisted relationship is neutral; attitude has no bound. */
  ghost predicate LawfulRelationship(sc: Scenario, s: WorldState, c: RelationshipChange) {
    && Written(c.reason)
    && LawfulEndpoint(sc, c.sourceId) && LawfulEndpoint(sc, c.targetId)
    && (forall k: nat | FirstAt(s.relationships, RelationshipKey, (c.sourceId, c.targetId), k) ::
          && (c.TrustChanged? ==> -100 <= s.relationships[k].trust + c.delta <= 100)
          && (c.SuspicionChanged? ==> -100 <= s.relationships[k].suspicion + c.delta <= 100)
          && (c.LoyaltyChanged? ==> -100 <= s.relationships[k].loyalty + c.delta <= 100))
    && ((forall r | r in s.relationships :: !(r.sourceId == c.sourceId && r.targetId == c.targetId)) ==>
          (c.TrustChanged? || c.SuspicionChanged? || c.LoyaltyChanged? ==> -100 <= c.delta <= 100))
  }

  lemma EndpointIff(sc: Scenario, id: EntityKey)
    ensures LawfulEndpoint(sc, id) <==> KnownEndpoint(sc, id)
  {
    assert NpcExists(sc, id) <==> id in NpcIds(sc);
    assert FactionExists(sc, id) <==> id in FactionIds(sc);
  }

  lemma RelationshipIff(sc: Scenario, s: WorldState, c: RelationshipChange)
    ensures LawfulRelationship(sc, s, c) <==> CheckRelationship(sc, s, c).Pass?
  {
    WrittenIff(c.reason);
    EndpointIff(sc, c.sourceId);
    EndpointIff(sc, c.targetId);
    var pair := (c.sourceId, c.targetId);
    FirstAtIff(s.relationships, RelationshipKey, pair, RelationshipIs(c.sourceId, c.targetId));
    assert forall r :: RelationshipKey(r) == pair <==> r.sourceId == c.sourceId && r.targetId == c.targetId;
    hide LawfulEndpoint, KnownEndpoint, Written, IsBlank;
  }

  ghost predicate LawfulItem(s: WorldState, c: InventoryChange) {
    && Written(c.reason)
    && match c
       case ItemAdded(item, _) => Written(item.id)
       case ItemRemoved(id, _) => ItemExists(s, id)
       case ItemUpdated(item, _) => ItemExists(s, item.id)
  }

  lemma ItemIff(s: WorldState, c: InventoryChange)
    ensures LawfulItem(s, c) <==> CheckInventory(s, c).Pass?
  {
    forall text ensures Written(text) <==> !IsBlank(text) {
      WrittenIff(text);
    }
    assert forall id :: ItemExists(s, id) <==> id in ItemIds(s);
  }

  ghost predicate LawfulPlayer(p: PlayerCharacterState, c: PlayerChange) {
    && Written(c.reason)
    && match c
       case TraitAdded(id, name, description, _, _) => Written(id) && Written(name) && Written(description)
       case GoalAdded(id, name, description, progress, _, _) =>
         Written(id) && Written(name) && Written(description) && 0 <= progress <= 100
       case GoalProgressed(id, delta, _) =>
         exists k: nat :: FirstAt(p.goals, GoalKey, id, k) && 0 <= p.goals[k].progress + delta <= 100
       case ConditionAdded(id, name, description, _, _) => Written(id) && Written(name) && Written(description)
       case ConditionCleared(id, _) => exists x :: x in p.conditions && x.id == id
       case ResourceChanged(id, delta, _) =>
         exists k: nat ::
           && FirstAt(p.resources, ResourceKey, id, k)
           && p.resources[k].min <= p.resources[k].current + delta <= p.resources[k].max
       case GmNoteAdded(note, _) => Written(note)
  }

  lemma PlayerIff(s: WorldState, c: PlayerChange)
    ensures LawfulPlayer(s.player, c) <==> CheckPlayer(s, c).Pass?
  {
    forall text ensures Written(text) <==> !IsBlank(text) {
      WrittenIff(text);
    }
    match c {
      case GoalProgressed(id, _, _) => FirstAtIff(s.player.goals, GoalKey, id, GoalIs(id));
      case ConditionCleared(id, _) => AnyIff(s.player.conditions, ConditionIs(id));
      case ResourceChanged(id, _, _) => FirstAtIff(s.player.resources, ResourceKey, id, ResourceIs(id));
      case _ =>
    }
  }

  ghost predicate LawfulClue(sc: Scenario, s: WorldState, d: WorldStateDelta, c: ClueChange) {
    && Written(c.reason)
    && match c
       case Discovered(id, text, linked, satisfied, _, _) =>
         && Written(id) && Written(text)
         && (forall x | x in linked :: exists secret :: secret in sc.secrets && secret.id == x)
         && (linked != [] ==> satisfied != [])
         && (forall r | r in satisfied :: exists x :: x in linked && HasCondition(sc.secrets, x, r.id))
       case ClueVisibilityChanged(id, _, _) =>
         || (exists clue :: clue in s.clues && clue.id == id)
         || (exists other :: other in d.clueChanges && other.Discovered? && other.clueId == id)
  }

  lemma ClueIff(sc: Scenario, s: WorldState, d: WorldStateDelta, c: ClueChange)
    ensures LawfulClue(sc, s, d, c) <==> CheckClue(sc, s, d, c).Pass?
  {
    hide HasCondition, SecretConditions;
    forall text ensures Written(text) <==> !IsBlank(text) {
      WrittenIff(text);
    }
    match c {
      case Discovered(id, text, linked, satisfied, _, _) =>
        forall x, r: ConditionRef
          ensures HasCondition(sc.secrets, x, r.id) <==>
                  x in SecretConditions(sc.secrets) && r.id in SecretConditions(sc.secrets)[x] {
          HasConditionIff(sc.secrets, x, r.id);
        }
        assert forall x ::
            x in SecretConditions(sc.secrets) <==> exists secret :: secret in sc.secrets && secret.id == x;
      case ClueVisibilityChanged(id, _, _) => AnyIff(s.clues, ClueIs(id));
    }
  }

  // ---------- the law of the whole delta ----------

  ghost predicate LawfulDelta(lower: string -> string, sc: Scenario, s: WorldState, d: WorldStateDelta) {
    && LawfulHeader(sc, d)
    && (forall c | c in d.actionResolutionChanges :: LawfulAction(s, d, c))
    && (forall c | c in d.memoryChanges :: LawfulMemory(s, c))
    && (forall f | f in d.factsToAdd :: LawfulFact(lower, sc, s, d, f))
    && (forall c | c in d.npcChanges :: LawfulNpc(lower, sc, s, c))
    && (forall c | c in d.factionChanges :: LawfulFaction(sc, s, c))
    && (forall c | c in d.questChanges :: LawfulQuest(sc, c))
    && (forall c | c in d.clockChanges :: LawfulClock(s, c))
    && (forall c | c in d.relationshipChanges :: LawfulRelationship(sc, s, c))
    && (forall c | c in d.inventoryChanges :: LawfulItem(s, c))
    && (forall c | c in d.playerChanges :: LawfulPlayer(s.player, c))
    && (forall c | c in d.clueChanges :: LawfulClue(sc, s, d, c))
  }

  lemma CastIff(lower: string -> string, sc: Scenario, s: WorldState, d: WorldStateDelta)
    ensures CheckCast(lower, sc, s, d).Pass? <==>
            && (forall c | c in d.actionResolutionChanges :: LawfulAction(s, d, c))
            && (forall c | c in d.memoryChanges :: LawfulMemory(s, c))
            && (forall f | f in d.factsToAdd :: LawfulFact(lower, sc, s, d, f))
            && (forall c | c in d.npcChanges :: LawfulNpc(lower, sc, s, c))
  {
    hide LawfulAction, LawfulMemory, LawfulFact, LawfulNpc, CheckAction, CheckMemory, CheckFact, CheckNpc;
    forall c ensures LawfulAction(s, d, c) <==> CheckAction(s, d, c).Pass? { ActionIff(s, d, c); }
    forall c ensures LawfulMemory(s, c) <==> CheckMemory(s, c).Pass? { MemoryIff(s, c); }
    forall f ensures LawfulFact(lower, sc, s, d, f) <==> CheckFact(lower, sc, s, d, f).Pass? {
      FactIff(lower, sc, s, d, f);
    }
    forall c ensures LawfulNpc(lower, sc, s, c) <==> CheckNpc(lower, sc, s, c).Pass? { NpcIff(lower, sc, s, c); }
  }

  lemma GroupsIff(sc: Scenario, s: WorldState, d: WorldStateDelta)
    ensures CheckGroups(sc, s, d).Pass? <==>
            && (forall c | c in d.factionChanges :: LawfulFaction(sc, s, c))
            && (forall c | c in d.questChanges :: LawfulQuest(sc, c))
            && (forall c | c in d.clockChanges :: LawfulClock(s, c))
            && (forall c | c in d.relationshipChanges :: LawfulRelationship(sc, s, c))
  {
    hide LawfulFaction, LawfulQuest, LawfulClock, LawfulRelationship;
    hide CheckFaction, CheckQuest, CheckClock, CheckRelationship;
    forall c ensures LawfulFaction(sc, s, c) <==> CheckFaction(sc, s, c).Pass? { FactionIff(sc, s, c); }
    forall c ensures LawfulQuest(sc, c) <==> CheckQuest(sc, c).Pass? { QuestIff(sc, c); }
    forall c ensures LawfulClock(s, c) <==> CheckClock(s, c).Pass? { ClockIff(s, c); }
    forall c ensures LawfulRelationship(sc, s, c) <==> CheckRelationship(sc, s, c).Pass? { RelationshipIff(sc, s, c); }
  }

  lemma PossessionsIff(sc: Scenario, s: WorldState, d: WorldStateDelta)
    ensures CheckPossessions(sc, s, d).Pass? <==>
            && (forall c | c in d.inventoryChanges :: LawfulItem(s, c))
            && (forall c | c in d.playerChanges :: LawfulPlayer(s.player, c))
            && (forall c | c in d.clueChanges :: LawfulClue(sc, s, d, c))
  {
    hide LawfulItem, LawfulPlayer, LawfulClue, CheckInventory, CheckPlayer, CheckClue;
    forall c ensures LawfulItem(s, c) <==> CheckInventory(s, c).Pass? { ItemIff(s, c); }
    forall c ensures LawfulPlayer(s.player, c) <==> CheckPlayer(s, c).Pass? { PlayerIff(s, c); }
    forall c ensures LawfulClue(sc, s, d, c) <==> CheckClue(sc, s, d, c).Pass? { ClueIff(sc, s, d, c); }
  }

  /** The validator accepts exactly the lawful deltas. */
  lemma AcceptsIffLawful(lower: string -> string, sc: Scenario, s: WorldState, d: WorldStateDelta)
    ensures Accepts(lower, sc, s, d) <==> LawfulDelta(lower, sc, s, d)
  {
    hide LawfulHeader, LawfulAction, LawfulMemory, LawfulFact, LawfulNpc, LawfulFaction, LawfulQuest, LawfulClock;
    hide LawfulRelationship, LawfulItem, LawfulPlayer, LawfulClue;
    hide CheckHeader, CheckLocation, CheckCast, CheckGroups, CheckPossessions;
    HeaderIff(sc, d);
    CastIff(lower, sc, s, d);
    GroupsIff(sc, s, d);
    PossessionsIff(sc, s, d);
  }
}
