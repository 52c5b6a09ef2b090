/**
 What a viewer, player or admin, is shown of each list: the records of exactly the entries that are open
 to the viewer, in the order of the state.
 */
module VisibleState {
  import opened Wrappers
  import opened Sequences
  import opened Domain
  import opened ScenarioValidation
  import opened WorldInvariant
  import opened Projection
  import opened Disclosure

  /** A view that shows exactly the picked entries shows one record for each of them, in order. */
  lemma {:induction false} ViewOfPicked<S, T>(xs: seq<S>, f: S -> Option<T>, open: S -> bool)
    requires forall x | x in xs :: f(x).Some? <==> open(x)
    ensures |FilterMap(xs, f)| == |Filter(xs, open)|
    ensures forall k | 0 <= k < |FilterMap(xs, f)| :: f(Filter(xs, open)[k]) == Some(FilterMap(xs, f)[k])
    decreases |xs|
  {
    if |xs| > 0 {
      InitLast(xs);
      assert forall x | x in Init(xs) :: x in xs;
      ViewOfPicked(Init(xs), f, open);
      assert Last(xs) in xs;
      FilterMapLast(xs, f);
    }
  }

  function OpenNpc(admin: bool): NpcState -> bool { (n: NpcState) => admin || n.visibleToPlayer }
  function OpenQuest(admin: bool): QuestState -> bool {
    (q: QuestState) => admin || (q.visible && q.status != QuestHidden)
  }
  function OpenClock(admin: bool): ClockState -> bool { (c: ClockState) => admin || c.visibleToPlayer }
  function OpenFact(admin: bool): Fact -> bool { (f: Fact) => admin || f.visibility == PlayerKnown }
  function OpenAction(admin: bool): ActionResolution -> bool { (a: ActionResolution) => admin || a.visibleToPlayer }
  function OpenClue(admin: bool): ClueState -> bool { (c: ClueState) => admin || c.visibleToPlayer }
  function OpenMemory(admin: bool): MemoryEntry -> bool { (m: MemoryEntry) => admin || m.visibility == PlayerMemory }
  function OpenTrait(admin: bool): PlayerTrait -> bool { (t: PlayerTrait) => admin || t.visibleToPlayer }
  function OpenGoal(admin: bool): PlayerGoal -> bool { (g: PlayerGoal) => admin || g.visibleToPlayer }
  function OpenCondition(admin: bool): PlayerCondition -> bool { (c: PlayerCondition) => admin || c.visibleToPlayer }
  function OpenResource(admin: bool): PlayerResource -> bool { (r: PlayerResource) => admin || r.visibleToPlayer }

  /** The relationship has the player or a shown npc at one end. */
  function OpenRelationship(admin: bool, shown: seq<VisibleNpc>): RelationshipState -> bool {
    (r: RelationshipState) =>
      admin || r.sourceId == "player" || r.targetId == "player"
      || exists n | n in shown :: n.id == r.sourceId || n.id == r.targetId
  }

  /** The npc's state under the name and description of its scenario entry. */
  ghost predicate ShownAs(sc: Scenario, npc: NpcState, v: VisibleNpc) {
    exists n ::
      && n in sc.npcs && n.id == npc.npcId
      && v == VisibleNpc(npc.npcId, n.name, n.description, npc.status, npc.attitudeToPlayer, npc.availability)
  }

  lemma ViewIsShownAs(sc: Scenario, npc: NpcState, admin: bool, v: VisibleNpc)
    requires NpcView(sc, admin)(npc) == Some(v)
    ensures ShownAs(sc, npc, v)
  {
    var i := FirstIndex(sc.npcs, ScenarioNpcIs(npc.npcId));
    assert sc.npcs[i] in sc.npcs;
  }

  /** One record for each open npc, in order. */
  lemma NpcsShown(sc: Scenario, s: WorldState, admin: bool)
    requires DistinctIds(sc) && NpcRosterKept(sc, s.npcs)
    ensures var shown, open := Project(sc, s, admin).visibleNpcs, Filter(s.npcs, OpenNpc(admin));
            && |shown| == |open|
            && forall k | 0 <= k < |shown| :: ShownAs(sc, open[k], shown[k])
  {
    forall npc | npc in s.npcs ensures NpcView(sc, admin)(npc).Some? <==> OpenNpc(admin)(npc) {
      var k :| 0 <= k < |s.npcs| && s.npcs[k] == npc;
      NpcEntry(sc, s.npcs, k);
    }
    hide NpcView, OpenNpc, NpcRosterKept, DistinctIds;
    ViewOfPicked(s.npcs, NpcView(sc, admin), OpenNpc(admin));
    var shown, open := FilterMap(s.npcs, NpcView(sc, admin)), Filter(s.npcs, OpenNpc(admin));
    forall k | 0 <= k < |shown| ensures ShownAs(sc, open[k], shown[k]) {
      ViewIsShownAs(sc, open[k], admin, shown[k]);
    }
  }

  lemma QuestsAndClocksShown(sc: Scenario, s: WorldState, admin: bool)
    ensures var shown, open := Project(sc, s, admin).visibleQuests, Filter(s.quests, OpenQuest(admin));
            && |shown| == |open|
            && forall k | 0 <= k < |shown| :: shown[k] == VisibleQuest(open[k].questId, open[k].status)
    ensures var shown, open := Project(sc, s, admin).visibleClocks, Filter(s.clocks, OpenClock(admin));
            && |shown| == |open|
            && forall k | 0 <= k < |shown| ::
                 shown[k] == VisibleClock(
                               open[k].id, open[k].title, open[k].current, open[k].max, open[k].consequence)
  {
    ViewOfPicked(s.quests, QuestView(admin), OpenQuest(admin));
    ViewOfPicked(s.clocks, ClockView(admin), OpenClock(admin));
  }

  lemma FactsAndCluesShown(sc: Scenario, s: WorldState, admin: bool)
    ensures var shown, open := Project(sc, s, admin).playerKnownFacts, Filter(s.facts, OpenFact(admin));
            && |shown| == |open|
            && forall k | 0 <= k < |shown| :: shown[k] == VisibleFact(open[k].id, open[k].text)
    ensures var shown, open := Project(sc, s, admin).visibleClues, Filter(s.clues, OpenClue(admin));
            && |shown| == |open|
            && forall k | 0 <= k < |shown| ::
                 shown[k] == VisibleClue(open[k].id, open[k].text, open[k].satisfiedRevealConditions)
  {
    ViewOfPicked(s.facts, FactView(admin), OpenFact(admin));
    ViewOfPicked(s.clues, ClueView(admin), OpenClue(admin));
  }

  lemma ActionsAndMemoriesShown(sc: Scenario, s: WorldState, admin: bool)
    ensures var shown, open := Project(sc, s, admin).visibleActions, Filter(s.actionResolutions, OpenAction(admin));
            && |shown| == |open|
            && forall k | 0 <= k < |shown| ::
                 shown[k] == VisibleAction(
                               open[k].id, open[k].intent, open[k].stakes, open[k].outcome, open[k].consequence,
                               open[k].linkedClockIds)
    ensures var shown, open := Project(sc, s, admin).visibleMemories, Filter(s.memories, OpenMemory(admin));
            && |shown| == |open|
            && forall k | 0 <= k < |shown| ::
                 shown[k] == VisibleMemory(open[k].id, open[k].text, open[k].importance, open[k].relatedEntityIds)
  {
    ViewOfPicked(s.actionResolutions, ActionView(admin), OpenAction(admin));
    ViewOfPicked(s.memories, MemoryView(admin), OpenMemory(admin));
  }

  lemma PickedAsTheyAre<T>(xs: seq<T>, f: T -> Option<T>, open: T -> bool)
    requires forall x | x in xs :: f(x) == if open(x) then Some(x) else None
    ensures FilterMap(xs, f) == Filter(xs, open)
  {
    ViewOfPicked(xs, f, open);
    forall k | 0 <= k < |FilterMap(xs, f)| ensures FilterMap(xs, f)[k] == Filter(xs, open)[k] {
      assert Filter(xs, open)[k] in Filter(xs, open);
    }
  }

  /** The player's own lists and the relationships are shown entry by entry, unchanged. */
  lemma OwnListsShown(sc: Scenario, s: WorldState, admin: bool)
    ensures var view := Project(sc, s, admin);
            && view.player.traits == Filter(s.player.traits, OpenTrait(admin))
            && view.player.goals == Filter(s.player.goals, OpenGoal(admin))
            && view.player.conditions == Filter(s.player.conditions, OpenCondition(admin))
            && view.player.resources == Filter(s.player.resources, OpenResource(admin))
            && view.visibleRelationships == Filter(s.relationships, OpenRelationship(admin, view.visibleNpcs))
  {
    PickedAsTheyAre(s.player.traits, TraitView(admin), OpenTrait(admin));
    PickedAsTheyAre(s.player.goals, GoalView(admin), OpenGoal(admin));
    PickedAsTheyAre(s.player.conditions, ConditionView(admin), OpenCondition(admin));
    PickedAsTheyAre(s.player.resources, ResourceView(admin), OpenResource(admin));
    var npcs := Project(sc, s, admin).visibleNpcs;
    PickedAsTheyAre(s.relationships, RelationshipView(admin, ShownIds(npcs)), OpenRelationship(admin, npcs));
  }

  /** The location shown is the current one, if the viewer may see it; the speaker is one of the npcs shown. */
  lemma PlaceAndSpeakerShown(sc: Scenario, s: WorldState, admin: bool)
    requires DistinctIds(sc) && NpcRosterKept(sc, s.npcs)
    ensures var view := Project(sc, s, admin);
            && view.stateVersion == s.version && view.recentPublicEvents == s.recentEvents
            && (forall v :: view.currentLocation == Some(v) <==>
                  exists l ::
                    && l in sc.locations && s.currentLocationId == Some(l.id) && (l.visible || admin)
                    && v == VisibleLocation(l.id, l.name, l.description))
            && (forall v :: view.activeSpeaker == Some(v) <==>
                  v in view.visibleNpcs && s.activeSpeakerId == Some(v.id))
  {
    forall v
      ensures Project(sc, s, admin).currentLocation == Some(v) <==>
              exists l ::
                && l in sc.locations && s.currentLocationId == Some(l.id) && (l.visible || admin)
                && v == VisibleLocation(l.id, l.name, l.description)
    {
      PlaceIff(sc, s.currentLocationId, admin, v);
    }
    SameKeysUnique(sc.npcs, ScenarioNpcKey, s.npcs, NpcKey);
    forall v
      ensures Project(sc, s, admin).activeSpeaker == Some(v) <==>
              v in Project(sc, s, admin).visibleNpcs && s.activeSpeakerId == Some(v.id)
    {
      SpeakerIff(sc, s, admin, v);
    }
  }

  lemma PlaceIff(sc: Scenario, at: Option<EntityKey>, admin: bool, v: VisibleLocation)
    requires DistinctIds(sc)
    ensures LocationView(sc, at, admin) == Some(v) <==>
            exists l ::
              && l in sc.locations && at == Some(l.id) && (l.visible || admin)
              && v == VisibleLocation(l.id, l.name, l.description)
  {
    if at.Some? {
      var i := FirstIndex(sc.locations, LocationShown(at.value, admin));
      if i < |sc.locations| {
        assert sc.locations[i] in sc.locations;
      }
      if l :| l in sc.locations && at == Some(l.id) && (l.visible || admin)
              && v == VisibleLocation(l.id, l.name, l.description) {
        var k :| 0 <= k < |sc.locations| && sc.locations[k] == l;
        assert LocationShown(at.value, admin)(sc.locations[k]);
        assert LocationKey(sc.locations[k]) == LocationKey(sc.locations[i]);
      }
    }
  }

  lemma SpeakerIff(sc: Scenario, s: WorldState, admin: bool, v: VisibleNpc)
    requires Unique(s.npcs, NpcKey)
    ensures Project(sc, s, admin).activeSpeaker == Some(v) <==>
            v in Project(sc, s, admin).visibleNpcs && s.activeSpeakerId == Some(v.id)
  {
    var shown := FilterMap(s.npcs, NpcView(sc, admin));
    if s.activeSpeakerId.Some? {
      var id := s.activeSpeakerId.value;
      var i := FirstIndex(shown, VisibleNpcIs(id));
      if v in shown && v.id == id {
        var k :| 0 <= k < |shown| && shown[k] == v;
        assert VisibleNpcIs(id)(shown[k]);
        FilterMapMember(s.npcs, NpcView(sc, admin), v);
        var npc :| npc in s.npcs && NpcView(sc, admin)(npc) == Some(v);
        NpcViewKeepsId(sc, admin, npc);
        FindShown(sc, admin, s.npcs, id, shown[i]);
        var other :| other in s.npcs && other.npcId == id && NpcView(sc, admin)(other) == Some(shown[i]);
        OneNpcPerId(s.npcs, npc, other);
      }
    }
  }
}
