/** `build_replay_fixture_draft`: the expectations a recorded session is replayed against. */
module Replay {
  import opened Wrappers
  import opened Sequences
  import opened Domain
  import opened ScenarioValidation
  import opened Sessions
  import opened WorldInvariant
  import opened Freshness
  import opened Projection

  datatype ExpectedFinalState = ExpectedFinalState(
    worldStateVersion: nat,
    visibleFactContains: seq<string>,
    visibleMemoryContains: seq<string>,
    hiddenFactIdsAbsentFromProjection: seq<EntityKey>)

  function FactText(f: VisibleFact): string { f.text }

  function MemoryText(m: VisibleMemory): string { m.text }

  function GmOnlyId(): Fact -> Option<EntityKey> {
    (f: Fact) => if f.visibility.GmOnly? then Some(f.id) else None
  }

  function Draft(s: WorldState, visible: FrontendVisibleState): ExpectedFinalState {
    ExpectedFinalState(
      visible.stateVersion,
      Map(visible.playerKnownFacts, FactText),
      Map(visible.visibleMemories, MemoryText),
      FilterMap(s.facts, GmOnlyId()))
  }

  /** A session satisfies the expectations when replay shows the texts and hides the identifiers. */
  ghost predicate Meets(visible: FrontendVisibleState, expected: ExpectedFinalState) {
    && visible.stateVersion == expected.worldStateVersion
    && (forall text | text in expected.visibleFactContains ::
          exists f :: f in visible.playerKnownFacts && f.text == text)
    && (forall text | text in expected.visibleMemoryContains ::
          exists m :: m in visible.visibleMemories && m.text == text)
    && (forall id | id in expected.hiddenFactIdsAbsentFromProjection ::
          forall f | f in visible.playerKnownFacts :: f.id != id)
  }

  /** A draft asks for every text the player is shown, in order, and hides exactly the game master's facts. */
  lemma DraftIsComplete(s: WorldState, visible: FrontendVisibleState)
    ensures var expected := Draft(s, visible);
            && expected.worldStateVersion == visible.stateVersion
            && |expected.visibleFactContains| == |visible.playerKnownFacts|
            && (forall i | 0 <= i < |visible.playerKnownFacts| ::
                  expected.visibleFactContains[i] == visible.playerKnownFacts[i].text)
            && |expected.visibleMemoryContains| == |visible.visibleMemories|
            && (forall i | 0 <= i < |visible.visibleMemories| ::
                  expected.visibleMemoryContains[i] == visible.visibleMemories[i].text)
            && forall id :: id in expected.hiddenFactIdsAbsentFromProjection <==>
                              exists f :: f in s.facts && f.visibility == GmOnly && f.id == id
  {
    forall id
      ensures id in FilterMap(s.facts, GmOnlyId()) <==>
                exists f :: f in s.facts && f.visibility == GmOnly && f.id == id
    {
      FilterMapMember(s.facts, GmOnlyId(), id);
      assert forall f | f in s.facts :: GmOnlyId()(f) == Some(id) <==> f.visibility == GmOnly && f.id == id;
    }
  }

  lemma HiddenIdsAbsent(sc: Scenario, s: WorldState, id: EntityKey, shown: VisibleFact)
    requires Unique(s.facts, FactKey)
    requires id in FilterMap(s.facts, GmOnlyId())
    requires shown in Project(sc, s, false).playerKnownFacts
    ensures shown.id != id
  {
    FilterMapMember(s.facts, GmOnlyId(), id);
    FilterMapMember(s.facts, FactView(false), shown);
    var gm :| gm in s.facts && GmOnlyId()(gm) == Some(id);
    var fact :| fact in s.facts && FactView(false)(fact) == Some(shown);
    var i :| 0 <= i < |s.facts| && s.facts[i] == gm;
    var j :| 0 <= j < |s.facts| && s.facts[j] == fact;
    assert i != j;
    assert FactKey(s.facts[i]) != FactKey(s.facts[j]);
  }

  /** A draft agrees with the very projection it was made from, whenever fact identifiers are distinct. */
  lemma DraftMeetsItsProjection(sc: Scenario, s: WorldState)
    requires Unique(s.facts, FactKey)
    ensures Meets(Project(sc, s, false), Draft(s, Project(sc, s, false)))
  {
    var visible := Project(sc, s, false);
    var expected := Draft(s, visible);
    forall id, f | id in expected.hiddenFactIdsAbsentFromProjection && f in visible.playerKnownFacts
      ensures f.id != id
    {
      HiddenIdsAbsent(sc, s, id, f);
    }
    forall text | text in expected.visibleFactContains
      ensures exists f :: f in visible.playerKnownFacts && f.text == text
    {
      var k :| 0 <= k < |visible.playerKnownFacts| && expected.visibleFactContains[k] == text;
      assert visible.playerKnownFacts[k] in visible.playerKnownFacts;
    }
    forall text | text in expected.visibleMemoryContains
      ensures exists m :: m in visible.visibleMemories && m.text == text
    {
      var k :| 0 <= k < |visible.visibleMemories| && expected.visibleMemoryContains[k] == text;
      assert visible.visibleMemories[k] in visible.visibleMemories;
    }
  }

  /** So every draft of a reachable session is met by that session. */
  lemma ReachableDraftsAreMet(
    lower: string -> string, sc: Scenario, sessionId: SessionId, deltas: seq<WorldStateDelta>)
    requires ValidScenario(sc) && NoGeneratedSecretIds(sc)
    requires AcceptedRun(lower, sc, InitialWorldState(sessionId, sc), deltas)
    ensures var s := StateAfter(InitialWorldState(sessionId, sc), deltas);
            Meets(Project(sc, s, false), Draft(s, Project(sc, s, false)))
  {
    var s := StateAfter(InitialWorldState(sessionId, sc), deltas);
    ReachableWorldInv(lower, sc, sessionId, deltas);
    FactIdsDistinct(sc, s);
    DraftMeetsItsProjection(sc, s);
  }
}
