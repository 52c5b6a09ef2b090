/**
 What exactly a viewer is shown: the projection read as statements about the state, over reachable rosters
 where each npc and faction state sits beside its scenario entry.
 */
module Disclosure {
  import opened Wrappers
  import opened Sequences
  import opened Domain
  import opened Reduction
  import opened ScenarioValidation
  import opened Sessions
  import opened WorldInvariant
  import opened Projection
  import opened WrittenFacts

  /** A view that drops nothing keeps positions. */
  lemma {:induction false} FilterMapAll<S, T>(xs: seq<S>, f: S -> Option<T>)
    requires forall k | 0 <= k < |xs| :: f(xs[k]).Some?
    ensures |FilterMap(xs, f)| == |xs|
    ensures forall k | 0 <= k < |xs| :: FilterMap(xs, f)[k] == f(xs[k]).value
    decreases |xs|
  {
    if |xs| > 0 {
      FilterMapAll(Init(xs), f);
      FilterMapLast(xs, f);
    }
  }

  lemma FindsItsEntry<T>(xs: seq<T>, key: T -> EntityKey, hit: T -> bool, k: nat)
    requires Unique(xs, key) && k < |xs|
    requires forall x :: hit(x) <==> key(x) == key(xs[k])
    ensures Find(xs, hit) == Some(xs[k])
  {
    var i := FirstIndex(xs, hit);
    assert hit(xs[k]);
    assert key(xs[i]) == key(xs[k]);
  }

  /** Every faction is shown, in order, under its scenario name and with its public side only. */
  lemma FactionsAllShown(sc: Scenario, s: WorldState, admin: bool)
    requires DistinctIds(sc) && FactionRosterKept(sc, s.factions)
    ensures var shown := Project(sc, s, admin).visibleFactions;
            && |shown| == |s.factions|
            && forall k | 0 <= k < |shown| ::
                 shown[k] == VisibleFaction(
                               sc.factions[k].id, sc.factions[k].name, s.factions[k].standing, s.factions[k].pressure,
                               s.factions[k].publicNotes, s.factions[k].publicPressureNotes,
                               s.factions[k].revealedGoals)
  {
    forall k | 0 <= k < |s.factions|
      ensures Find(sc.factions, ScenarioFactionIs(s.factions[k].factionId)) == Some(sc.factions[k])
    {
      FindsItsEntry(sc.factions, ScenarioFactionKey, ScenarioFactionIs(s.factions[k].factionId), k);
    }
    FilterMapAll(s.factions, FactionView(sc));
  }

  lemma NpcEntry(sc: Scenario, npcs: seq<NpcState>, k: nat)
    requires DistinctIds(sc) && NpcRosterKept(sc, npcs) && k < |npcs|
    ensures Find(sc.npcs, ScenarioNpcIs(npcs[k].npcId)) == Some(sc.npcs[k])
  {
    FindsItsEntry(sc.npcs, ScenarioNpcKey, ScenarioNpcIs(npcs[k].npcId), k);
  }

  /** An admin sees the whole cast, in order, each npc's state beside its scenario name and description. */
  lemma AdminSeesTheCast(sc: Scenario, s: WorldState)
    requires DistinctIds(sc) && NpcRosterKept(sc, s.npcs)
    ensures var shown := Project(sc, s, true).visibleNpcs;
            && |shown| == |s.npcs|
            && forall k | 0 <= k < |shown| ::
                 shown[k] == VisibleNpc(
                               sc.npcs[k].id, sc.npcs[k].name, sc.npcs[k].description, s.npcs[k].status,
                               s.npcs[k].attitudeToPlayer, s.npcs[k].availability)
  {
    forall k | 0 <= k < |s.npcs| ensures NpcView(sc, true)(s.npcs[k]).Some? {
      NpcEntry(sc, s.npcs, k);
    }
    FilterMapAll(s.npcs, NpcView(sc, true));
    forall k | 0 <= k < |s.npcs|
      ensures Find(sc.npcs, ScenarioNpcIs(s.npcs[k].npcId)) == Some(sc.npcs[k])
    {
      NpcEntry(sc, s.npcs, k);
    }
  }

  /** A player is shown exactly the npcs marked visible. */
  lemma NpcShownIff(sc: Scenario, s: WorldState, k: nat)
    requires DistinctIds(sc) && NpcRosterKept(sc, s.npcs) && k < |s.npcs|
    ensures s.npcs[k].npcId in ShownIds(Project(sc, s, false).visibleNpcs) <==> s.npcs[k].visibleToPlayer
  {
    var id := s.npcs[k].npcId;
    var shown := FilterMap(s.npcs, NpcView(sc, false));
    NpcEntry(sc, s.npcs, k);
    if s.npcs[k].visibleToPlayer {
      var v := NpcView(sc, false)(s.npcs[k]).value;
      FilterMapMember(s.npcs, NpcView(sc, false), v);
      assert s.npcs[k] in s.npcs && v in shown;
      NpcViewKeepsId(sc, false, s.npcs[k]);
    }
    if id in ShownIds(shown) {
      var v :| v in shown && v.id == id;
      FilterMapMember(s.npcs, NpcView(sc, false), v);
      var npc :| npc in s.npcs && NpcView(sc, false)(npc) == Some(v);
      NpcViewKeepsId(sc, false, npc);
      SameKeysUnique(sc.npcs, ScenarioNpcKey, s.npcs, NpcKey);
      OneNpcPerId(s.npcs, npc, s.npcs[k]);
    }
  }

  function ShownText(v: VisibleFact): string { v.text }

  function ShownTexts(sc: Scenario, s: WorldState): seq<string> {
    Map(Project(sc, s, false).playerKnownFacts, ShownText)
  }

  lemma {:induction false} ShownTextsAre(facts: seq<Fact>)
    ensures Map(FilterMap(facts, FactView(false)), ShownText) == FilterMap(facts, TextOf(PlayerKnown))
    decreases |facts|
  {
    if |facts| > 0 {
      ShownTextsAre(Init(facts));
      FilterMapLast(facts, FactView(false));
      FilterMapLast(facts, TextOf(PlayerKnown));
    }
  }

  /** A turn shows a player what was shown before it and then exactly the player facts its delta writes. */
  lemma TurnDiscloses(sc: Scenario, s: WorldState, d: WorldStateDelta)
    ensures ShownTexts(sc, Applied(s, d)) == ShownTexts(sc, s) + WrittenTexts(d, PlayerKnown)
    ensures Project(sc, s, false).playerKnownFacts <= Project(sc, Applied(s, d), false).playerKnownFacts
  {
    TurnWrites(s, d, PlayerKnown);
    FactsGrow(s, d);
    hide Applied, FilterMap, Map;
    var after := Applied(s, d).facts;
    ShownTextsAre(s.facts);
    ShownTextsAre(after);
    assert after == s.facts + after[|s.facts|..];
    FilterMapAppend(s.facts, after[|s.facts|..], FactView(false));
  }

  /** The player facts all turns write, in order. */
  function Disclosed(deltas: seq<WorldStateDelta>): seq<string> {
    if |deltas| == 0 then [] else Disclosed(Init(deltas)) + WrittenTexts(Last(deltas), PlayerKnown)
  }

  lemma NothingShownAtFirst(sc: Scenario, sessionId: SessionId)
    ensures ShownTexts(sc, InitialWorldState(sessionId, sc)) == []
  {
    FilterMapNone(InitialWorldState(sessionId, sc).facts, FactView(false));
  }

  /** What a player is shown in a session is exactly what its turns wrote for the player, in order. */
  lemma {:induction false} RunDiscloses(sc: Scenario, sessionId: SessionId, deltas: seq<WorldStateDelta>)
    ensures ShownTexts(sc, StateAfter(InitialWorldState(sessionId, sc), deltas)) == Disclosed(deltas)
    decreases |deltas|
  {
    hide ShownTexts, WrittenTexts;
    if |deltas| == 0 {
      NothingShownAtFirst(sc, sessionId);
    } else {
      RunDiscloses(sc, sessionId, Init(deltas));
      LastTurn(InitialWorldState(sessionId, sc), deltas);
      TurnDiscloses(sc, StateAfter(InitialWorldState(sessionId, sc), Init(deltas)), Last(deltas));
    }
  }

  /** A relationship is shown to a player whenever one of its ends is the player or a shown npc. */
  lemma RelationshipShownIff(sc: Scenario, s: WorldState, r: RelationshipState)
    ensures var view := Project(sc, s, false);
            r in view.visibleRelationships <==>
            && r in s.relationships
            && ({r.sourceId, r.targetId} * (ShownIds(view.visibleNpcs) + {"player"}) != {})
  {
    var shown := ShownIds(Project(sc, s, false).visibleNpcs);
    FilterMapMember(s.relationships, RelationshipView(false, shown), r);
    var ends, known := {r.sourceId, r.targetId}, shown + {"player"};
    assert ends * known != {} <==> r.sourceId in known || r.targetId in known by {
      if r.sourceId in known {
        assert r.sourceId in ends * known;
      }
      if r.targetId in known {
        assert r.targetId in ends * known;
      }
      if ends * known != {} {
        var x :| x in ends * known;
        assert x == r.sourceId || x == r.targetId;
      }
    }
    if r in s.relationships && RelationshipShown(false, shown, r.sourceId, r.targetId) {
      assert RelationshipView(false, shown)(r) == Some(r);
    }
  }
}
