/**
 Generated identifiers never collide. Memories and actions are always distinct; facts are distinct in
 every reachable state exactly when no author gave a secret an identifier of the generated form.
 */
module Freshness {
  import opened Wrappers
  import opened Sequences
  import opened Text
  import opened Identifiers
  import opened Domain
  import opened ScenarioValidation
  import opened DeltaValidation
  import opened Reduction
  import opened Sessions
  import opened WorldInvariant

  function FactKey(f: Fact): EntityKey { f.id }
  function ActionKey(a: ActionResolution): EntityKey { a.id }

  /** No secret carries an identifier that the reducer could generate for a later fact. */
  ghost predicate NoGeneratedSecretIds(sc: Scenario) {
    forall k, v: nat, p: nat | 0 <= k < |sc.secrets| && 1 <= v && |sc.secrets| < p ::
      sc.secrets[k].id != FactId(v, p)
  }

  lemma GeneratedIdsDistinct<T>(xs: seq<T>, key: T -> EntityKey, kind: string, version: nat, from: nat)
    requires from <= |xs|
    requires forall k | from <= k < |xs| :: GeneratedAt(key(xs[k]), kind, version, k + 1)
    ensures forall i, j | from <= i < j < |xs| :: key(xs[i]) != key(xs[j])
  {
    forall i, j | from <= i < j < |xs|
      ensures key(xs[i]) != key(xs[j])
    {
      var v := GeneratedVersion(key(xs[i]), kind, version, i + 1);
      var w := GeneratedVersion(key(xs[j]), kind, version, j + 1);
      if key(xs[i]) == key(xs[j]) {
        GeneratedIdInjective(kind, v, i + 1, w, j + 1);
      }
    }
  }

  /** Identifiers of memories and actions are pairwise distinct, whatever the scenario says. */
  lemma MemoryAndActionIdsDistinct(sc: Scenario, s: WorldState)
    requires IdentifierInv(sc, s)
    ensures Unique(s.memories, MemoryKey) && Unique(s.actionResolutions, ActionKey)
  {
    GeneratedIdsDistinct(s.memories, MemoryKey, "memory-", s.version, 0);
    GeneratedIdsDistinct(s.actionResolutions, ActionKey, "action-", s.version, 0);
  }

  lemma FactIdsDistinct(sc: Scenario, s: WorldState)
    requires DistinctIds(sc) && NoGeneratedSecretIds(sc) && FactIdsGenerated(sc, s.facts, s.version)
    ensures Unique(s.facts, FactKey)
  {
    GeneratedIdsDistinct(s.facts, FactKey, "fact-", s.version, |sc.secrets|);
    forall i, j | 0 <= i < j < |s.facts|
      ensures FactKey(s.facts[i]) != FactKey(s.facts[j])
    {
      if j < |sc.secrets| {
        assert SecretKey(sc.secrets[i]) != SecretKey(sc.secrets[j]);
      } else if i < |sc.secrets| {
        var v := GeneratedVersion(s.facts[j].id, "fact-", s.version, j + 1);
        assert sc.secrets[i].id != FactId(v, j + 1);
      }
    }
  }

  // ---------- a session that collides, when an author chose an identifier of the generated form ----------

  const FILLER := FactToAdd("note", GmOnly, [], [], "reason", [], None)

  function Fillers(n: nat): seq<FactToAdd> {
    seq(n, i => FILLER)
  }

  function FillerDelta(n: nat): WorldStateDelta {
    EMPTY_DELTA.(factsToAdd := Fillers(n))
  }

  lemma FillerAccepted(lower: string -> string, sc: Scenario, s: WorldState, n: nat)
    ensures Accepts(lower, sc, s, FillerDelta(n))
  {
    var d := FillerDelta(n);
    assert FILLER.reason[0] == 'r';
    forall f | f in d.factsToAdd
      ensures CheckFact(lower, sc, s, d, f).Pass?
    {
      assert f == FILLER;
    }
    assert CheckCast(lower, sc, s, d).Pass?;
    assert CheckGroups(sc, s, d).Pass? && CheckPossessions(sc, s, d).Pass?;
  }

  function QuietTurns(n: nat): seq<WorldStateDelta> {
    seq(n, i => FillerDelta(0))
  }

  lemma {:induction false} QuietRun(lower: string -> string, sc: Scenario, s0: WorldState, n: nat)
    ensures AcceptedRun(lower, sc, s0, QuietTurns(n))
    ensures StateAfter(s0, QuietTurns(n)).version == s0.version + n
    ensures StateAfter(s0, QuietTurns(n)).facts == s0.facts
  {
    hide Accepts, Applied;
    if n == 0 {
      assert QuietTurns(0) == [];
    } else {
      QuietRun(lower, sc, s0, n - 1);
      var before := StateAfter(s0, QuietTurns(n - 1));
      assert QuietTurns(n) == QuietTurns(n - 1) + [FillerDelta(0)];
      FillerAccepted(lower, sc, before, 0);
      TurnExtendsRun(lower, sc, s0, QuietTurns(n - 1), FillerDelta(0));
      QuietTurnKeepsFacts(before);
    }
  }

  lemma QuietTurnKeepsFacts(s: WorldState)
    ensures Applied(s, FillerDelta(0)).facts == s.facts
  {
    assert FillerDelta(0).factsToAdd == [];
  }

  lemma FillersAppend(s: WorldState, n: nat)
    ensures |Applied(s, FillerDelta(n)).facts| == |s.facts| + n
    ensures s.facts <= Applied(s, FillerDelta(n)).facts
  {
    FactsGrow(s, FillerDelta(n));
    assert FillerDelta(n).npcChanges == [];
  }

  lemma FillersCollide(sc: Scenario, s: WorldState, k: nat, p: nat)
    requires k < |sc.secrets| == |s.facts| < p
    requires s.facts[k].id == FactId(s.version + 1, p)
    ensures !Unique(Applied(s, FillerDelta(p - |sc.secrets|)).facts, FactKey)
  {
    var facts := Applied(s, FillerDelta(p - |sc.secrets|)).facts;
    FillersAppend(s, p - |sc.secrets|);
    FactsGrow(s, FillerDelta(p - |sc.secrets|));
    assert FactKey(facts[k]) == FactKey(facts[p - 1]);
  }

  lemma CollisionReachable(
    lower: string -> string, sc: Scenario, s0: WorldState, k: nat, v: nat, p: nat)
    returns (deltas: seq<WorldStateDelta>)
    requires s0.version == 0 && s0.facts == Map(sc.secrets, InitialFact)
    requires k < |sc.secrets| && 1 <= v && |sc.secrets| < p && sc.secrets[k].id == FactId(v, p)
    ensures AcceptedRun(lower, sc, s0, deltas)
    ensures !Unique(StateAfter(s0, deltas).facts, FactKey)
  {
    hide Accepts, Applied, Unique;
    var quiet, last := QuietTurns(v - 1), FillerDelta(p - |sc.secrets|);
    QuietRun(lower, sc, s0, v - 1);
    FillerAccepted(lower, sc, StateAfter(s0, quiet), p - |sc.secrets|);
    TurnExtendsRun(lower, sc, s0, quiet, last);
    FillersCollide(sc, StateAfter(s0, quiet), k, p);
    deltas := quiet + [last];
  }

  /** Fact identifiers stay distinct over all runs if and only if no secret was named like a generated fact. */
  lemma FactIdsFreshForever(lower: string -> string, sc: Scenario, sessionId: SessionId)
    requires ValidScenario(sc)
    ensures (forall deltas | AcceptedRun(lower, sc, InitialWorldState(sessionId, sc), deltas) ::
               Unique(StateAfter(InitialWorldState(sessionId, sc), deltas).facts, FactKey))
            <==> NoGeneratedSecretIds(sc)
  {
    var s0 := InitialWorldState(sessionId, sc);
    if NoGeneratedSecretIds(sc) {
      forall deltas | AcceptedRun(lower, sc, s0, deltas)
        ensures Unique(StateAfter(s0, deltas).facts, FactKey)
      {
        ReachableWorldInv(lower, sc, sessionId, deltas);
        FactIdsDistinct(sc, StateAfter(s0, deltas));
      }
    } else {
      var k, v: nat, p: nat :| 0 <= k < |sc.secrets| && 1 <= v && |sc.secrets| < p && sc.secrets[k].id == FactId(v, p);
      var deltas := CollisionReachable(lower, sc, s0, k, v, p);
    }
  }
}
