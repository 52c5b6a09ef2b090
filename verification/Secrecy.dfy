/**
 Reveal safety. A fact enters the player's knowledge together with a GM-only text only as a proven
 reveal of that very secret; and what the GM learns in play is never contained in a player fact of a
 later turn.
 */
module Secrecy {
  import opened Wrappers
  import opened Sequences
  import opened Text
  import opened Identifiers
  import opened Domain
  import opened ScenarioValidation
  import opened DeltaValidation
  import opened Reduction
  import opened Sessions
  import opened WorldInvariant

  /** `fact` names the GM-only fact, satisfies a condition of that scenario secret, and a visible clue proves it. */
  ghost predicate ProvenReveal(sc: Scenario, s: WorldState, d: WorldStateDelta, gm: Fact, fact: Fact) {
    && gm.id in fact.relatedSecretIds
    && |gm.revealConditions| > 0
    && fact.revealConditionSatisfied.Some?
    && var condition := fact.revealConditionSatisfied.value;
    && ConditionOfAll(sc, fact.relatedSecretIds, condition)
    && (ProofInWorld(s, fact.relatedSecretIds, condition) || ProofInDelta(s, d, fact.relatedSecretIds, condition))
  }

  /** No player fact of `facts` from position `from` on contains a GM-only text of `s` without proof. */
  ghost predicate RevealsProven(
    lower: string -> string, sc: Scenario, s: WorldState, d: WorldStateDelta, facts: seq<Fact>, from: nat)
  {
    forall k, gm | from <= k < |facts| && facts[k].visibility.PlayerKnown? && gm in s.facts ::
      LeaksInto(lower, gm, facts[k].text) ==> ProvenReveal(sc, s, d, gm, facts[k])
  }

  lemma LearnedFactSafe(lower: string -> string, sc: Scenario, s: WorldState, change: NpcChange, gm: Fact)
    requires change.KnowledgeAdded? && CheckNpc(lower, sc, s, change).Pass?
    requires change.visibility.PlayerKnown? && gm in s.facts
    ensures !LeaksInto(lower, gm, change.fact)
  {
    assert CheckNpcContent(lower, sc, s, change).Pass?;
    assert |LeakedGmOnlyFacts(lower, s, change.fact)| == 0;
    assert gm !in LeakedGmOnlyFacts(lower, s, change.fact);
  }

  lemma {:induction false} LearnedFactsSafe(
    lower: string -> string, sc: Scenario, s: WorldState, d: WorldStateDelta, facts: seq<Fact>,
    changes: seq<NpcChange>)
    requires forall c | c in changes :: CheckNpc(lower, sc, s, c).Pass?
    requires |s.facts| <= |facts| && RevealsProven(lower, sc, s, d, facts, |s.facts|)
    ensures RevealsProven(lower, sc, s, d, FactsLearned(facts, changes, s.version + 1), |s.facts|)
    decreases |changes|
  {
    if |changes| > 0 {
      InitLast(changes);
      assert forall c | c in Init(changes) :: c in changes;
      LearnedFactsSafe(lower, sc, s, d, facts, Init(changes));
      var before := FactsLearned(facts, Init(changes), s.version + 1);
      assert CheckNpc(lower, sc, s, Last(changes)).Pass?;
      if Last(changes).KnowledgeAdded? {
        var fact := LearnedFact(Last(changes), FactId(s.version + 1, |before| + 1));
        forall gm | gm in s.facts && fact.visibility.PlayerKnown? ensures !LeaksInto(lower, gm, fact.text) {
          LearnedFactSafe(lower, sc, s, Last(changes), gm);
        }
        OneMoreFactProven(lower, sc, s, d, before, fact);
      }
    }
  }

  lemma {:induction false} AddedFactsProven(
    lower: string -> string, sc: Scenario, s: WorldState, d: WorldStateDelta, adds: seq<FactToAdd>)
    requires forall f | f in adds :: CheckFact(lower, sc, s, d, f).Pass?
    ensures RevealsProven(lower, sc, s, d, FactsAdded(s.facts, adds, s.version + 1), |s.facts|)
    decreases |adds|
  {
    if |adds| > 0 {
      InitLast(adds);
      assert forall f | f in Init(adds) :: f in adds;
      AddedFactsProven(lower, sc, s, d, Init(adds));
      var before := FactsAdded(s.facts, Init(adds), s.version + 1);
      var id := FactId(s.version + 1, |before| + 1);
      assert Last(adds) in adds;
      forall gm | gm in s.facts && Last(adds).visibility.PlayerKnown? && LeaksInto(lower, gm, Last(adds).text)
        ensures ProvenReveal(sc, s, d, gm, AddedFact(Last(adds), id))
      {
        assert CheckLeak(Last(adds), gm).Pass?;
      }
      OneMoreFactProven(lower, sc, s, d, before, AddedFact(Last(adds), id));
    }
  }

  lemma OneMoreFactProven(
    lower: string -> string, sc: Scenario, s: WorldState, d: WorldStateDelta, facts: seq<Fact>, fact: Fact)
    requires |s.facts| <= |facts| && RevealsProven(lower, sc, s, d, facts, |s.facts|)
    requires forall gm | gm in s.facts && fact.visibility.PlayerKnown? && LeaksInto(lower, gm, fact.text) ::
               ProvenReveal(sc, s, d, gm, fact)
    ensures RevealsProven(lower, sc, s, d, facts + [fact], |s.facts|)
  {
    var after := facts + [fact];
    forall k, gm | |s.facts| <= k < |after| && after[k].visibility.PlayerKnown? && gm in s.facts
      ensures LeaksInto(lower, gm, after[k].text) ==> ProvenReveal(sc, s, d, gm, after[k])
    {
      if k < |facts| {
        assert after[k] == facts[k];
      }
    }
  }

  lemma AcceptedFactsAndNpcs(lower: string -> string, sc: Scenario, s: WorldState, d: WorldStateDelta)
    requires Accepts(lower, sc, s, d)
    ensures forall f | f in d.factsToAdd :: CheckFact(lower, sc, s, d, f).Pass?
    ensures forall c | c in d.npcChanges :: CheckNpc(lower, sc, s, c).Pass?
  {
    hide CheckFact, CheckNpc;
    assert CheckCast(lower, sc, s, d).Pass?;
  }

  lemma FactsAfter(s: WorldState, d: WorldStateDelta)
    ensures Applied(s, d).facts ==
            FactsLearned(FactsAdded(s.facts, d.factsToAdd, s.version + 1), d.npcChanges, s.version + 1)
    ensures |FactsAdded(s.facts, d.factsToAdd, s.version + 1)| >= |s.facts|
  {
    hide FactsLearned;
    FactsAddedIds(s.facts, d.factsToAdd, s.version + 1);
  }

  /** One turn: every new player fact that contains a GM-only text is a proven reveal of that text. */
  lemma TurnRevealsProven(lower: string -> string, sc: Scenario, s: WorldState, d: WorldStateDelta)
    requires Accepts(lower, sc, s, d)
    ensures RevealsProven(lower, sc, s, d, Applied(s, d).facts, |s.facts|)
  {
    AcceptedFactsAndNpcs(lower, sc, s, d);
    FactsAfter(s, d);
    hide Accepts, CheckFact, CheckNpc, RevealsProven, Applied, FactsAdded, FactsLearned;
    AddedFactsProven(lower, sc, s, d, d.factsToAdd);
    LearnedFactsSafe(lower, sc, s, d, FactsAdded(s.facts, d.factsToAdd, s.version + 1), d.npcChanges);
  }

  /** No secret that could be revealed carries an identifier that the reducer could generate for a fact. */
  ghost predicate NoRevealableGeneratedIds(sc: Scenario) {
    forall k, v: nat, p: nat |
      && 0 <= k < |sc.secrets| && 1 <= v && |sc.secrets| < p && sc.secrets[k].id == FactId(v, p) ::
      |sc.secrets[k].revealConditions| == 0
  }

  lemma {:induction false} ConditionsAreWritten(secrets: seq<Secret>, id: EntityKey, c: EntityKey)
    requires id in SecretConditions(secrets) && c in SecretConditions(secrets)[id]
    ensures exists k :: 0 <= k < |secrets| && secrets[k].id == id && |secrets[k].revealConditions| > 0
    decreases |secrets|
  {
    if |secrets| > 0 {
      var last := secrets[|secrets| - 1];
      if last.id == id {
        assert c in ConditionIds(last);
        assert secrets[|secrets| - 1].id == id && |secrets[|secrets| - 1].revealConditions| > 0;
      } else {
        ConditionsAreWritten(secrets[..|secrets| - 1], id, c);
        var k :| 0 <= k < |secrets| - 1 && secrets[..|secrets| - 1][k].id == id
                 && |secrets[..|secrets| - 1][k].revealConditions| > 0;
        assert secrets[k].id == id;
      }
    }
  }

  lemma GeneratedIdHasNoCondition(sc: Scenario, v: nat, p: nat, c: EntityKey)
    requires NoRevealableGeneratedIds(sc) && 1 <= v && |sc.secrets| < p
    ensures !(FactId(v, p) in SecretConditions(sc.secrets) && c in SecretConditions(sc.secrets)[FactId(v, p)])
  {
    if FactId(v, p) in SecretConditions(sc.secrets) && c in SecretConditions(sc.secrets)[FactId(v, p)] {
      ConditionsAreWritten(sc.secrets, FactId(v, p), c);
    }
  }

  /** Only what the author wrote as a secret can ever be revealed. */
  lemma GeneratedFactsUnrevealable(
    lower: string -> string, sc: Scenario, s: WorldState, d: WorldStateDelta, k: nat, m: nat)
    requires NoRevealableGeneratedIds(sc) && FactIdsGenerated(sc, s.facts, s.version)
    requires RevealsProven(lower, sc, s, d, Applied(s, d).facts, |s.facts|)
    requires |sc.secrets| <= k < |s.facts| <= m < |Applied(s, d).facts|
    requires s.facts[k].visibility.GmOnly? && Applied(s, d).facts[m].visibility.PlayerKnown?
    ensures !LeaksInto(lower, s.facts[k], Applied(s, d).facts[m].text)
  {
    hide Applied, LeaksInto, SecretConditions, NoRevealableGeneratedIds;
    var gm := s.facts[k];
    var v := GeneratedVersion(gm.id, "fact-", s.version, k + 1);
    if LeaksInto(lower, gm, Applied(s, d).facts[m].text) {
      assert gm in s.facts;
      assert ProvenReveal(sc, s, d, gm, Applied(s, d).facts[m]);
      GeneratedIdHasNoCondition(sc, v, k + 1, Applied(s, d).facts[m].revealConditionSatisfied.value.id);
    }
  }

  /** The fact at position `k` was generated by the turn that produced version `v`. */
  ghost predicate GeneratedBy(facts: seq<Fact>, k: nat, v: nat)
    requires k < |facts|
  {
    facts[k].id == FactId(v, k + 1)
  }

  /** In `facts`, no player fact generated after version `v` contains a GM-only fact generated at `v` or before. */
  ghost predicate LaterFactsKeepSecrets(lower: string -> string, sc: Scenario, facts: seq<Fact>) {
    forall k, m, v: nat, w: nat |
      && |sc.secrets| <= k < |facts| && |sc.secrets| <= m < |facts|
      && GeneratedBy(facts, k, v) && GeneratedBy(facts, m, w) && v < w
      && facts[k].visibility.GmOnly? && facts[m].visibility.PlayerKnown? ::
      !LeaksInto(lower, facts[k], facts[m].text)
  }

  lemma StepKeepsSecrets(lower: string -> string, sc: Scenario, s: WorldState, d: WorldStateDelta)
    requires NoRevealableGeneratedIds(sc) && FactIdsGenerated(sc, s.facts, s.version)
    requires LaterFactsKeepSecrets(lower, sc, s.facts) && Accepts(lower, sc, s, d)
    ensures LaterFactsKeepSecrets(lower, sc, Applied(s, d).facts)
  {
    hide Accepts, RevealsProven, Applied, LeaksInto;
    var facts := Applied(s, d).facts;
    FactsGrow(s, d);
    TurnRevealsProven(lower, sc, s, d);
    StepFactIds(sc, s, d);
    forall k, m, v: nat, w: nat |
      && |sc.secrets| <= k < |facts| && |sc.secrets| <= m < |facts|
      && GeneratedBy(facts, k, v) && GeneratedBy(facts, m, w) && v < w
      && facts[k].visibility.GmOnly? && facts[m].visibility.PlayerKnown?
      ensures !LeaksInto(lower, facts[k], facts[m].text)
    {
      LatestVersion(sc, facts, s.version + 1, m, w);
      if |s.facts| <= k {
        GeneratedIdInjective("fact-", v, k + 1, s.version + 1, k + 1);
      } else if |s.facts| <= m {
        GeneratedFactsUnrevealable(lower, sc, s, d, k, m);
      } else {
        assert GeneratedBy(s.facts, k, v) && GeneratedBy(s.facts, m, w);
      }
    }
  }

  lemma LatestVersion(sc: Scenario, facts: seq<Fact>, version: nat, m: nat, w: nat)
    requires FactIdsGenerated(sc, facts, version) && |sc.secrets| <= m < |facts|
    requires facts[m].id == FactId(w, m + 1)
    ensures w <= version
  {
    var v := GeneratedVersion(facts[m].id, "fact-", version, m + 1);
    GeneratedIdInjective("fact-", v, m + 1, w, m + 1);
  }

  /** In every reachable state, what the GM learnt in one turn is in no player fact of a later turn. */
  lemma {:induction false} SecretsOutliveTheirTurn(
    lower: string -> string, sc: Scenario, sessionId: SessionId, deltas: seq<WorldStateDelta>)
    requires ValidScenario(sc) && NoRevealableGeneratedIds(sc)
    requires AcceptedRun(lower, sc, InitialWorldState(sessionId, sc), deltas)
    ensures LaterFactsKeepSecrets(lower, sc, StateAfter(InitialWorldState(sessionId, sc), deltas).facts)
    decreases |deltas|
  {
    if |deltas| > 0 {
      SecretsOutliveTheirTurn(lower, sc, sessionId, Init(deltas));
      ReachableWorldInv(lower, sc, sessionId, Init(deltas));
      StepKeepsSecrets(lower, sc, StateAfter(InitialWorldState(sessionId, sc), Init(deltas)), Last(deltas));
    }
  }

  function Note(text: string, visibility: FactVisibility): FactToAdd {
    FactToAdd(text, visibility, [], [], "reason", [], None)
  }

  /** A delta that adds a GM-only text and repeats it as a player fact. */
  function SecretAndCopy(text: string): WorldStateDelta {
    EMPTY_DELTA.(factsToAdd := [Note(text, GmOnly), Note(text, PlayerKnown)])
  }

  lemma SecretAndCopyAccepted(lower: string -> string, sc: Scenario, s: WorldState, text: string)
    requires |LeakedGmOnlyFacts(lower, s, text)| == 0
    ensures Accepts(lower, sc, s, SecretAndCopy(text))
  {
    var d := SecretAndCopy(text);
    assert Note(text, GmOnly).reason[0] == 'r';
    assert CheckFact(lower, sc, s, d, Note(text, GmOnly)).Pass?;
    assert CheckFact(lower, sc, s, d, Note(text, PlayerKnown)).Pass?;
    assert CheckCast(lower, sc, s, d).Pass? && CheckGroups(sc, s, d).Pass? && CheckPossessions(sc, s, d).Pass?;
  }

  /**
   Within one turn nothing is compared: in every state whose old secrets a text does not contain, the accepted
   copy contains the secret of the same turn.
   */
  lemma SameTurnMayReveal(lower: string -> string, sc: Scenario, s: WorldState, text: string)
    requires !IsBlank(text) && |LeakedGmOnlyFacts(lower, s, text)| == 0
    ensures Accepts(lower, sc, s, SecretAndCopy(text))
    ensures var facts, n := Applied(s, SecretAndCopy(text)).facts, |s.facts|;
            |facts| == n + 2 && facts[n + 1].visibility.PlayerKnown? && LeaksInto(lower, facts[n], facts[n + 1].text)
  {
    hide Accepts;
    SecretAndCopyAccepted(lower, sc, s, text);
    var adds := SecretAndCopy(text).factsToAdd;
    FactsAddedIds(s.facts, adds, s.version + 1);
    assert OccursAt(lower(text), lower(text), 0);
    ContainsIff(lower(text), lower(text));
    var facts := FactsAdded(s.facts, adds, s.version + 1);
    assert facts[|s.facts|].text == text && facts[|s.facts| + 1].text == text;
  }
}
