/**
 Exactly when an accepted turn tells the player a GM-only text. Old secrets are safe; but the texts of one
 delta are never compared with each other, so a delta that writes a GM-only text and a player text that
 contains it reveals its own secret, and no other delta reveals anything.
 */
module SelfReveal {
  import opened Sequences
  import opened Text
  import opened Identifiers
  import opened Domain
  import opened ScenarioValidation
  import opened DeltaValidation
  import opened Reduction
  import opened Sessions
  import opened WorldInvariant
  import opened Secrecy
  import opened WrittenFacts

  // ---------- one turn ----------

  /** A non-blank text occurs, letter case aside, in another. */
  predicate Copies(lower: string -> string, secret: string, text: string) {
    !IsBlank(secret) && Contains(lower(text), lower(secret))
  }

  /** The delta writes a GM-only text and a player text that contains it. */
  ghost predicate CopiesOwnSecret(lower: string -> string, d: WorldStateDelta) {
    exists t, u :: t in WrittenTexts(d, GmOnly) && u in WrittenTexts(d, PlayerKnown) && Copies(lower, t, u)
  }

  /** A player fact from position `since` on contains a GM-only fact generated during play. */
  ghost predicate Reveals(lower: string -> string, sc: Scenario, facts: seq<Fact>, since: nat) {
    exists k, m ::
      && |sc.secrets| <= k < |facts| && since <= m < |facts|
      && facts[m].visibility.PlayerKnown? && LeaksInto(lower, facts[k], facts[m].text)
  }

  lemma CopyReveals(lower: string -> string, sc: Scenario, s: WorldState, d: WorldStateDelta)
    requires |sc.secrets| <= |s.facts| && CopiesOwnSecret(lower, d)
    ensures Reveals(lower, sc, Applied(s, d).facts, |s.facts|)
  {
    hide Applied, WrittenTexts, Contains;
    var t, u :| t in WrittenTexts(d, GmOnly) && u in WrittenTexts(d, PlayerKnown) && Copies(lower, t, u);
    NewTextIff(s, d, GmOnly, t);
    NewTextIff(s, d, PlayerKnown, u);
    var facts := Applied(s, d).facts;
    var k :| |s.facts| <= k < |facts| && facts[k].visibility == GmOnly && facts[k].text == t;
    var m :| |s.facts| <= m < |facts| && facts[m].visibility == PlayerKnown && facts[m].text == u;
    assert LeaksInto(lower, facts[k], facts[m].text);
  }

  /** A GM-only fact generated before the turn is in none of its player facts. */
  lemma OldSecretIsSafe(lower: string -> string, sc: Scenario, s: WorldState, d: WorldStateDelta, k: nat, m: nat)
    requires NoRevealableGeneratedIds(sc) && FactIdsGenerated(sc, s.facts, s.version) && Accepts(lower, sc, s, d)
    requires |sc.secrets| <= k < |s.facts| <= m < |Applied(s, d).facts|
    requires Applied(s, d).facts[m].visibility.PlayerKnown?
    ensures !LeaksInto(lower, Applied(s, d).facts[k], Applied(s, d).facts[m].text)
  {
    FactsGrow(s, d);
    TurnRevealsProven(lower, sc, s, d);
    hide Applied, Accepts, RevealsProven, FactIdsGenerated;
    if s.facts[k].visibility.GmOnly? {
      GeneratedFactsUnrevealable(lower, sc, s, d, k, m);
    }
  }

  lemma RevealIsACopy(lower: string -> string, sc: Scenario, s: WorldState, d: WorldStateDelta)
    requires NoRevealableGeneratedIds(sc) && FactIdsGenerated(sc, s.facts, s.version) && Accepts(lower, sc, s, d)
    requires Reveals(lower, sc, Applied(s, d).facts, |s.facts|)
    ensures CopiesOwnSecret(lower, d)
  {
    hide Applied, WrittenTexts, Contains, Accepts, FactIdsGenerated;
    var facts := Applied(s, d).facts;
    var k, m :| |sc.secrets| <= k < |facts| && |s.facts| <= m < |facts|
                && facts[m].visibility.PlayerKnown? && LeaksInto(lower, facts[k], facts[m].text);
    if k < |s.facts| {
      OldSecretIsSafe(lower, sc, s, d, k, m);
    }
    NewTextIff(s, d, GmOnly, facts[k].text);
    NewTextIff(s, d, PlayerKnown, facts[m].text);
    assert Copies(lower, facts[k].text, facts[m].text);
  }

  /** An accepted turn tells the player a GM-only text learnt in play if and only if it copies its own. */
  lemma TurnRevealsIff(lower: string -> string, sc: Scenario, s: WorldState, d: WorldStateDelta)
    requires NoRevealableGeneratedIds(sc) && FactIdsGenerated(sc, s.facts, s.version) && Accepts(lower, sc, s, d)
    ensures Reveals(lower, sc, Applied(s, d).facts, |s.facts|) <==> CopiesOwnSecret(lower, d)
  {
    hide Reveals, CopiesOwnSecret, Accepts, Applied;
    if Reveals(lower, sc, Applied(s, d).facts, |s.facts|) {
      RevealIsACopy(lower, sc, s, d);
    }
    if CopiesOwnSecret(lower, d) {
      CopyReveals(lower, sc, s, d);
    }
  }

  // ---------- whole runs ----------

  /** No player fact contains a GM-only fact generated by its own turn or an earlier one. */
  ghost predicate SecretsKept(lower: string -> string, sc: Scenario, facts: seq<Fact>) {
    forall k, m, v: nat, w: nat |
      && |sc.secrets| <= k < |facts| && |sc.secrets| <= m < |facts|
      && GeneratedBy(facts, k, v) && GeneratedBy(facts, m, w) && v <= w
      && facts[k].visibility.GmOnly? && facts[m].visibility.PlayerKnown? ::
      !LeaksInto(lower, facts[k], facts[m].text)
  }

  /** `after` extends `before` by the facts of the turn that made `version`. */
  ghost predicate TurnFacts(sc: Scenario, before: seq<Fact>, after: seq<Fact>, version: nat) {
    && |sc.secrets| <= |before| && before <= after
    && FactIdsGenerated(sc, after, version)
    && (forall k | |before| <= k < |after| :: GeneratedBy(after, k, version))
  }

  lemma OldFactKeepsOrigin(before: seq<Fact>, after: seq<Fact>, k: nat, v: nat)
    requires before <= after && k < |before|
    ensures before[k] == after[k] && (GeneratedBy(before, k, v) <==> GeneratedBy(after, k, v))
  {
  }

  lemma KeptFurther(
    lower: string -> string, sc: Scenario, before: seq<Fact>, after: seq<Fact>, version: nat)
    requires version >= 1 && TurnFacts(sc, before, after, version) && FactIdsGenerated(sc, before, version - 1)
    requires SecretsKept(lower, sc, before) && !Reveals(lower, sc, after, |before|)
    ensures SecretsKept(lower, sc, after)
  {
    hide LeaksInto;
    forall k, m, v: nat, w: nat |
      && |sc.secrets| <= k < |after| && |sc.secrets| <= m < |after|
      && GeneratedBy(after, k, v) && GeneratedBy(after, m, w) && v <= w
      && after[k].visibility.GmOnly? && after[m].visibility.PlayerKnown?
      ensures !LeaksInto(lower, after[k], after[m].text)
    {
      if m < |before| {
        OldFactKeepsOrigin(before, after, m, w);
        LatestVersion(sc, before, version - 1, m, w);
        if k < |before| {
          OldFactKeepsOrigin(before, after, k, v);
        } else {
          assert GeneratedBy(after, k, version);
          GeneratedIdInjective("fact-", v, k + 1, version, k + 1);
        }
      }
    }
  }

  lemma KeptBefore(
    lower: string -> string, sc: Scenario, before: seq<Fact>, after: seq<Fact>, version: nat)
    requires TurnFacts(sc, before, after, version) && SecretsKept(lower, sc, after)
    ensures SecretsKept(lower, sc, before) && !Reveals(lower, sc, after, |before|)
  {
    hide LeaksInto, FactIdsGenerated;
    forall k, m, v: nat, w: nat |
      && |sc.secrets| <= k < |before| && |sc.secrets| <= m < |before|
      && GeneratedBy(before, k, v) && GeneratedBy(before, m, w) && v <= w
      && before[k].visibility.GmOnly? && before[m].visibility.PlayerKnown?
      ensures !LeaksInto(lower, before[k], before[m].text)
    {
      OldFactKeepsOrigin(before, after, k, v);
      OldFactKeepsOrigin(before, after, m, w);
    }
    forall k, m |
      && |sc.secrets| <= k < |after| && |before| <= m < |after| && after[m].visibility.PlayerKnown?
      ensures !LeaksInto(lower, after[k], after[m].text)
    {
      if after[k].visibility.GmOnly? {
        var v := FactOrigin(sc, after, version, k);
        assert GeneratedBy(after, m, version);
      } else {
        PublicFactsDoNotLeak(lower, after[k], after[m].text);
      }
    }
  }

  lemma FactOrigin(sc: Scenario, facts: seq<Fact>, version: nat, k: nat) returns (v: nat)
    requires FactIdsGenerated(sc, facts, version) && |sc.secrets| <= k < |facts|
    ensures v <= version && GeneratedBy(facts, k, v)
  {
    v := GeneratedVersion(facts[k].id, "fact-", version, k + 1);
  }

  lemma PublicFactsDoNotLeak(lower: string -> string, fact: Fact, text: string)
    requires !fact.visibility.GmOnly?
    ensures !LeaksInto(lower, fact, text)
  {
  }

  lemma TurnExtendsFacts(sc: Scenario, s: WorldState, d: WorldStateDelta)
    requires FactIdsGenerated(sc, s.facts, s.version)
    ensures TurnFacts(sc, s.facts, Applied(s, d).facts, s.version + 1)
  {
    FactsGrow(s, d);
    StepFactIds(sc, s, d);
  }

  lemma TurnKeepsSecretsIff(lower: string -> string, sc: Scenario, s: WorldState, d: WorldStateDelta)
    requires NoRevealableGeneratedIds(sc) && FactIdsGenerated(sc, s.facts, s.version) && Accepts(lower, sc, s, d)
    ensures SecretsKept(lower, sc, Applied(s, d).facts) <==>
            SecretsKept(lower, sc, s.facts) && !CopiesOwnSecret(lower, d)
  {
    hide SecretsKept, CopiesOwnSecret, Reveals, Accepts, Applied, TurnFacts;
    TurnExtendsFacts(sc, s, d);
    TurnRevealsIff(lower, sc, s, d);
    if SecretsKept(lower, sc, Applied(s, d).facts) {
      KeptBefore(lower, sc, s.facts, Applied(s, d).facts, s.version + 1);
    } else if SecretsKept(lower, sc, s.facts) && !CopiesOwnSecret(lower, d) {
      KeptFurther(lower, sc, s.facts, Applied(s, d).facts, s.version + 1);
    }
  }

  /** A run keeps every secret learnt in play, at all times, if and only if no delta of it copies its own. */
  lemma {:induction false} RunKeepsSecretsIff(
    lower: string -> string, sc: Scenario, sessionId: SessionId, deltas: seq<WorldStateDelta>)
    requires ValidScenario(sc) && NoRevealableGeneratedIds(sc)
    requires AcceptedRun(lower, sc, InitialWorldState(sessionId, sc), deltas)
    ensures SecretsKept(lower, sc, StateAfter(InitialWorldState(sessionId, sc), deltas).facts) <==>
            forall d | d in deltas :: !CopiesOwnSecret(lower, d)
    decreases |deltas|
  {
    if |deltas| > 0 {
      hide SecretsKept, CopiesOwnSecret, NoRevealableGeneratedIds;
      RunKeepsSecretsIff(lower, sc, sessionId, Init(deltas));
      ReachableWorldInv(lower, sc, sessionId, Init(deltas));
      TurnKeepsSecretsIff(lower, sc, StateAfter(InitialWorldState(sessionId, sc), Init(deltas)), Last(deltas));
      InitLast(deltas);
      assert forall d :: d in deltas <==> d in Init(deltas) || d == Last(deltas);
    }
  }
}
