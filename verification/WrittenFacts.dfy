/** The fact texts a delta writes, and that the facts a turn appends carry exactly these. */
module WrittenFacts {
  import opened Wrappers
  import opened Sequences
  import opened Identifiers
  import opened Domain
  import opened Reduction
  import opened WorldInvariant
  import Secrecy

  function TextOf(v: FactVisibility): Fact -> Option<string> {
    (f: Fact) => if f.visibility == v then Some(f.text) else None
  }

  function AddedText(v: FactVisibility): FactToAdd -> Option<string> {
    (f: FactToAdd) => if f.visibility == v then Some(f.text) else None
  }

  function TaughtText(v: FactVisibility): NpcChange -> Option<string> {
    (c: NpcChange) => if c.KnowledgeAdded? && c.visibility == v then Some(c.fact) else None
  }

  /** The fact texts of one visibility, from the facts a delta adds and from what it teaches npcs. */
  function WrittenTexts(d: WorldStateDelta, v: FactVisibility): seq<string> {
    FilterMap(d.factsToAdd, AddedText(v)) + FilterMap(d.npcChanges, TaughtText(v))
  }

  lemma {:induction false} AddedTexts(facts: seq<Fact>, adds: seq<FactToAdd>, version: nat, v: FactVisibility)
    ensures FilterMap(FactsAdded(facts, adds, version), TextOf(v)) ==
            FilterMap(facts, TextOf(v)) + FilterMap(adds, AddedText(v))
    decreases |adds|
  {
    if |adds| == 0 {
      assert FilterMap(facts, TextOf(v)) + [] == FilterMap(facts, TextOf(v));
    } else {
      AddedTexts(facts, Init(adds), version, v);
      var before := FactsAdded(facts, Init(adds), version);
      FilterMapPush(before, AddedFact(Last(adds), FactId(version, |before| + 1)), TextOf(v));
      FilterMapLast(adds, AddedText(v));
      var last := if Last(adds).visibility == v then [Last(adds).text] else [];
      ConcatAssociates(FilterMap(facts, TextOf(v)), FilterMap(Init(adds), AddedText(v)), last);
    }
  }

  lemma {:induction false} TaughtTexts(facts: seq<Fact>, changes: seq<NpcChange>, version: nat, v: FactVisibility)
    ensures FilterMap(FactsLearned(facts, changes, version), TextOf(v)) ==
            FilterMap(facts, TextOf(v)) + FilterMap(changes, TaughtText(v))
    decreases |changes|
  {
    if |changes| == 0 {
      assert FilterMap(facts, TextOf(v)) + [] == FilterMap(facts, TextOf(v));
    } else {
      TaughtTexts(facts, Init(changes), version, v);
      var before, change := FactsLearned(facts, Init(changes), version), Last(changes);
      FilterMapLast(changes, TaughtText(v));
      if change.KnowledgeAdded? {
        FilterMapPush(before, LearnedFact(change, FactId(version, |before| + 1)), TextOf(v));
        var last := if change.visibility == v then [change.fact] else [];
        ConcatAssociates(FilterMap(facts, TextOf(v)), FilterMap(Init(changes), TaughtText(v)), last);
      }
    }
  }

  /** The texts of each visibility after a turn: those before it, then those the delta writes, in order. */
  lemma TurnWrites(s: WorldState, d: WorldStateDelta, v: FactVisibility)
    ensures FilterMap(Applied(s, d).facts, TextOf(v)) == FilterMap(s.facts, TextOf(v)) + WrittenTexts(d, v)
  {
    Secrecy.FactsAfter(s, d);
    hide Applied, FactsAdded, FactsLearned, FilterMap;
    var version := s.version + 1;
    AddedTexts(s.facts, d.factsToAdd, version, v);
    TaughtTexts(FactsAdded(s.facts, d.factsToAdd, version), d.npcChanges, version, v);
    ConcatAssociates(
      FilterMap(s.facts, TextOf(v)), FilterMap(d.factsToAdd, AddedText(v)), FilterMap(d.npcChanges, TaughtText(v)));
  }

  /** So the facts a turn appends carry exactly the texts it writes. */
  lemma NewTexts(s: WorldState, d: WorldStateDelta, v: FactVisibility)
    ensures |s.facts| <= |Applied(s, d).facts|
    ensures FilterMap(Applied(s, d).facts[|s.facts|..], TextOf(v)) == WrittenTexts(d, v)
  {
    FactsGrow(s, d);
    hide Applied;
    var after := Applied(s, d).facts;
    assert after == s.facts + after[|s.facts|..];
    FilterMapAppend(s.facts, after[|s.facts|..], TextOf(v));
    TurnWrites(s, d, v);
    var old_, fresh_ := FilterMap(s.facts, TextOf(v)), FilterMap(after[|s.facts|..], TextOf(v));
    assert (old_ + fresh_)[|old_|..] == fresh_ && (old_ + WrittenTexts(d, v))[|old_|..] == WrittenTexts(d, v);
  }

  /** A text is written with this visibility exactly when some new fact carries it. */
  lemma NewTextIff(s: WorldState, d: WorldStateDelta, v: FactVisibility, text: string)
    ensures |s.facts| <= |Applied(s, d).facts|
    ensures text in WrittenTexts(d, v) <==>
            exists k :: |s.facts| <= k < |Applied(s, d).facts|
                        && Applied(s, d).facts[k].visibility == v && Applied(s, d).facts[k].text == text
  {
    NewTexts(s, d, v);
    hide Applied, FilterMap, WrittenTexts;
    var after, n := Applied(s, d).facts, |s.facts|;
    FilterMapMember(after[n..], TextOf(v), text);
    if k :| n <= k < |after| && after[k].visibility == v && after[k].text == text {
      assert after[k] == after[n..][k - n];
      assert after[k] in after[n..] && TextOf(v)(after[k]) == Some(text);
    }
    if f :| f in after[n..] && TextOf(v)(f) == Some(text) {
      var j :| 0 <= j < |after[n..]| && after[n..][j] == f;
      assert after[n + j] == f;
    }
  }
}
