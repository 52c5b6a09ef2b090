/**
 Clue changes are checked against the state before the turn and against the whole delta, but applied in
 order: a visibility change that comes before the discovery it relies on is accepted and then lost.
 */
module ClueDiscovery {
  import opened Sequences
  import opened Text
  import opened Domain
  import opened DeltaValidation
  import opened Reduction

  /** Some change discovers the clue. */
  ghost predicate Discovers(changes: seq<ClueChange>, id: EntityKey) {
    exists k :: 0 <= k < |changes| && changes[k].Discovered? && changes[k].clueId == id
  }

  /** The clues known after some changes are those known before and those discovered. */
  lemma {:induction false} KnownClues(clues: seq<ClueState>, changes: seq<ClueChange>, id: EntityKey)
    ensures Any(Clues(clues, changes), ClueIs(id)) <==> Any(clues, ClueIs(id)) || Discovers(changes, id)
    decreases |changes|
  {
    if |changes| > 0 {
      KnownClues(clues, Init(changes), id);
      KnownAfterStep(Clues(clues, Init(changes)), Last(changes), id);
    }
  }

  lemma KnownAfterStep(clues: seq<ClueState>, change: ClueChange, id: EntityKey)
    ensures Any(StepClue(clues, change), ClueIs(id)) <==>
            Any(clues, ClueIs(id)) || (change.Discovered? && change.clueId == id)
  {
    var after, hit := StepClue(clues, change), ClueIs(change.clueId);
    AnyIff(clues, ClueIs(id));
    AnyIff(after, ClueIs(id));
    AnyIff(clues, ClueIs(change.clueId));
    var i := FirstIndex(clues, hit);
    assert forall k | 0 <= k < |clues| :: after[k].id == clues[k].id;
    if change.Discovered? {
      if i < |clues| {
        assert after[i].id == change.clueId;
      } else {
        assert after[|clues|].id == change.clueId;
      }
    }
  }

  /** The change finds no clue to act on. */
  predicate Lost(clues: seq<ClueState>, changes: seq<ClueChange>, i: nat)
    requires i < |changes|
  {
    changes[i].ClueVisibilityChanged? && !Any(Clues(clues, changes[..i]), ClueIs(changes[i].clueId))
  }

  /** A visibility change is lost exactly when the clue is neither known before nor discovered earlier in the list. */
  lemma LostIff(clues: seq<ClueState>, changes: seq<ClueChange>, i: nat)
    requires i < |changes| && changes[i].ClueVisibilityChanged?
    ensures Lost(clues, changes, i) <==>
            !Any(clues, ClueIs(changes[i].clueId)) && !Discovers(changes[..i], changes[i].clueId)
  {
    KnownClues(clues, changes[..i], changes[i].clueId);
  }

  lemma {:induction false} CluesInTwo(clues: seq<ClueState>, first: seq<ClueChange>, then_: seq<ClueChange>)
    ensures Clues(clues, first + then_) == Clues(Clues(clues, first), then_)
    decreases |then_|
  {
    hide StepClue;
    if |then_| == 0 {
      assert first + then_ == first;
    } else {
      CluesInTwo(clues, first, Init(then_));
      assert Init(first + then_) == first + Init(then_) && Last(first + then_) == Last(then_);
    }
  }

  /** A lost change leaves no trace: the turn does what it would do without it. */
  lemma LostLeavesNoTrace(clues: seq<ClueState>, changes: seq<ClueChange>, i: nat)
    requires i < |changes| && Lost(clues, changes, i)
    ensures Clues(clues, changes) == Clues(clues, changes[..i] + changes[i + 1..])
  {
    LostStep(clues, changes, i);
    hide Clues, Lost;
    CutAndJoined(changes, i + 1);
    var first, upTo, later := changes[..i], changes[..i + 1], changes[i + 1..];
    CluesInTwo(clues, first, later);
    CluesInTwo(clues, upTo, later);
  }

  lemma LostStep(clues: seq<ClueState>, changes: seq<ClueChange>, i: nat)
    requires i < |changes| && Lost(clues, changes, i)
    ensures Clues(clues, changes[..i + 1]) == Clues(clues, changes[..i])
  {
    PrefixStep(changes, i);
    var before := Clues(clues, changes[..i]);
    assert StepClue(before, changes[i]) == before;
  }

  /** A delta that shows a clue first and discovers it, hidden, afterwards. */
  function ShownTooEarly(): WorldStateDelta {
    EMPTY_DELTA.(clueChanges := [
      ClueVisibilityChanged("clue", true, "reason"),
      Discovered("clue", "text", [], [], false, "reason")])
  }

  lemma ShownTooEarlyAccepted(lower: string -> string, sc: Scenario, s: WorldState)
    ensures Accepts(lower, sc, s, ShownTooEarly())
  {
    var d := ShownTooEarly();
    var shown, found := d.clueChanges[0], d.clueChanges[1];
    assert found in d.clueChanges && DiscoveredIn(d, "clue");
    assert shown.reason[0] == 'r' && found.clueId[0] == 'c' && found.text[0] == 't';
    assert CheckClue(sc, s, d, shown).Pass?;
    assert CheckClue(sc, s, d, found).Pass?;
    hide CheckClue;
    assert CheckCast(lower, sc, s, d).Pass? && CheckGroups(sc, s, d).Pass? && CheckPossessions(sc, s, d).Pass?;
  }

  /** It is accepted in every state, and where the clue was unknown it ends hidden. */
  lemma EarlyVisibilityChangeIsLost(lower: string -> string, sc: Scenario, s: WorldState)
    requires !Any(s.clues, ClueIs("clue"))
    ensures Accepts(lower, sc, s, ShownTooEarly())
    ensures Applied(s, ShownTooEarly()).clues == s.clues + [ClueState("clue", "text", [], [], false)]
  {
    ShownTooEarlyAccepted(lower, sc, s);
    hide Accepts;
    var changes := ShownTooEarly().clueChanges;
    assert Init(changes) == [changes[0]] && Init([changes[0]]) == [];
    assert Clues(s.clues, []) == s.clues;
    assert Clues(s.clues, [changes[0]]) == StepClue(s.clues, changes[0]) == s.clues;
  }
}
