/**
 Ranges over whole runs. Trust, suspicion, loyalty and goal progress are checked one increment at a time
 against the state before the turn; runs whose deltas change each of them at most once keep them in range.
 */
module MetricRanges {
  import opened Wrappers
  import opened Sequences
  import opened Domain
  import opened ScenarioValidation
  import opened DeltaValidation
  import opened Reduction
  import opened KeyedLists
  import opened Sessions
  import opened WorldInvariant
  import opened Metrics

  // ---------- relationships ----------

  predicate RelationshipInRange(r: RelationshipState) {
    InRange(r.trust) && InRange(r.suspicion) && InRange(r.loyalty)
  }

  ghost predicate RelationshipsInRange(rs: seq<RelationshipState>) {
    forall k | 0 <= k < |rs| :: RelationshipInRange(rs[k])
  }

  /** What the sums of its increments make of the relationship of a pair is in range. */
  ghost predicate PairSumsInRange(
    rs: seq<RelationshipState>, changes: seq<RelationshipChange>, source: EntityKey, target: EntityKey)
  {
    var before := RelationshipIn(rs, source, target);
    && InRange(before.trust + Sum(FilterMap(changes, TrustDeltas(source, target))))
    && InRange(before.suspicion + Sum(FilterMap(changes, SuspicionDeltas(source, target))))
    && InRange(before.loyalty + Sum(FilterMap(changes, LoyaltyDeltas(source, target))))
  }

  /** A pair that is not listed is neutral, so the list is in range when every pair is. */
  lemma PairsInRangeIff(rs: seq<RelationshipState>)
    requires Unique(rs, RelationshipKey)
    ensures RelationshipsInRange(rs) <==>
            forall source, target :: RelationshipInRange(RelationshipIn(rs, source, target))
  {
    if RelationshipsInRange(rs) {
      forall source, target ensures RelationshipInRange(RelationshipIn(rs, source, target)) {
        var i := FirstIndex(rs, RelationshipIs(source, target));
        assert i < |rs| ==> RelationshipInRange(rs[i]);
      }
    }
    if forall source, target :: RelationshipInRange(RelationshipIn(rs, source, target)) {
      forall k | 0 <= k < |rs| ensures RelationshipInRange(rs[k]) {
        assert RelationshipInRange(RelationshipIn(rs, rs[k].sourceId, rs[k].targetId));
      }
    }
  }

  lemma PairAfter(rs: seq<RelationshipState>, changes: seq<RelationshipChange>, source: EntityKey, target: EntityKey)
    requires Unique(rs, RelationshipKey)
    ensures RelationshipInRange(RelationshipIn(Relationships(rs, changes), source, target)) <==>
            PairSumsInRange(rs, changes, source, target)
  {
    hide RelationshipIn, Relationships, FilterMap, Sum;
    RelationshipsConserve(rs, changes, source, target);
  }

  /** Exactly the changes whose increments add up within range keep the ranges. */
  lemma RelationshipRangesKeptIff(rs: seq<RelationshipState>, changes: seq<RelationshipChange>)
    requires Unique(rs, RelationshipKey)
    ensures RelationshipsInRange(Relationships(rs, changes)) <==>
            forall source, target :: PairSumsInRange(rs, changes, source, target)
  {
    RelationshipsRefine(rs, changes);
    hide RelationshipIn, Relationships, PairSumsInRange, RelationshipInRange, RelationshipsInRange;
    PairsInRangeIff(Relationships(rs, changes));
    forall source, target
      ensures RelationshipInRange(RelationshipIn(Relationships(rs, changes), source, target)) <==>
              PairSumsInRange(rs, changes, source, target)
    {
      PairAfter(rs, changes, source, target);
    }
  }

  /** At most one change of each metric of each pair. */
  ghost predicate OneChangePerPair(changes: seq<RelationshipChange>) {
    forall source, target :: OneChangeOfPair(changes, source, target)
  }

  predicate OneChangeOfPair(changes: seq<RelationshipChange>, source: EntityKey, target: EntityKey) {
    && |FilterMap(changes, TrustDeltas(source, target))| <= 1
    && |FilterMap(changes, SuspicionDeltas(source, target))| <= 1
    && |FilterMap(changes, LoyaltyDeltas(source, target))| <= 1
  }

  lemma SingleChangesLand(sc: Scenario, s: WorldState, changes: seq<RelationshipChange>)
    requires Unique(s.relationships, RelationshipKey) && RelationshipsInRange(s.relationships)
    requires forall c | c in changes :: CheckRelationship(sc, s, c).Pass?
    requires OneChangePerPair(changes)
    ensures RelationshipsInRange(Relationships(s.relationships, changes))
  {
    hide RelationshipIn, Relationships, RelationshipsInRange, CheckRelationship, FilterMap, Sum;
    PairsInRangeIff(s.relationships);
    RelationshipRangesKeptIff(s.relationships, changes);
    forall source, target ensures PairSumsInRange(s.relationships, changes, source, target) {
      assert OneChangeOfPair(changes, source, target);
      assert RelationshipInRange(RelationshipIn(s.relationships, source, target));
      RelationshipsMoveLawfully(sc, s, changes, source, target);
    }
  }

  lemma AcceptedRelationships(lower: string -> string, sc: Scenario, s: WorldState, d: WorldStateDelta)
    requires Accepts(lower, sc, s, d)
    ensures forall c | c in d.relationshipChanges :: CheckRelationship(sc, s, c).Pass?
    ensures Applied(s, d).relationships == Relationships(s.relationships, d.relationshipChanges)
  {
    hide CheckRelationship, Relationships;
    assert CheckGroups(sc, s, d).Pass?;
  }

  /** Over every run of such deltas trust, suspicion and loyalty stay between -100 and 100. */
  lemma {:induction false} RunsKeepRelationshipRanges(
    lower: string -> string, sc: Scenario, sessionId: SessionId, deltas: seq<WorldStateDelta>)
    requires ValidScenario(sc)
    requires AcceptedRun(lower, sc, InitialWorldState(sessionId, sc), deltas)
    requires forall d | d in deltas :: OneChangePerPair(d.relationshipChanges)
    ensures RelationshipsInRange(StateAfter(InitialWorldState(sessionId, sc), deltas).relationships)
    decreases |deltas|
  {
    if |deltas| > 0 {
      hide OneChangePerPair, RelationshipsInRange, Relationships, Applied, Accepts;
      InitLast(deltas);
      assert forall d | d in Init(deltas) :: d in deltas;
      RunsKeepRelationshipRanges(lower, sc, sessionId, Init(deltas));
      ReachableWorldInv(lower, sc, sessionId, Init(deltas));
      var before := StateAfter(InitialWorldState(sessionId, sc), Init(deltas));
      assert Last(deltas) in deltas;
      AcceptedRelationships(lower, sc, before, Last(deltas));
      SingleChangesLand(sc, before, Last(deltas).relationshipChanges);
    }
  }

  // ---------- goals ----------

  ghost predicate GoalsInRange(goals: seq<PlayerGoal>) {
    forall k | 0 <= k < |goals| :: 0 <= goals[k].progress <= 100
  }

  /** At most one step of progress for each goal identifier. */
  ghost predicate OneStepPerGoal(changes: seq<PlayerChange>) {
    forall id :: |FilterMap(changes, ProgressDeltas(id))| <= 1
  }

  /** Goals that a turn adds keep their validated progress: steps go to goals known before the turn. */
  lemma {:induction false} NewGoalsInRange(s: WorldState, changes: seq<PlayerChange>)
    requires forall c | c in changes :: CheckPlayer(s, c).Pass?
    ensures |s.player.goals| <= |Player(s.player, changes).goals|
    ensures GoalsInRange(Player(s.player, changes).goals[|s.player.goals|..])
    decreases |changes|
  {
    if |changes| > 0 {
      InitLast(changes);
      assert forall c | c in Init(changes) :: c in changes;
      NewGoalsInRange(s, Init(changes));
      GoalsKeepPlaces(s.player, Init(changes));
      assert Last(changes) in changes;
      NewGoalStep(s, Player(s.player, Init(changes)), Last(changes));
    }
  }

  lemma NewGoalStep(s: WorldState, p: PlayerCharacterState, change: PlayerChange)
    requires CheckPlayer(s, change).Pass?
    requires |s.player.goals| <= |p.goals| && GoalsInRange(p.goals[|s.player.goals|..])
    requires forall j | 0 <= j < |s.player.goals| :: p.goals[j].id == s.player.goals[j].id
    ensures |s.player.goals| <= |StepPlayer(p, change).goals|
    ensures GoalsInRange(StepPlayer(p, change).goals[|s.player.goals|..])
  {
    var n, after := |s.player.goals|, StepPlayer(p, change).goals;
    if change.GoalProgressed? {
      FirstGoalStays(s.player.goals, p.goals, change.goalId);
      forall k | n <= k < |after| ensures after[k] == p.goals[n..][k - n] {
      }
    } else {
      forall k | n <= k < |after| ensures 0 <= after[k].progress <= 100 {
        assert k < |p.goals| ==> after[k] == p.goals[n..][k - n];
      }
    }
  }

  lemma SingleStepsLand(s: WorldState, changes: seq<PlayerChange>)
    requires GoalsInRange(s.player.goals) && OneStepPerGoal(changes)
    requires forall c | c in changes :: CheckPlayer(s, c).Pass?
    ensures GoalsInRange(Player(s.player, changes).goals)
  {
    var after, n := Player(s.player, changes).goals, |s.player.goals|;
    NewGoalsInRange(s, changes);
    forall k | 0 <= k < |after| ensures 0 <= after[k].progress <= 100 {
      if k < n {
        GoalProgress(s.player, changes, k);
        var id := s.player.goals[k].id;
        if FirstIndex(s.player.goals, GoalIs(id)) == k {
          GoalsMoveLawfully(s, changes, k);
          assert |FilterMap(changes, ProgressDeltas(id))| <= 1;
        }
      } else {
        assert after[k] == after[n..][k - n];
      }
    }
  }

  lemma AcceptedPlayer(lower: string -> string, sc: Scenario, s: WorldState, d: WorldStateDelta)
    requires Accepts(lower, sc, s, d)
    ensures forall c | c in d.playerChanges :: CheckPlayer(s, c).Pass?
    ensures Applied(s, d).player == Player(s.player, d.playerChanges)
  {
    hide CheckPlayer, Player;
    assert CheckPossessions(sc, s, d).Pass?;
  }

  /** Over every run of such deltas every goal's progress stays between 0 and 100, duplicates included. */
  lemma {:induction false} RunsKeepGoalRanges(
    lower: string -> string, sc: Scenario, sessionId: SessionId, deltas: seq<WorldStateDelta>)
    requires AcceptedRun(lower, sc, InitialWorldState(sessionId, sc), deltas)
    requires forall d | d in deltas :: OneStepPerGoal(d.playerChanges)
    ensures GoalsInRange(StateAfter(InitialWorldState(sessionId, sc), deltas).player.goals)
    decreases |deltas|
  {
    if |deltas| > 0 {
      hide OneStepPerGoal, GoalsInRange, Player, Applied, Accepts;
      InitLast(deltas);
      assert forall d | d in Init(deltas) :: d in deltas;
      RunsKeepGoalRanges(lower, sc, sessionId, Init(deltas));
      var before := StateAfter(InitialWorldState(sessionId, sc), Init(deltas));
      assert Last(deltas) in deltas;
      AcceptedPlayer(lower, sc, before, Last(deltas));
      SingleStepsLand(before, Last(deltas).playerChanges);
    }
  }
}
