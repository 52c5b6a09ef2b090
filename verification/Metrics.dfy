/**
 Numbers. Every metric moves by exactly the sum of the increments addressed to it. The validator compares
 each increment with the value before the turn, so n increments can carry a metric n times as far as one:
 the range is kept by at most one increment per metric and turn, and not in general.
 */
module Metrics {
  import opened Wrappers
  import opened Sequences
  import opened Text
  import opened Domain
  import opened ScenarioValidation
  import opened DeltaValidation
  import opened Reduction
  import opened Rosters
  import opened KeyedLists
  import opened Sessions
  import opened WorldInvariant

  // ---------- sums of accepted increments ----------

  /** Each increment alone lands between `lo` and `hi`. */
  ghost predicate EachLands(xs: seq<int>, base: int, lo: int := -100, hi: int := 100) {
    forall i | 0 <= i < |xs| :: lo <= base + xs[i] <= hi
  }

  /** The n-fold bound. */
  lemma {:induction false} SumBound(xs: seq<int>, base: int, lo: int := -100, hi: int := 100)
    requires EachLands(xs, base, lo, hi)
    ensures |xs| * (lo - base) <= Sum(xs) <= |xs| * (hi - base)
    decreases |xs|
  {
    if |xs| > 0 {
      assert forall i | 0 <= i < |Init(xs)| :: Init(xs)[i] == xs[i];
      SumBound(Init(xs), base, lo, hi);
      assert lo <= base + xs[|xs| - 1] <= hi;
    }
  }

  /** Increments accepted against `base` move it at most n-fold, and one of them keeps it in range. */
  ghost predicate MovesLawfully(base: int, increments: seq<int>, lo: int := -100, hi: int := 100) {
    && |increments| * (lo - base) <= Sum(increments) <= |increments| * (hi - base)
    && (lo <= base <= hi && |increments| <= 1 ==> lo <= base + Sum(increments) <= hi)
  }

  lemma LandedSumsMoveLawfully(increments: seq<int>, base: int, lo: int := -100, hi: int := 100)
    requires EachLands(increments, base, lo, hi)
    ensures MovesLawfully(base, increments, lo, hi)
  {
    SumBound(increments, base, lo, hi);
    if |increments| == 1 {
      assert Init(increments) == [];
      assert Sum(increments) == increments[0];
    }
  }

  // ---------- factions ----------

  lemma FindFaction(factions: seq<FactionState>, k: nat)
    requires Unique(factions, FactionKey) && k < |factions|
    ensures Find(factions, FactionIs(factions[k].factionId)) == Some(factions[k])
  {
    var i := FirstIndex(factions, FactionIs(factions[k].factionId));
    assert FactionIs(factions[k].factionId)(factions[k]);
    assert FactionKey(factions[i]) == FactionKey(factions[k]);
  }

  lemma FactionIncrementsLand(sc: Scenario, s: WorldState, changes: seq<FactionChange>, k: nat)
    requires Unique(s.factions, FactionKey) && k < |s.factions|
    requires forall c | c in changes :: CheckFaction(sc, s, c).Pass?
    ensures EachLands(FilterMap(changes, StandingDeltas(s.factions[k].factionId)), s.factions[k].standing)
    ensures EachLands(FilterMap(changes, PressureDeltas(s.factions[k].factionId)), s.factions[k].pressure)
  {
    var f := s.factions[k];
    var standings := FilterMap(changes, StandingDeltas(f.factionId));
    var pressures := FilterMap(changes, PressureDeltas(f.factionId));
    FindFaction(s.factions, k);
    forall i | 0 <= i < |standings| ensures InRange(f.standing + standings[i]) {
      FilterMapMember(changes, StandingDeltas(f.factionId), standings[i]);
      var c :| c in changes && StandingDeltas(f.factionId)(c) == Some(standings[i]);
      assert CheckFaction(sc, s, c).Pass?;
    }
    forall i | 0 <= i < |pressures| ensures InRange(f.pressure + pressures[i]) {
      FilterMapMember(changes, PressureDeltas(f.factionId), pressures[i]);
      var c :| c in changes && PressureDeltas(f.factionId)(c) == Some(pressures[i]);
      assert CheckFaction(sc, s, c).Pass?;
    }
  }

  /** Standing and pressure after the accepted faction changes of a turn: conserved and bounded. */
  lemma FactionMetrics(sc: Scenario, s: WorldState, changes: seq<FactionChange>, k: nat)
    requires Unique(s.factions, FactionKey) && k < |s.factions|
    requires forall c | c in changes :: CheckFaction(sc, s, c).Pass?
    ensures var f := s.factions[k];
            var standings := FilterMap(changes, StandingDeltas(f.factionId));
            var pressures := FilterMap(changes, PressureDeltas(f.factionId));
            && |Factions(s.factions, changes)| == |s.factions|
            && Factions(s.factions, changes)[k].standing == f.standing + Sum(standings)
            && Factions(s.factions, changes)[k].pressure == f.pressure + Sum(pressures)
            && MovesLawfully(f.standing, standings)
            && MovesLawfully(f.pressure, pressures)
  {
    var f := s.factions[k];
    FactionRoster(s.factions, changes);
    FactionIncrementsLand(sc, s, changes, k);
    LandedSumsMoveLawfully(FilterMap(changes, StandingDeltas(f.factionId)), f.standing);
    LandedSumsMoveLawfully(FilterMap(changes, PressureDeltas(f.factionId)), f.pressure);
  }

  // ---------- ranges over runs ----------

  ghost predicate FactionsInRange(factions: seq<FactionState>) {
    forall k | 0 <= k < |factions| :: InRange(factions[k].standing) && InRange(factions[k].pressure)
  }

  /** What the sum of its increments makes of a faction is in range. */
  ghost predicate SumsInRange(f: FactionState, changes: seq<FactionChange>) {
    && InRange(f.standing + Sum(FilterMap(changes, StandingDeltas(f.factionId))))
    && InRange(f.pressure + Sum(FilterMap(changes, PressureDeltas(f.factionId))))
  }

  /** Exactly which faction changes keep the ranges: those whose increments add up, not just each alone. */
  lemma RangeKeptIff(factions: seq<FactionState>, changes: seq<FactionChange>)
    requires Unique(factions, FactionKey)
    ensures FactionsInRange(Factions(factions, changes)) <==>
            forall k | 0 <= k < |factions| :: SumsInRange(factions[k], changes)
  {
    FactionRoster(factions, changes);
    var after := Factions(factions, changes);
    forall k | 0 <= k < |factions|
      ensures (InRange(after[k].standing) && InRange(after[k].pressure)) <==> SumsInRange(factions[k], changes)
    {
      assert after[k] == FactionAfter(factions[k], changes);
    }
  }

  /** At most one change of each faction metric per delta. */
  ghost predicate OneChangePerMetric(d: WorldStateDelta) {
    forall id ::
      && |FilterMap(d.factionChanges, StandingDeltas(id))| <= 1
      && |FilterMap(d.factionChanges, PressureDeltas(id))| <= 1
  }

  lemma StepInRange(sc: Scenario, s: WorldState, d: WorldStateDelta)
    requires Unique(s.factions, FactionKey) && FactionsInRange(s.factions) && OneChangePerMetric(d)
    requires forall c | c in d.factionChanges :: CheckFaction(sc, s, c).Pass?
    ensures FactionsInRange(Factions(s.factions, d.factionChanges))
  {
    FactionRoster(s.factions, d.factionChanges);
    forall k | 0 <= k < |s.factions|
      ensures InRange(Factions(s.factions, d.factionChanges)[k].standing)
      ensures InRange(Factions(s.factions, d.factionChanges)[k].pressure)
    {
      FactionMetrics(sc, s, d.factionChanges, k);
    }
  }

  lemma TurnInRange(lower: string -> string, sc: Scenario, s: WorldState, d: WorldStateDelta)
    requires ValidScenario(sc) && FactionRosterKept(sc, s.factions) && Accepts(lower, sc, s, d)
    requires FactionsInRange(s.factions) && OneChangePerMetric(d)
    ensures FactionsInRange(Applied(s, d).factions)
  {
    hide OneChangePerMetric, Factions, CheckFaction;
    assert CheckGroups(sc, s, d).Pass?;
    SameKeysUnique(sc.factions, ScenarioFactionKey, s.factions, FactionKey);
    StepInRange(sc, s, d);
  }

  /** Over every run of such deltas the faction metrics stay between -100 and 100. */
  lemma {:induction false} RunsStayInRange(
    lower: string -> string, sc: Scenario, sessionId: SessionId, deltas: seq<WorldStateDelta>)
    requires ValidScenario(sc)
    requires AcceptedRun(lower, sc, InitialWorldState(sessionId, sc), deltas)
    requires forall d | d in deltas :: OneChangePerMetric(d)
    ensures FactionsInRange(StateAfter(InitialWorldState(sessionId, sc), deltas).factions)
    decreases |deltas|
  {
    if |deltas| == 0 {
      assert forall k | 0 <= k < |sc.factions| :: sc.factions[k] in sc.factions;
    } else {
      hide OneChangePerMetric, Factions, FactionsInRange;
      assert forall d | d in Init(deltas) :: d in deltas;
      RunsStayInRange(lower, sc, sessionId, Init(deltas));
      ReachableWorldInv(lower, sc, sessionId, Init(deltas));
      assert Last(deltas) in deltas;
      TurnInRange(lower, sc, StateAfter(InitialWorldState(sessionId, sc), Init(deltas)), Last(deltas));
    }
  }

  function Bump(id: EntityKey): FactionChange {
    StandingChanged(id, 60, "reason")
  }

  function TwoBumps(id: EntityKey): WorldStateDelta {
    EMPTY_DELTA.(factionChanges := [Bump(id), Bump(id)])
  }

  lemma TwoBumpsAccepted(lower: string -> string, sc: Scenario, s: WorldState, id: EntityKey)
    requires id in FactionIds(sc) && StandingOf(s, id) == 0
    ensures Accepts(lower, sc, s, TwoBumps(id))
  {
    var d := TwoBumps(id);
    assert Bump(id).reason[0] == 'r';
    assert CheckFaction(sc, s, Bump(id)).Pass?;
    assert CheckCast(lower, sc, s, d).Pass? && CheckGroups(sc, s, d).Pass? && CheckPossessions(sc, s, d).Pass?;
  }

  lemma BumpsSum(id: EntityKey)
    ensures Sum(FilterMap([Bump(id), Bump(id)], StandingDeltas(id))) == 120
  {
    var deltas := StandingDeltas(id);
    FilterMapPush([], Bump(id), deltas);
    FilterMapPush([Bump(id)], Bump(id), deltas);
    assert [] + [Bump(id)] == [Bump(id)] && [Bump(id)] + [Bump(id)] == [Bump(id), Bump(id)];
    SumPush([], 60);
    SumPush([60], 60);
    assert [] + [60] == [60];
  }

  lemma TwoBumpsAdd(factions: seq<FactionState>, k: nat)
    requires Unique(factions, FactionKey) && k < |factions|
    ensures var after := Factions(factions, [Bump(factions[k].factionId), Bump(factions[k].factionId)]);
            |after| == |factions| && after[k].standing == factions[k].standing + 120
  {
    FactionRoster(factions, [Bump(factions[k].factionId), Bump(factions[k].factionId)]);
    BumpsSum(factions[k].factionId);
  }

  /** Two increments that are fine one by one carry a neutral standing to 120. */
  lemma TwoChangesLeaveRange(lower: string -> string, sc: Scenario, s: WorldState, k: nat)
    requires DistinctIds(sc) && FactionRosterKept(sc, s.factions) && k < |s.factions|
    requires s.factions[k].standing == 0
    ensures Accepts(lower, sc, s, TwoBumps(s.factions[k].factionId))
    ensures var after := Applied(s, TwoBumps(s.factions[k].factionId)).factions;
            |after| == |s.factions| && after[k].standing == 120
  {
    SameKeysUnique(sc.factions, ScenarioFactionKey, s.factions, FactionKey);
    FindFaction(s.factions, k);
    assert sc.factions[k] in sc.factions;
    TwoBumpsAccepted(lower, sc, s, s.factions[k].factionId);
    TwoBumpsAdd(s.factions, k);
  }

  // ---------- clocks ----------

  function ClockMoves(id: EntityKey): ClockChange -> Option<ClockChange> {
    (c: ClockChange) => if !c.ClockVisibilityChanged? && c.clockId == id then Some(c) else None
  }

  /** Where one numeric change takes a clock, without any clamping. */
  function Unclamped(c: ClockState, move: ClockChange): int {
    match move
    case Advanced(_, delta, _) => c.current + delta
    case SetValue(_, value, _) => value
    case ClockVisibilityChanged(_, _, _) => c.current
  }

  lemma {:induction false} UnmovedClock(c: ClockState, changes: seq<ClockChange>)
    requires FilterMap(changes, ClockMoves(c.id)) == []
    ensures ClockAfter(c, changes).current == c.current
    decreases |changes|
  {
    if |changes| > 0 {
      FilterMapLast(changes, ClockMoves(c.id));
      UnmovedClock(c, Init(changes));
    }
  }

  /** For a clock with one numeric change the clamp in the reducer never acts. */
  lemma {:induction false} SingleMoveIsExact(s: WorldState, changes: seq<ClockChange>, k: nat)
    requires Unique(s.clocks, ClockKey) && k < |s.clocks|
    requires forall c | c in changes :: CheckClock(s, c).Pass?
    requires |FilterMap(changes, ClockMoves(s.clocks[k].id))| == 1
    ensures ClockAfter(s.clocks[k], changes).current ==
            Unclamped(s.clocks[k], FilterMap(changes, ClockMoves(s.clocks[k].id))[0])
    decreases |changes|
  {
    hide ClockVisibilityWrites, LastOr, IsBlank, FilterMap;
    var clock := s.clocks[k];
    var moves := ClockMoves(clock.id);
    FilterMapLast(changes, moves);
    assert Last(changes) in changes;
    if moves(Last(changes)).Some? {
      UnmovedClock(clock, Init(changes));
      assert CheckClock(s, Last(changes)).Pass?;
    } else {
      InitLast(changes);
      assert forall c | c in Init(changes) :: c in changes;
      SingleMoveIsExact(s, Init(changes), k);
    }
  }

  // ---------- relationships ----------

  function Shifts(source: EntityKey, target: EntityKey): RelationshipChange -> Option<int> {
    (c: RelationshipChange) =>
      if c.AttitudeShifted? && c.sourceId == source && c.targetId == target then Some(c.attitudeDelta) else None
  }

  function TrustDeltas(source: EntityKey, target: EntityKey): RelationshipChange -> Option<int> {
    (c: RelationshipChange) =>
      if c.TrustChanged? && c.sourceId == source && c.targetId == target then Some(c.delta) else None
  }

  function SuspicionDeltas(source: EntityKey, target: EntityKey): RelationshipChange -> Option<int> {
    (c: RelationshipChange) =>
      if c.SuspicionChanged? && c.sourceId == source && c.targetId == target then Some(c.delta) else None
  }

  function LoyaltyDeltas(source: EntityKey, target: EntityKey): RelationshipChange -> Option<int> {
    (c: RelationshipChange) =>
      if c.LoyaltyChanged? && c.sourceId == source && c.targetId == target then Some(c.delta) else None
  }

  function Attitude(r: RelationshipState): int { r.attitude }
  function Trust(r: RelationshipState): int { r.trust }
  function Suspicion(r: RelationshipState): int { r.suspicion }
  function Loyalty(r: RelationshipState): int { r.loyalty }

  /** `deltas` picks exactly the increments that changes between two parties make to `metric`. */
  ghost predicate Measures(
    metric: RelationshipState -> int, deltas: RelationshipChange -> Option<int>, source: EntityKey, target: EntityKey)
  {
    forall r: RelationshipState, c: RelationshipChange ::
      if c.sourceId == source && c.targetId == target
      then metric(Moved(r, c)) == metric(r) + deltas(c).GetOr(0)
      else deltas(c) == None
  }

  lemma MetricsMeasure(source: EntityKey, target: EntityKey)
    ensures Measures(Attitude, Shifts(source, target), source, target)
    ensures Measures(Trust, TrustDeltas(source, target), source, target)
    ensures Measures(Suspicion, SuspicionDeltas(source, target), source, target)
    ensures Measures(Loyalty, LoyaltyDeltas(source, target), source, target)
  {
  }

  /** A measured metric between two parties, neutral at first, moves by the sum of its increments. */
  lemma {:induction false} RelationshipMetrics(
    m: RelationshipTable, changes: seq<RelationshipChange>, source: EntityKey, target: EntityKey,
    metric: RelationshipState -> int, deltas: RelationshipChange -> Option<int>)
    requires Measures(metric, deltas, source, target)
    ensures metric(RelationshipAt(RelationshipMap(m, changes), source, target)) ==
            metric(RelationshipAt(m, source, target)) + Sum(FilterMap(changes, deltas))
    decreases |changes|
  {
    if |changes| > 0 {
      RelationshipMetrics(m, Init(changes), source, target, metric, deltas);
      FilterMapLast(changes, deltas);
      var before := RelationshipAt(RelationshipMap(m, Init(changes)), source, target);
      assert metric(Moved(before, Last(changes))) == metric(Moved(before, Last(changes)));
      if deltas(Last(changes)).Some? {
        SumPush(FilterMap(Init(changes), deltas), deltas(Last(changes)).value);
      }
    }
  }

  lemma FindRelationship(relationships: seq<RelationshipState>, source: EntityKey, target: EntityKey)
    requires Unique(relationships, RelationshipKey)
    ensures RelationshipIn(relationships, source, target) ==
            RelationshipAt(Index(relationships, RelationshipKey), source, target)
  {
    var hit := RelationshipIs(source, target);
    var i := FirstIndex(relationships, hit);
    IndexKeys(relationships, RelationshipKey, (source, target));
    if i < |relationships| {
      IndexLookup(relationships, RelationshipKey, i);
    } else {
      assert forall k | 0 <= k < |relationships| :: !hit(relationships[k]);
      assert (source, target) !in Index(relationships, RelationshipKey);
    }
  }

  lemma IncrementsLand(
    sc: Scenario, s: WorldState, changes: seq<RelationshipChange>, deltas: RelationshipChange -> Option<int>, base: int)
    requires forall c | c in changes :: CheckRelationship(sc, s, c).Pass?
    requires forall c | c in changes && deltas(c).Some? ::
               && (c.TrustChanged? || c.SuspicionChanged? || c.LoyaltyChanged?)
               && deltas(c).value == c.delta && CurrentMetric(s, c) == base
    ensures EachLands(FilterMap(changes, deltas), base)
  {
    var xs := FilterMap(changes, deltas);
    forall i | 0 <= i < |xs| ensures InRange(base + xs[i]) {
      FilterMapMember(changes, deltas, xs[i]);
      var c :| c in changes && deltas(c) == Some(xs[i]);
      assert CheckRelationship(sc, s, c).Pass?;
    }
  }

  function RelationshipIn(rs: seq<RelationshipState>, source: EntityKey, target: EntityKey): RelationshipState {
    Find(rs, RelationshipIs(source, target)).GetOr(RelationshipState(source, target, 0, [], 0, 0, 0))
  }

  /** Trust, suspicion and loyalty are bounded by the validator. */
  lemma RelationshipIncrementsLand(
    sc: Scenario, s: WorldState, changes: seq<RelationshipChange>, source: EntityKey, target: EntityKey)
    requires forall c | c in changes :: CheckRelationship(sc, s, c).Pass?
    ensures var before := RelationshipIn(s.relationships, source, target);
            && EachLands(FilterMap(changes, TrustDeltas(source, target)), before.trust)
            && EachLands(FilterMap(changes, SuspicionDeltas(source, target)), before.suspicion)
            && EachLands(FilterMap(changes, LoyaltyDeltas(source, target)), before.loyalty)
  {
    var before := RelationshipIn(s.relationships, source, target);
    IncrementsLand(sc, s, changes, TrustDeltas(source, target), before.trust);
    IncrementsLand(sc, s, changes, SuspicionDeltas(source, target), before.suspicion);
    IncrementsLand(sc, s, changes, LoyaltyDeltas(source, target), before.loyalty);
  }

  /** One metric of one relationship over the list the reducer rewrites. */
  lemma MetricOverList(
    rs: seq<RelationshipState>, changes: seq<RelationshipChange>, source: EntityKey, target: EntityKey,
    metric: RelationshipState -> int, deltas: RelationshipChange -> Option<int>)
    requires Unique(rs, RelationshipKey) && Measures(metric, deltas, source, target)
    ensures metric(RelationshipIn(Relationships(rs, changes), source, target)) ==
            metric(RelationshipIn(rs, source, target)) + Sum(FilterMap(changes, deltas))
  {
    RelationshipsRefine(rs, changes);
    FindRelationship(rs, source, target);
    FindRelationship(Relationships(rs, changes), source, target);
    RelationshipMetrics(Index(rs, RelationshipKey), changes, source, target, metric, deltas);
  }

  function NotesBetween(source: EntityKey, target: EntityKey): RelationshipChange -> Option<string> {
    (c: RelationshipChange) =>
      if c.RelationshipNoteAdded? && c.sourceId == source && c.targetId == target then Some(c.note) else None
  }

  lemma {:induction false} RelationshipLog(
    m: RelationshipTable, changes: seq<RelationshipChange>, source: EntityKey, target: EntityKey)
    ensures var before := RelationshipAt(m, source, target);
            RelationshipAt(RelationshipMap(m, changes), source, target).notes ==
            before.notes + FilterMap(changes, NotesBetween(source, target))
    decreases |changes|
  {
    var before := RelationshipAt(m, source, target);
    if |changes| == 0 {
      assert before.notes + [] == before.notes;
    } else {
      RelationshipLog(m, Init(changes), source, target);
      LogStep(changes, NotesBetween(source, target), before.notes);
    }
  }

  /** Every relationship after a turn: all four metrics are conserved, and the notes are a log. */
  lemma RelationshipsConserve(
    rs: seq<RelationshipState>, changes: seq<RelationshipChange>, source: EntityKey, target: EntityKey)
    requires Unique(rs, RelationshipKey)
    ensures var before := RelationshipIn(rs, source, target);
            var after := RelationshipIn(Relationships(rs, changes), source, target);
            && after.attitude == before.attitude + Sum(FilterMap(changes, Shifts(source, target)))
            && after.trust == before.trust + Sum(FilterMap(changes, TrustDeltas(source, target)))
            && after.suspicion == before.suspicion + Sum(FilterMap(changes, SuspicionDeltas(source, target)))
            && after.loyalty == before.loyalty + Sum(FilterMap(changes, LoyaltyDeltas(source, target)))
            && after.notes == before.notes + FilterMap(changes, NotesBetween(source, target))
  {
    MetricsMeasure(source, target);
    RelationshipsRefine(rs, changes);
    FindRelationship(rs, source, target);
    FindRelationship(Relationships(rs, changes), source, target);
    RelationshipLog(Index(rs, RelationshipKey), changes, source, target);
    MetricOverList(rs, changes, source, target, Attitude, Shifts(source, target));
    MetricOverList(rs, changes, source, target, Trust, TrustDeltas(source, target));
    MetricOverList(rs, changes, source, target, Suspicion, SuspicionDeltas(source, target));
    MetricOverList(rs, changes, source, target, Loyalty, LoyaltyDeltas(source, target));
  }

  /** In an accepted turn trust, suspicion and loyalty are bounded; attitude has no bound at all. */
  lemma RelationshipsMoveLawfully(
    sc: Scenario, s: WorldState, changes: seq<RelationshipChange>, source: EntityKey, target: EntityKey)
    requires forall c | c in changes :: CheckRelationship(sc, s, c).Pass?
    ensures var before := RelationshipIn(s.relationships, source, target);
            && MovesLawfully(before.trust, FilterMap(changes, TrustDeltas(source, target)))
            && MovesLawfully(before.suspicion, FilterMap(changes, SuspicionDeltas(source, target)))
            && MovesLawfully(before.loyalty, FilterMap(changes, LoyaltyDeltas(source, target)))
  {
    var before := RelationshipIn(s.relationships, source, target);
    RelationshipIncrementsLand(sc, s, changes, source, target);
    LandedSumsMoveLawfully(FilterMap(changes, TrustDeltas(source, target)), before.trust);
    LandedSumsMoveLawfully(FilterMap(changes, SuspicionDeltas(source, target)), before.suspicion);
    LandedSumsMoveLawfully(FilterMap(changes, LoyaltyDeltas(source, target)), before.loyalty);
  }

  // ---------- player goals ----------

  function ProgressDeltas(id: EntityKey): PlayerChange -> Option<int> {
    (c: PlayerChange) => if c.GoalProgressed? && c.goalId == id then Some(c.delta) else None
  }

  /** The old goals keep their places and identifiers. */
  lemma {:induction false} GoalsKeepPlaces(p: PlayerCharacterState, changes: seq<PlayerChange>)
    ensures |p.goals| <= |Player(p, changes).goals|
    ensures forall j | 0 <= j < |p.goals| :: Player(p, changes).goals[j].id == p.goals[j].id
    decreases |changes|
  {
    if |changes| > 0 {
      GoalsKeepPlaces(p, Init(changes));
    }
  }

  function Progressed(g: PlayerGoal, delta: int): PlayerGoal {
    g.(progress := g.progress + delta)
  }

  lemma GoalUpdate(gs: seq<PlayerGoal>, goals: seq<PlayerGoal>, id: EntityKey, delta: int, k: nat)
    requires k < |goals| <= |gs| && forall j | 0 <= j < |goals| :: gs[j].id == goals[j].id
    ensures UpdateFirst(gs, GoalIs(id), WithProgress(delta))[k] ==
            Progressed(gs[k], if FirstIndex(goals, GoalIs(goals[k].id)) == k && goals[k].id == id then delta else 0)
  {
    FirstGoalStays(goals, gs, id);
  }

  lemma OtherChangesKeepGoal(p: PlayerCharacterState, change: PlayerChange, k: nat)
    requires k < |p.goals| && !change.GoalProgressed?
    ensures k < |StepPlayer(p, change).goals| && StepPlayer(p, change).goals[k] == p.goals[k]
  {
  }

  lemma GoalStep(p: PlayerCharacterState, goals: seq<PlayerGoal>, change: PlayerChange, k: nat)
    requires k < |goals| <= |p.goals| && forall j | 0 <= j < |goals| :: p.goals[j].id == goals[j].id
    ensures k < |StepPlayer(p, change).goals|
    ensures StepPlayer(p, change).goals[k] ==
            Progressed(
              p.goals[k],
              if FirstIndex(goals, GoalIs(goals[k].id)) == k
              then ProgressDeltas(goals[k].id)(change).GetOr(0) else 0)
  {
    if change.GoalProgressed? {
      GoalUpdate(p.goals, goals, change.goalId, change.delta, k);
    } else {
      OtherChangesKeepGoal(p, change, k);
      assert ProgressDeltas(goals[k].id)(change) == None;
    }
  }

  /** Goals are pushed without an identifier check: progress goes to the first goal of that identifier. */
  lemma {:induction false} GoalProgress(p: PlayerCharacterState, changes: seq<PlayerChange>, k: nat)
    requires k < |p.goals|
    ensures k < |Player(p, changes).goals|
    ensures var id := p.goals[k].id;
            Player(p, changes).goals[k] ==
            Progressed(
              p.goals[k],
              if FirstIndex(p.goals, GoalIs(id)) == k then Sum(FilterMap(changes, ProgressDeltas(id))) else 0)
    decreases |changes|
  {
    if |changes| > 0 {
      var id := p.goals[k].id;
      GoalsKeepPlaces(p, Init(changes));
      GoalProgress(p, Init(changes), k);
      GoalStep(Player(p, Init(changes)), p.goals, Last(changes), k);
      ProgressStep(changes, id);
    }
  }

  lemma ProgressStep(changes: seq<PlayerChange>, id: EntityKey)
    requires |changes| > 0
    ensures Sum(FilterMap(changes, ProgressDeltas(id))) ==
            Sum(FilterMap(Init(changes), ProgressDeltas(id))) + ProgressDeltas(id)(Last(changes)).GetOr(0)
  {
    FilterMapLast(changes, ProgressDeltas(id));
    if ProgressDeltas(id)(Last(changes)).Some? {
      SumPush(FilterMap(Init(changes), ProgressDeltas(id)), Last(changes).delta);
    }
  }

  lemma FirstGoalStays(old_: seq<PlayerGoal>, goals: seq<PlayerGoal>, id: EntityKey)
    requires |old_| <= |goals| && forall j | 0 <= j < |old_| :: goals[j].id == old_[j].id
    ensures FirstIndex(old_, GoalIs(id)) < |old_| ==>
              FirstIndex(goals, GoalIs(id)) == FirstIndex(old_, GoalIs(id))
    ensures FirstIndex(old_, GoalIs(id)) == |old_| ==> FirstIndex(goals, GoalIs(id)) >= |old_|
  {
    var i, j := FirstIndex(old_, GoalIs(id)), FirstIndex(goals, GoalIs(id));
    if i < |old_| {
      assert GoalIs(id)(goals[i]);
      assert !(j < i);
    }
  }

  lemma {:induction false} ProgressLands(s: WorldState, changes: seq<PlayerChange>, k: nat)
    requires k < |s.player.goals| && FirstIndex(s.player.goals, GoalIs(s.player.goals[k].id)) == k
    requires forall c | c in changes :: CheckPlayer(s, c).Pass?
    ensures EachLands(
              FilterMap(changes, ProgressDeltas(s.player.goals[k].id)), s.player.goals[k].progress, 0, 100)
    decreases |changes|
  {
    if |changes| > 0 {
      InitLast(changes);
      assert forall c | c in Init(changes) :: c in changes;
      ProgressLands(s, Init(changes), k);
      assert Last(changes) in changes;
    }
  }

  /** In an accepted turn a goal's progress is bounded n-fold, and one step keeps it between 0 and 100. */
  lemma GoalsMoveLawfully(s: WorldState, changes: seq<PlayerChange>, k: nat)
    requires k < |s.player.goals| && FirstIndex(s.player.goals, GoalIs(s.player.goals[k].id)) == k
    requires forall c | c in changes :: CheckPlayer(s, c).Pass?
    ensures MovesLawfully(
              s.player.goals[k].progress, FilterMap(changes, ProgressDeltas(s.player.goals[k].id)), 0, 100)
  {
    ProgressLands(s, changes, k);
    LandedSumsMoveLawfully(
      FilterMap(changes, ProgressDeltas(s.player.goals[k].id)), s.player.goals[k].progress, 0, 100);
  }
}
