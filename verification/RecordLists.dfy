/**
 The memory list and the player's lists, read entry by entry: importance is a register, traits and notes
 are logs, resources are counters, and conditions last until they are cleared.
 */
module RecordLists {
  import opened Wrappers
  import opened Sequences
  import opened Identifiers
  import opened Domain
  import opened DeltaValidation
  import opened Reduction
  import opened Rosters
  import opened Sessions
  import opened Metrics
  import opened MetricRanges

  // ---------- memories ----------

  function ImportanceWrites(id: EntityKey): MemoryChange -> Option<U8> {
    (c: MemoryChange) => if c.ImportanceChanged? && c.memoryId == id then Some(c.importance) else None
  }

  function MemoryAdds(): MemoryChange -> Option<MemoryChange> {
    (c: MemoryChange) => if c.MemoryAdded? then Some(c) else None
  }

  lemma {:induction false} MemoriesKeepPlaces(memories: seq<MemoryEntry>, changes: seq<MemoryChange>, version: nat)
    ensures |memories| <= |Memories(memories, changes, version)|
    ensures forall j | 0 <= j < |memories| :: Memories(memories, changes, version)[j].id == memories[j].id
    decreases |changes|
  {
    if |changes| > 0 {
      MemoriesKeepPlaces(memories, Init(changes), version);
    }
  }

  /** Importance is a register of the first memory of an identifier; nothing else of an old memory changes. */
  lemma {:induction false} OldMemory(
    memories: seq<MemoryEntry>, changes: seq<MemoryChange>, version: nat, k: nat)
    requires k < |memories|
    ensures k < |Memories(memories, changes, version)|
    ensures var m := memories[k];
            Memories(memories, changes, version)[k] ==
            if FirstIndex(memories, MemoryIs(m.id)) == k
            then m.(importance := LastOr(FilterMap(changes, ImportanceWrites(m.id)), m.importance))
            else m
    decreases |changes|
  {
    if |changes| > 0 {
      var m := memories[k];
      OldMemory(memories, Init(changes), version, k);
      MemoriesKeepPlaces(memories, Init(changes), version);
      RegisterStep(changes, ImportanceWrites(m.id), m.importance);
    }
  }

  function Recorded(change: MemoryChange, id: EntityKey): MemoryEntry
    requires change.MemoryAdded?
  {
    MemoryEntry(id, change.text, change.visibility, change.importance, change.relatedEntityIds, None)
  }

  /** `news` are the recorded memories of `adds`, numbered from position `from`. */
  ghost predicate RecordedFrom(news: seq<MemoryEntry>, adds: seq<MemoryChange>, version: nat, from: nat) {
    && |news| == |adds|
    && forall j | 0 <= j < |adds| ::
         adds[j].MemoryAdded? && news[j] == Recorded(adds[j], MemoryId(version, from + j + 1))
  }

  lemma NewMemoryStep(
    memories: seq<MemoryEntry>, before: seq<MemoryEntry>, change: MemoryChange, adds: seq<MemoryChange>, version: nat)
    requires |memories| <= |before| && forall j | 0 <= j < |memories| :: before[j].id == memories[j].id
    requires RecordedFrom(before[|memories|..], adds, version, |memories|)
    requires change.ImportanceChanged? ==> Any(memories, MemoryIs(change.memoryId))
    ensures |memories| <= |StepMemory(before, change, version)|
    ensures RecordedFrom(
              StepMemory(before, change, version)[|memories|..],
              adds + if change.MemoryAdded? then [change] else [], version, |memories|)
  {
    var n, after := |memories|, StepMemory(before, change, version);
    if change.MemoryAdded? {
      assert after[n..] == before[n..] + [Last(after)];
    } else {
      assert after[n..] == before[n..] && adds + [] == adds;
    }
  }

  /** New memories follow in the order recorded, numbered by position; writes go to memories known before. */
  lemma {:induction false} NewMemories(memories: seq<MemoryEntry>, changes: seq<MemoryChange>, version: nat)
    requires forall c | c in changes && c.ImportanceChanged? :: Any(memories, MemoryIs(c.memoryId))
    ensures |memories| <= |Memories(memories, changes, version)|
    ensures RecordedFrom(
              Memories(memories, changes, version)[|memories|..], FilterMap(changes, MemoryAdds()), version, |memories|)
    decreases |changes|
  {
    if |changes| > 0 {
      InitLast(changes);
      assert forall c | c in Init(changes) :: c in changes;
      NewMemories(memories, Init(changes), version);
      MemoriesKeepPlaces(memories, Init(changes), version);
      assert Last(changes) in changes;
      NewMemoryStep(
        memories, Memories(memories, Init(changes), version), Last(changes),
        FilterMap(Init(changes), MemoryAdds()), version);
      FilterMapLast(changes, MemoryAdds());
      assert FilterMap(Init(changes), MemoryAdds()) + [] == FilterMap(Init(changes), MemoryAdds());
    }
  }

  // ---------- traits and notes ----------

  function NewTrait(): PlayerChange -> Option<PlayerTrait> {
    (c: PlayerChange) =>
      if c.TraitAdded? then Some(PlayerTrait(c.traitId, c.name, c.description, c.visibleToPlayer)) else None
  }

  function NewNote(): PlayerChange -> Option<string> {
    (c: PlayerChange) => if c.GmNoteAdded? then Some(c.note) else None
  }

  /** Traits and notes are logs: each is appended, in order, and none is ever changed. */
  lemma {:induction false} TraitsAndNotesAreLogs(p: PlayerCharacterState, changes: seq<PlayerChange>)
    ensures Player(p, changes).traits == p.traits + FilterMap(changes, NewTrait())
    ensures Player(p, changes).gmNotes == p.gmNotes + FilterMap(changes, NewNote())
    decreases |changes|
  {
    if |changes| == 0 {
      assert p.traits + [] == p.traits && p.gmNotes + [] == p.gmNotes;
    } else {
      TraitsAndNotesAreLogs(p, Init(changes));
      LogStep(changes, NewTrait(), p.traits);
      LogStep(changes, NewNote(), p.gmNotes);
    }
  }

  // ---------- goals ----------

  function NewGoal(): PlayerChange -> Option<PlayerGoal> {
    (c: PlayerChange) =>
      if c.GoalAdded? then Some(PlayerGoal(c.goalId, c.name, c.description, c.progress, c.visibleToPlayer)) else None
  }

  /** New goals follow as proposed, in order, when progress goes to older goals, as the validator demands. */
  lemma {:induction false} NewGoals(p: PlayerCharacterState, changes: seq<PlayerChange>)
    requires forall c | c in changes && c.GoalProgressed? :: Any(p.goals, GoalIs(c.goalId))
    ensures |p.goals| <= |Player(p, changes).goals|
    ensures Player(p, changes).goals[|p.goals|..] == FilterMap(changes, NewGoal())
    decreases |changes|
  {
    if |changes| > 0 {
      InitLast(changes);
      assert forall c | c in Init(changes) :: c in changes;
      NewGoals(p, Init(changes));
      GoalsKeepPlaces(p, Init(changes));
      assert Last(changes) in changes;
      FilterMapLast(changes, NewGoal());
      NewGoalsStep(p.goals, Player(p, Init(changes)), Last(changes));
    }
  }

  lemma NewGoalsStep(goals: seq<PlayerGoal>, before: PlayerCharacterState, change: PlayerChange)
    requires |goals| <= |before.goals| && forall j | 0 <= j < |goals| :: before.goals[j].id == goals[j].id
    requires change.GoalProgressed? ==> Any(goals, GoalIs(change.goalId))
    ensures |goals| <= |StepPlayer(before, change).goals|
    ensures StepPlayer(before, change).goals[|goals|..] ==
            before.goals[|goals|..] + if NewGoal()(change).Some? then [NewGoal()(change).value] else []
  {
    if change.GoalProgressed? {
      FirstGoalStays(goals, before.goals, change.goalId);
      assert before.goals[|goals|..] + [] == before.goals[|goals|..];
    }
  }

  // ---------- resources ----------

  function ResourceDeltas(id: EntityKey): PlayerChange -> Option<int> {
    (c: PlayerChange) => if c.ResourceChanged? && c.resourceId == id then Some(c.delta) else None
  }

  lemma {:induction false} ResourcesKeepPlaces(p: PlayerCharacterState, changes: seq<PlayerChange>)
    ensures |Player(p, changes).resources| == |p.resources|
    ensures forall j | 0 <= j < |p.resources| :: Player(p, changes).resources[j].id == p.resources[j].id
    decreases |changes|
  {
    if |changes| > 0 {
      ResourcesKeepPlaces(p, Init(changes));
    }
  }

  lemma SameFirstResource(a: seq<PlayerResource>, b: seq<PlayerResource>, id: EntityKey)
    requires |a| == |b| && forall j | 0 <= j < |a| :: a[j].id == b[j].id
    ensures FirstIndex(a, ResourceIs(id)) == FirstIndex(b, ResourceIs(id))
  {
    var i, j := FirstIndex(a, ResourceIs(id)), FirstIndex(b, ResourceIs(id));
    assert i < |a| ==> ResourceIs(id)(b[i]);
    assert j < |b| ==> ResourceIs(id)(a[j]);
  }

  lemma ResourceSumStep(changes: seq<PlayerChange>, id: EntityKey)
    requires |changes| > 0
    ensures Sum(FilterMap(changes, ResourceDeltas(id))) ==
            Sum(FilterMap(Init(changes), ResourceDeltas(id))) + ResourceDeltas(id)(Last(changes)).GetOr(0)
  {
    FilterMapLast(changes, ResourceDeltas(id));
    if ResourceDeltas(id)(Last(changes)).Some? {
      SumPush(FilterMap(Init(changes), ResourceDeltas(id)), Last(changes).delta);
    }
  }

  function Moved(r: PlayerResource, delta: int): PlayerResource {
    r.(current := r.current + delta)
  }

  lemma ResourceStep(p: PlayerCharacterState, resources: seq<PlayerResource>, change: PlayerChange, k: nat)
    requires k < |resources| == |p.resources| && forall j | 0 <= j < |resources| :: p.resources[j].id == resources[j].id
    ensures |StepPlayer(p, change).resources| == |p.resources|
    ensures StepPlayer(p, change).resources[k] ==
            Moved(
              p.resources[k],
              if FirstIndex(resources, ResourceIs(resources[k].id)) == k
              then ResourceDeltas(resources[k].id)(change).GetOr(0) else 0)
  {
    if change.ResourceChanged? {
      SameFirstResource(resources, p.resources, change.resourceId);
      SameFirstResource(resources, p.resources, resources[k].id);
    } else {
      assert StepPlayer(p, change).resources == p.resources;
      assert ResourceDeltas(resources[k].id)(change) == None;
    }
  }

  /** A resource is a counter: the first of an identifier moves by the sum of its increments, no other moves. */
  lemma {:induction false} ResourcesConserve(p: PlayerCharacterState, changes: seq<PlayerChange>, k: nat)
    requires k < |p.resources|
    ensures |Player(p, changes).resources| == |p.resources|
    ensures var id := p.resources[k].id;
            Player(p, changes).resources[k] ==
            Moved(
              p.resources[k],
              if FirstIndex(p.resources, ResourceIs(id)) == k then Sum(FilterMap(changes, ResourceDeltas(id))) else 0)
    decreases |changes|
  {
    if |changes| > 0 {
      hide StepPlayer, FirstIndex;
      ResourcesKeepPlaces(p, Init(changes));
      ResourcesConserve(p, Init(changes), k);
      ResourceStep(Player(p, Init(changes)), p.resources, Last(changes), k);
      ResourceSumStep(changes, p.resources[k].id);
    }
  }

  lemma {:induction false} ResourceLands(s: WorldState, changes: seq<PlayerChange>, k: nat)
    requires k < |s.player.resources|
    requires FirstIndex(s.player.resources, ResourceIs(s.player.resources[k].id)) == k
    requires forall c | c in changes :: CheckPlayer(s, c).Pass?
    ensures var r := s.player.resources[k];
            EachLands(FilterMap(changes, ResourceDeltas(r.id)), r.current, r.min, r.max)
    decreases |changes|
  {
    if |changes| > 0 {
      InitLast(changes);
      assert forall c | c in Init(changes) :: c in changes;
      ResourceLands(s, Init(changes), k);
      assert Last(changes) in changes;
    }
  }

  /** In an accepted turn a resource keeps the n-fold bound of its own range. */
  lemma ResourcesMoveLawfully(s: WorldState, changes: seq<PlayerChange>, k: nat)
    requires k < |s.player.resources|
    requires FirstIndex(s.player.resources, ResourceIs(s.player.resources[k].id)) == k
    requires forall c | c in changes :: CheckPlayer(s, c).Pass?
    ensures var r := s.player.resources[k];
            MovesLawfully(r.current, FilterMap(changes, ResourceDeltas(r.id)), r.min, r.max)
  {
    var r := s.player.resources[k];
    ResourceLands(s, changes, k);
    LandedSumsMoveLawfully(FilterMap(changes, ResourceDeltas(r.id)), r.current, r.min, r.max);
  }

  lemma NoResourceToChange(lower: string -> string, sc: Scenario, s: WorldState, d: WorldStateDelta)
    requires Accepts(lower, sc, s, d) && s.player.resources == []
    ensures Applied(s, d).player.resources == []
    ensures forall c | c in d.playerChanges :: !c.ResourceChanged?
  {
    hide Accepts, Applied, Player, FirstIndex;
    AcceptedPlayer(lower, sc, s, d);
    ResourcesKeepPlaces(s.player, d.playerChanges);
    forall c | c in d.playerChanges ensures !c.ResourceChanged? {
      assert CheckPlayer(s, c).Pass?;
    }
  }

  /** Resources are never created: no accepted run has any, so none of its deltas can change one. */
  lemma {:induction false} NoRunHasResources(
    lower: string -> string, sc: Scenario, sessionId: SessionId, deltas: seq<WorldStateDelta>)
    requires AcceptedRun(lower, sc, InitialWorldState(sessionId, sc), deltas)
    ensures StateAfter(InitialWorldState(sessionId, sc), deltas).player.resources == []
    ensures forall d, c | d in deltas && c in d.playerChanges :: !c.ResourceChanged?
    decreases |deltas|
  {
    if |deltas| > 0 {
      hide Accepts, Applied;
      NoRunHasResources(lower, sc, sessionId, Init(deltas));
      NoResourceToChange(lower, sc, StateAfter(InitialWorldState(sessionId, sc), Init(deltas)), Last(deltas));
      InitLast(deltas);
    }
  }

  // ---------- conditions ----------

  ghost predicate Clears(changes: seq<PlayerChange>, id: EntityKey) {
    exists j :: 0 <= j < |changes| && changes[j].ConditionCleared? && changes[j].conditionId == id
  }

  predicate AddsNow(change: PlayerChange, c: PlayerCondition) {
    && change.ConditionAdded?
    && c == PlayerCondition(change.conditionId, change.name, change.description, change.visibleToPlayer)
  }

  /** A change adds the condition and no later one clears it. */
  ghost predicate AddsForGood(changes: seq<PlayerChange>, c: PlayerCondition) {
    exists i :: 0 <= i < |changes| && AddsNow(changes[i], c) && !Clears(changes[i + 1..], c.id)
  }

  predicate ClearsNow(change: PlayerChange, id: EntityKey) {
    change.ConditionCleared? && change.conditionId == id
  }

  lemma ClearsTail(changes: seq<PlayerChange>, i: nat, id: EntityKey)
    requires i < |changes| - 1
    ensures Clears(changes[i + 1..], id) <==> Clears(Init(changes)[i + 1..], id) || ClearsNow(Last(changes), id)
  {
    var tail := changes[i + 1..];
    assert Init(tail) == Init(changes)[i + 1..] && Last(tail) == Last(changes);
  }

  lemma AddsStep(changes: seq<PlayerChange>, c: PlayerCondition)
    requires |changes| > 0
    ensures AddsForGood(changes, c) <==>
            (AddsForGood(Init(changes), c) && !ClearsNow(Last(changes), c.id)) || AddsNow(Last(changes), c)
  {
    var n := |changes| - 1;
    if AddsForGood(Init(changes), c) && !ClearsNow(Last(changes), c.id) {
      var i :| 0 <= i < n && AddsNow(Init(changes)[i], c) && !Clears(Init(changes)[i + 1..], c.id);
      ClearsTail(changes, i, c.id);
      assert changes[i] == Init(changes)[i];
    }
    if AddsNow(Last(changes), c) {
      assert changes[n + 1..] == [];
      assert changes[n] == Last(changes) && !Clears(changes[n + 1..], c.id);
    }
    if AddsForGood(changes, c) {
      var i :| 0 <= i <= n && AddsNow(changes[i], c) && !Clears(changes[i + 1..], c.id);
      if i < n {
        ClearsTail(changes, i, c.id);
        assert AddsNow(Init(changes)[i], c) && !Clears(Init(changes)[i + 1..], c.id);
      }
    }
  }

  /** The conditions after some changes: old ones nobody cleared, and added ones nobody cleared afterwards. */
  lemma {:induction false} ConditionsLast(p: PlayerCharacterState, changes: seq<PlayerChange>, c: PlayerCondition)
    ensures c in Player(p, changes).conditions <==>
            (c in p.conditions && !Clears(changes, c.id)) || AddsForGood(changes, c)
    decreases |changes|
  {
    if |changes| > 0 {
      ConditionsLast(p, Init(changes), c);
      AddsStep(changes, c);
    }
  }
}
