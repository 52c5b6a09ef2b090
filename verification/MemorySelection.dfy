/** `prioritized_memories`: the memories put into a prompt, most important first, oldest first among equals. */
module MemorySelection {
  import opened Sequences
  import opened Domain

  /** The order of the sort: falling importance, then rising position. */
  predicate Ranks(memories: seq<MemoryEntry>, i: nat, j: nat)
    requires i < |memories| && j < |memories|
  {
    memories[i].importance > memories[j].importance || (memories[i].importance == memories[j].importance && i < j)
  }

  predicate Wanted(memories: seq<MemoryEntry>, visibility: MemoryVisibility, i: nat) {
    i < |memories| && memories[i].visibility == visibility
  }

  /** The positions `enumerate` and `filter` let through. */
  function Matches(memories: seq<MemoryEntry>, visibility: MemoryVisibility): (r: seq<nat>)
    ensures forall k | 0 <= k < |r| :: Wanted(memories, visibility, r[k])
    ensures forall i: nat | Wanted(memories, visibility, i) :: i in r
    ensures forall p, q | 0 <= p < q < |r| :: r[p] < r[q]
  {
    if |memories| == 0 then []
    else
      var before, last := Matches(Init(memories), visibility), |memories| - 1;
      assert forall i: nat | Wanted(memories, visibility, i) && i != last :: Wanted(Init(memories), visibility, i);
      assert forall k | 0 <= k < |before| :: Wanted(Init(memories), visibility, before[k]);
      if memories[last].visibility == visibility then before + [last] else before
  }

  predicate InRange(memories: seq<MemoryEntry>, indices: seq<nat>) {
    forall k | 0 <= k < |indices| :: indices[k] < |memories|
  }

  ghost predicate Ranked(memories: seq<MemoryEntry>, indices: seq<nat>) {
    InRange(memories, indices) && forall p, q | 0 <= p < q < |indices| :: Ranks(memories, indices[p], indices[q])
  }

  /**
   The selection by its properties: as many of the wanted memories as the limit allows, in rank order, and
   each one left out ranks after each one chosen.
   */
  ghost predicate TopRanked(
    memories: seq<MemoryEntry>, visibility: MemoryVisibility, limit: nat, chosen: seq<nat>)
  {
    && |chosen| == (if limit < |Matches(memories, visibility)| then limit else |Matches(memories, visibility)|)
    && Ranked(memories, chosen)
    && (forall i | i in chosen :: Wanted(memories, visibility, i))
    && forall i: nat, j: nat | i in chosen && Wanted(memories, visibility, j) && j !in chosen :: Ranks(memories, i, j)
  }

  lemma InsertedElements(sorted: seq<nat>, at: nat, i: nat)
    requires at <= |sorted|
    ensures multiset(sorted[..at] + [i] + sorted[at..]) == multiset(sorted) + multiset{i}
  {
    assert sorted == sorted[..at] + sorted[at..];
  }

  /** One insertion of a stable insertion sort: before the first element that ranks after it. */
  method Insert(memories: seq<MemoryEntry>, sorted: seq<nat>, i: nat) returns (r: seq<nat>)
    requires Ranked(memories, sorted) && i < |memories| && i !in sorted
    ensures Ranked(memories, r) && multiset(r) == multiset(sorted) + multiset{i}
  {
    var at := |sorted|;
    while at > 0 && Ranks(memories, i, sorted[at - 1])
      invariant 0 <= at <= |sorted|
      invariant forall q | at <= q < |sorted| :: Ranks(memories, i, sorted[q])
    {
      at := at - 1;
    }
    r := sorted[..at] + [i] + sorted[at..];
    InsertedElements(sorted, at, i);
  }

  /** Stands for `sort_by` with this order. */
  method SortByRank(memories: seq<MemoryEntry>, indices: seq<nat>) returns (sorted: seq<nat>)
    requires InRange(memories, indices) && NoDuplicates(indices)
    ensures Ranked(memories, sorted) && multiset(sorted) == multiset(indices)
  {
    sorted := [];
    for k := 0 to |indices|
      invariant Ranked(memories, sorted) && multiset(sorted) == multiset(indices[..k])
    {
      assert indices[..k + 1] == indices[..k] + [indices[k]];
      assert indices[k] !in multiset(indices[..k]);
      assert indices[k] !in multiset(sorted);
      sorted := Insert(memories, sorted, indices[k]);
    }
    assert indices[..|indices|] == indices;
  }

  function At(memories: seq<MemoryEntry>, indices: seq<nat>): (r: seq<MemoryEntry>)
    requires InRange(memories, indices)
    ensures |r| == |indices|
    ensures forall k | 0 <= k < |indices| :: r[k] == memories[indices[k]]
  {
    seq(|indices|, k requires 0 <= k < |indices| => memories[indices[k]])
  }

  lemma LeftOutRanksLater(memories: seq<MemoryEntry>, sorted: seq<nat>, n: nat, i: nat, j: nat)
    requires Ranked(memories, sorted) && n <= |sorted|
    requires i in sorted[..n] && j in sorted && j !in sorted[..n]
    ensures i < |memories| && j < |memories| && Ranks(memories, i, j)
  {
    var p :| 0 <= p < n && sorted[..n][p] == i;
    var q :| 0 <= q < |sorted| && sorted[q] == j;
    assert forall k | 0 <= k < n :: sorted[..n][k] == sorted[k] && sorted[k] in sorted[..n];
  }

  lemma SortedElements(memories: seq<MemoryEntry>, visibility: MemoryVisibility, sorted: seq<nat>)
    requires multiset(sorted) == multiset(Matches(memories, visibility))
    ensures |sorted| == |Matches(memories, visibility)|
    ensures forall i: nat :: i in sorted <==> Wanted(memories, visibility, i)
  {
    var matches := Matches(memories, visibility);
    assert |sorted| == |multiset(sorted)| == |matches|;
    forall i: nat ensures i in sorted <==> Wanted(memories, visibility, i) {
      assert i in sorted <==> i in multiset(sorted);
      assert i in matches <==> i in multiset(matches);
    }
  }

  lemma FirstsRanked(memories: seq<MemoryEntry>, sorted: seq<nat>, n: nat)
    requires Ranked(memories, sorted) && n <= |sorted|
    ensures Ranked(memories, sorted[..n])
    ensures forall i | i in sorted[..n] :: i in sorted
  {
  }

  lemma FirstsAreTop(memories: seq<MemoryEntry>, visibility: MemoryVisibility, limit: nat, sorted: seq<nat>)
    requires Ranked(memories, sorted) && multiset(sorted) == multiset(Matches(memories, visibility))
    ensures TopRanked(memories, visibility, limit, if limit < |sorted| then sorted[..limit] else sorted)
  {
    hide Ranked, Ranks, Wanted, Matches;
    var n := if limit < |sorted| then limit else |sorted|;
    var taken := sorted[..n];
    assert n == |sorted| ==> taken == sorted;
    SortedElements(memories, visibility, sorted);
    FirstsRanked(memories, sorted, n);
    forall i: nat, j: nat | i in taken && Wanted(memories, visibility, j) && j !in taken
      ensures i < |memories| && j < |memories| && Ranks(memories, i, j)
    {
      LeftOutRanksLater(memories, sorted, n, i, j);
    }
  }

  method PrioritizedMemories(memories: seq<MemoryEntry>, visibility: MemoryVisibility, limit: nat)
    returns (r: seq<MemoryEntry>)
    ensures exists chosen :: TopRanked(memories, visibility, limit, chosen) && r == At(memories, chosen)
  {
    var indexed := Matches(memories, visibility);
    var sorted := SortByRank(memories, indexed);
    FirstsAreTop(memories, visibility, limit, sorted);
    var taken := if limit < |sorted| then sorted[..limit] else sorted;
    r := At(memories, taken);
  }

  /** In the selected memories: only that visibility, falling importance, older before newer among equals. */
  lemma SelectedMemories(
    memories: seq<MemoryEntry>, visibility: MemoryVisibility, limit: nat, chosen: seq<nat>, p: nat, q: nat)
    requires TopRanked(memories, visibility, limit, chosen) && p < q < |chosen|
    ensures |chosen| <= limit
    ensures var r := At(memories, chosen);
            && r[p].visibility == r[q].visibility == visibility
            && r[p].importance >= r[q].importance
            && (r[p].importance == r[q].importance ==> chosen[p] < chosen[q])
  {
    assert chosen[p] in chosen && chosen[q] in chosen;
  }

  /** The properties leave no choice: there is one such selection. */
  lemma {:induction false} SelectionIsUnique(
    memories: seq<MemoryEntry>, visibility: MemoryVisibility, limit: nat, a: seq<nat>, b: seq<nat>)
    requires TopRanked(memories, visibility, limit, a) && TopRanked(memories, visibility, limit, b)
    ensures a == b
  {
    SamePrefix(memories, visibility, limit, a, b, |a|);
    assert a[..|a|] == a && b[..|b|] == b;
  }

  lemma NextRanksFirst(
    memories: seq<MemoryEntry>, visibility: MemoryVisibility, limit: nat, a: seq<nat>, b: seq<nat>, k: nat)
    requires TopRanked(memories, visibility, limit, a) && TopRanked(memories, visibility, limit, b)
    requires k < |a| == |b| && a[..k] == b[..k] && a[k] != b[k]
    ensures Ranks(memories, b[k], a[k])
  {
    if a[k] in b {
      var m :| 0 <= m < |b| && b[m] == a[k];
      if m < k {
        assert false;
      }
    } else {
      assert a[k] in a && b[k] in b;
    }
  }

  lemma {:induction false} SamePrefix(
    memories: seq<MemoryEntry>, visibility: MemoryVisibility, limit: nat, a: seq<nat>, b: seq<nat>, k: nat)
    requires TopRanked(memories, visibility, limit, a) && TopRanked(memories, visibility, limit, b)
    requires k <= |a|
    ensures a[..k] == b[..k]
    decreases k
  {
    if k > 0 {
      SamePrefix(memories, visibility, limit, a, b, k - 1);
      if a[k - 1] != b[k - 1] {
        NextRanksFirst(memories, visibility, limit, a, b, k - 1);
        NextRanksFirst(memories, visibility, limit, b, a, k - 1);
        assert false;
      }
    }
  }
}
