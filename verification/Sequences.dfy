/**
 The `Vec` and iterator operations the engine relies on: `find`, `iter_mut().find`, `retain`,
 `filter_map`, and the two ways of reading a list of changes, as a log and as a counter.
 Predicates and transformers are passed as named function values so that two uses of the same
 one are the same term.
 */
module Sequences {
  import opened Wrappers

  function Init<T>(xs: seq<T>): seq<T>
    requires |xs| > 0
  {
    xs[..|xs| - 1]
  }

  function Last<T>(xs: seq<T>): T
    requires |xs| > 0
  {
    xs[|xs| - 1]
  }

  lemma InitLast<T>(xs: seq<T>)
    requires |xs| > 0
    ensures Init(xs) + [Last(xs)] == xs
  {
  }

  lemma PrefixStep<T>(xs: seq<T>, i: nat)
    requires i < |xs|
    ensures Init(xs[..i + 1]) == xs[..i] && Last(xs[..i + 1]) == xs[i]
  {
  }

  lemma ConcatAssociates<T>(a: seq<T>, b: seq<T>, c: seq<T>)
    ensures (a + b) + c == a + (b + c)
  {
  }

  /** Position of the first element accepted by `hit`, or the length when there is none. */
  function FirstIndex<T>(xs: seq<T>, hit: T -> bool): (i: nat)
    ensures i <= |xs|
    ensures i < |xs| ==> hit(xs[i])
    ensures forall k | 0 <= k < i :: !hit(xs[k])
  {
    if |xs| == 0 then 0
    else if hit(xs[0]) then 0
    else
      var i := FirstIndex(xs[1..], hit);
      assert forall k | 1 <= k < i + 1 :: xs[k] == xs[1..][k - 1];
      1 + i
  }

  predicate Any<T>(xs: seq<T>, hit: T -> bool) {
    FirstIndex(xs, hit) < |xs|
  }

  lemma AnyIff<T>(xs: seq<T>, hit: T -> bool)
    ensures Any(xs, hit) <==> exists x :: x in xs && hit(x)
  {
    var i := FirstIndex(xs, hit);
    if i < |xs| {
      assert xs[i] in xs;
    }
  }

  function Find<T>(xs: seq<T>, hit: T -> bool): Option<T> {
    var i := FirstIndex(xs, hit);
    if i < |xs| then Some(xs[i]) else None
  }

  /** `if let Some(x) = xs.iter_mut().find(hit) { *x = patch(x) }` */
  function UpdateFirst<T>(xs: seq<T>, hit: T -> bool, patch: T -> T): (r: seq<T>)
    ensures |r| == |xs|
    ensures forall k | 0 <= k < |xs| ::
              r[k] == if k == FirstIndex(xs, hit) then patch(xs[k]) else xs[k]
  {
    var i := FirstIndex(xs, hit);
    if i < |xs| then xs[i := patch(xs[i])] else xs
  }

  function Replace<T>(y: T): T -> T {
    (x: T) => y
  }

  /** Overwrite the first element that matches, or append. */
  function Upsert<T>(xs: seq<T>, hit: T -> bool, y: T): seq<T> {
    if Any(xs, hit) then UpdateFirst(xs, hit, Replace(y)) else xs + [y]
  }

  function Filter<T>(xs: seq<T>, keep: T -> bool): (r: seq<T>)
    ensures |r| <= |xs|
    ensures forall x | x in r :: x in xs && keep(x)
    ensures forall x | x in xs && keep(x) :: x in r
  {
    if |xs| == 0 then []
    else
      assert xs == Init(xs) + [Last(xs)];
      Filter(Init(xs), keep) + (if keep(Last(xs)) then [Last(xs)] else [])
  }

  function Map<S, T>(xs: seq<S>, f: S -> T): (r: seq<T>)
    ensures |r| == |xs|
    ensures forall k | 0 <= k < |xs| :: r[k] == f(xs[k])
  {
    seq(|xs|, i requires 0 <= i < |xs| => f(xs[i]))
  }

  function FilterMap<S, T>(xs: seq<S>, f: S -> Option<T>): (r: seq<T>)
    ensures |r| <= |xs|
  {
    if |xs| == 0 then []
    else
      FilterMap(Init(xs), f) +
      match f(Last(xs)) {
        case Some(y) => [y]
        case None => []
      }
  }

  /** A counter: what a list of increments adds up to. */
  function Sum(xs: seq<int>): int {
    if |xs| == 0 then 0 else Sum(Init(xs)) + Last(xs)
  }

  /** A register: the last value written, or the one it held before. */
  function LastOr<T>(xs: seq<T>, before: T): T {
    if |xs| == 0 then before else Last(xs)
  }

  function Flatten<T>(xss: seq<seq<T>>): seq<T> {
    if |xss| == 0 then [] else Flatten(Init(xss)) + Last(xss)
  }

  ghost predicate Unique<T, K>(xs: seq<T>, key: T -> K) {
    forall i, j | 0 <= i < j < |xs| :: key(xs[i]) != key(xs[j])
  }

  ghost predicate NoDuplicates<T>(xs: seq<T>) {
    forall i, j | 0 <= i < j < |xs| :: xs[i] != xs[j]
  }

  /** A list with the keys of a list with unique keys has unique keys. */
  lemma SameKeysUnique<S, T, K>(xs: seq<S>, xkey: S -> K, ys: seq<T>, ykey: T -> K)
    requires Unique(xs, xkey) && |xs| == |ys|
    requires forall k | 0 <= k < |xs| :: ykey(ys[k]) == xkey(xs[k])
    ensures Unique(ys, ykey)
  {
  }

  lemma NoDuplicatesAppend<T>(xs: seq<T>, ys: seq<T>)
    requires NoDuplicates(xs) && NoDuplicates(ys)
    requires forall x | x in xs :: x !in ys
    ensures NoDuplicates(xs + ys)
  {
    var all := xs + ys;
    forall i, j | 0 <= i < j < |all|
      ensures all[i] != all[j]
    {
      if i < |xs| <= j {
        assert all[i] in xs && all[j] in ys;
      }
    }
  }

  lemma FilterMapLast<S, T>(xs: seq<S>, f: S -> Option<T>)
    requires |xs| > 0
    ensures f(Last(xs)).Some? ==> FilterMap(xs, f) == FilterMap(Init(xs), f) + [f(Last(xs)).value]
    ensures f(Last(xs)).None? ==> FilterMap(xs, f) == FilterMap(Init(xs), f)
  {
  }

  lemma FilterMapPush<S, T>(xs: seq<S>, x: S, f: S -> Option<T>)
    ensures FilterMap(xs + [x], f) == FilterMap(xs, f) + if f(x).Some? then [f(x).value] else []
  {
    assert Init(xs + [x]) == xs;
  }

  lemma {:induction false} FilterMapAppend<S, T>(xs: seq<S>, ys: seq<S>, f: S -> Option<T>)
    ensures FilterMap(xs + ys, f) == FilterMap(xs, f) + FilterMap(ys, f)
    decreases |ys|
  {
    if |ys| == 0 {
      assert xs + ys == xs;
    } else {
      FilterMapAppend(xs, Init(ys), f);
      assert Init(xs + ys) == xs + Init(ys);
    }
  }

  /** Every element of the result comes from an element of the input, and conversely. */
  lemma {:induction false} FilterMapMember<S, T>(xs: seq<S>, f: S -> Option<T>, y: T)
    ensures y in FilterMap(xs, f) <==> exists x :: x in xs && f(x) == Some(y)
    decreases |xs|
  {
    if |xs| > 0 {
      FilterMapMember(Init(xs), f, y);
      InitLast(xs);
      if f(Last(xs)) == Some(y) {
        assert Last(xs) in xs;
      }
      if y in FilterMap(Init(xs), f) {
        var x :| x in Init(xs) && f(x) == Some(y);
        assert x in xs;
      }
      if exists x :: x in xs && f(x) == Some(y) {
        var x :| x in xs && f(x) == Some(y);
        assert x in Init(xs) || x == Last(xs);
      }
    }
  }

  /** A list on which `f` picks nothing contributes nothing. */
  lemma {:induction false} FilterMapNone<S, T>(xs: seq<S>, f: S -> Option<T>)
    requires forall k | 0 <= k < |xs| :: f(xs[k]) == None
    ensures FilterMap(xs, f) == []
    decreases |xs|
  {
    if |xs| > 0 {
      FilterMapNone(Init(xs), f);
    }
  }

  /** Two lists that look the same to `f` at every position have the same view. */
  lemma {:induction false} FilterMapPointwise<S, T>(xs: seq<S>, ys: seq<S>, f: S -> Option<T>)
    requires |xs| == |ys|
    requires forall k | 0 <= k < |xs| :: f(xs[k]) == f(ys[k])
    ensures FilterMap(xs, f) == FilterMap(ys, f)
    decreases |xs|
  {
    if |xs| > 0 {
      FilterMapPointwise(Init(xs), Init(ys), f);
    }
  }

  /** A change that `f` cannot see in any element it may touch leaves the view as it was. */
  lemma UnseenUpdate<S, T>(xs: seq<S>, hit: S -> bool, patch: S -> S, f: S -> Option<T>)
    requires forall x | x in xs && hit(x) :: f(patch(x)) == f(x)
    ensures FilterMap(UpdateFirst(xs, hit, patch), f) == FilterMap(xs, f)
  {
    var ys := UpdateFirst(xs, hit, patch);
    forall k | 0 <= k < |xs| ensures f(xs[k]) == f(ys[k]) {
      assert xs[k] in xs;
    }
    FilterMapPointwise(xs, ys, f);
  }

  lemma UnseenPush<S, T>(xs: seq<S>, x: S, f: S -> Option<T>)
    requires f(x) == None
    ensures FilterMap(xs + [x], f) == FilterMap(xs, f)
  {
    FilterMapPush(xs, x, f);
    assert FilterMap(xs, f) + [] == FilterMap(xs, f);
  }

  lemma {:induction false} UnseenFilter<S, T>(xs: seq<S>, keep: S -> bool, f: S -> Option<T>)
    requires forall x | x in xs && !keep(x) :: f(x) == None
    ensures FilterMap(Filter(xs, keep), f) == FilterMap(xs, f)
    decreases |xs|
  {
    if |xs| > 0 {
      InitLast(xs);
      assert forall x | x in Init(xs) :: x in xs;
      UnseenFilter(Init(xs), keep, f);
      assert Last(xs) in xs;
      var kept := Filter(Init(xs), keep);
      if keep(Last(xs)) {
        FilterMapPush(kept, Last(xs), f);
        FilterMapLast(xs, f);
        assert FilterMap(kept, f) + [] == FilterMap(kept, f);
      } else {
        assert kept + [] == kept;
      }
    }
  }

  /** Viewing a redacted list equals viewing the list, when redaction drops only what the view drops. */
  lemma {:induction false} FilterMapFuse<S, T>(xs: seq<S>, redact: S -> Option<S>, f: S -> Option<T>)
    requires forall x | x in xs :: f(x) == if redact(x).Some? then f(redact(x).value) else None
    ensures FilterMap(FilterMap(xs, redact), f) == FilterMap(xs, f)
    decreases |xs|
  {
    if |xs| > 0 {
      InitLast(xs);
      assert forall x | x in Init(xs) :: x in xs;
      FilterMapFuse(Init(xs), redact, f);
      var kept := FilterMap(Init(xs), redact);
      assert Last(xs) in xs;
      match redact(Last(xs)) {
        case Some(y) => FilterMapPush(kept, y, f);
        case None => assert kept + [] == kept;
      }
    }
  }

  /** `small` is `big` with some elements left out and the order kept. */
  ghost predicate Subsequence<T>(small: seq<T>, big: seq<T>)
    decreases |big|
  {
    if |small| == 0 then true
    else if |big| == 0 then false
    else
      (Last(small) == Last(big) && Subsequence(Init(small), Init(big))) || Subsequence(small, Init(big))
  }

  lemma {:induction false} SubViewSubsequence<S, T>(xs: seq<S>, f: S -> Option<T>, g: S -> Option<T>)
    requires forall x | x in xs && f(x).Some? :: g(x) == f(x)
    ensures Subsequence(FilterMap(xs, f), FilterMap(xs, g))
    decreases |xs|
  {
    if |xs| > 0 {
      InitLast(xs);
      assert forall x | x in Init(xs) :: x in xs;
      SubViewSubsequence(Init(xs), f, g);
      var small, big := FilterMap(Init(xs), f), FilterMap(Init(xs), g);
      assert Last(xs) in xs;
      if f(Last(xs)).Some? {
        assert Init(small + [f(Last(xs)).value]) == small && Init(big + [f(Last(xs)).value]) == big;
      } else if g(Last(xs)).Some? {
        assert small + [] == small;
        assert Init(big + [g(Last(xs)).value]) == big;
      } else {
        assert small + [] == small && big + [] == big;
      }
    }
  }

  lemma SumPush(xs: seq<int>, x: int)
    ensures Sum(xs + [x]) == Sum(xs) + x
  {
    assert Init(xs + [x]) == xs;
  }

  lemma CutAndJoined<T>(xs: seq<T>, n: nat)
    requires n <= |xs|
    ensures xs[..n] + xs[n..] == xs
  {
  }

  /** With unique keys, `iter_mut().find` on a key touches exactly the element that has the key. */
  lemma UpdateByKey<T, K>(xs: seq<T>, key: T -> K, k: K, hit: T -> bool, patch: T -> T)
    requires Unique(xs, key)
    requires forall x | x in xs :: hit(x) <==> key(x) == k
    ensures forall i | 0 <= i < |xs| ::
              UpdateFirst(xs, hit, patch)[i] == if key(xs[i]) == k then patch(xs[i]) else xs[i]
  {
    forall i | 0 <= i < |xs|
      ensures UpdateFirst(xs, hit, patch)[i] == if key(xs[i]) == k then patch(xs[i]) else xs[i]
    {
      var first := FirstIndex(xs, hit);
      assert xs[i] in xs;
      if hit(xs[i]) {
        assert xs[first] in xs;
        assert key(xs[first]) == key(xs[i]);
      }
    }
  }
}
