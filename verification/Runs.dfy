/** Finite runs of a deterministic step, each step allowed in the state it is taken from. */
module Runs {
  import opened Sequences

  function Final<S, D>(s0: S, ds: seq<D>, step: (S, D) -> S): S {
    if |ds| == 0 then s0 else step(Final(s0, Init(ds), step), Last(ds))
  }

  predicate Legal<S, D>(s0: S, ds: seq<D>, step: (S, D) -> S, allowed: (S, D) -> bool) {
    |ds| > 0 ==>
      && Legal(s0, Init(ds), step, allowed)
      && allowed(Final(s0, Init(ds), step), Last(ds))
  }

  lemma Extend<S, D>(s0: S, ds: seq<D>, d: D, step: (S, D) -> S, allowed: (S, D) -> bool)
    ensures Final(s0, ds + [d], step) == step(Final(s0, ds, step), d)
    ensures Legal(s0, ds + [d], step, allowed) <==>
            Legal(s0, ds, step, allowed) && allowed(Final(s0, ds, step), d)
  {
    assert Init(ds + [d]) == ds && Last(ds + [d]) == d;
  }

  lemma {:induction false} Prefix<S, D>(s0: S, ds: seq<D>, n: nat, step: (S, D) -> S, allowed: (S, D) -> bool)
    requires n <= |ds| && Legal(s0, ds, step, allowed)
    ensures Legal(s0, ds[..n], step, allowed)
    decreases |ds|
  {
    if n == |ds| {
      assert ds[..n] == ds;
    } else {
      Prefix(s0, Init(ds), n, step, allowed);
      assert Init(ds)[..n] == ds[..n];
    }
  }

  lemma StepAt<S, D>(s0: S, ds: seq<D>, n: nat, step: (S, D) -> S, allowed: (S, D) -> bool)
    requires n < |ds| && Legal(s0, ds, step, allowed)
    ensures Final(s0, ds[..n + 1], step) == step(Final(s0, ds[..n], step), ds[n])
    ensures allowed(Final(s0, ds[..n], step), ds[n])
  {
    Prefix(s0, ds, n + 1, step, allowed);
    assert ds[..n + 1] == ds[..n] + [ds[n]];
    Extend(s0, ds[..n], ds[n], step, allowed);
  }
}
