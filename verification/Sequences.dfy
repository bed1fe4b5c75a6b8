/** Increasing lists of indices, and counting in lists. */
module Sequences {

  ghost predicate Increasing(xs: seq<nat>) {
    forall k, l | 0 <= k < l < |xs| :: xs[k] < xs[l]
  }

  lemma {:induction false} IncreasingMore(xs: seq<nat>, x: nat)
    requires Increasing(xs) && forall y | y in xs :: y < x
    ensures Increasing(xs + [x])
  {
    forall k | 0 <= k < |xs| ensures xs[k] < x {
      assert xs[k] in xs;
    }
  }

  lemma {:induction false} CountOfBoth<T>(xs: seq<T>, ys: seq<T>, x: T)
    ensures multiset(xs + ys)[x] == multiset(xs)[x] + multiset(ys)[x]
  {}
}
