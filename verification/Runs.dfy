/** Transition systems and what an inductive argument about them gives: invariants on
    every run, a bound on the number of steps that change the state, and the existence
    of a path to a final state. Each protocol of this project is one `System`. */
module Runs {

  datatype System<!S> = System(init: S -> bool, step: (S, S) -> bool)

  ghost predicate IsPath<S>(sys: System<S>, path: seq<S>) {
    && |path| > 0
    && forall i | 0 <= i < |path| - 1 :: sys.step(path[i], path[i + 1])
  }

  ghost predicate IsRun<S>(sys: System<S>, run: seq<S>) {
    IsPath(sys, run) && sys.init(run[0])
  }

  function Last<S>(path: seq<S>): S
    requires |path| > 0
  {
    path[|path| - 1]
  }

  ghost predicate Inductive<S(!new)>(sys: System<S>, inv: S -> bool) {
    && (forall s :: sys.init(s) ==> inv(s))
    && (forall s, s' :: inv(s) && sys.step(s, s') ==> inv(s'))
  }

  /** `inv` is kept by the steps from states where `base` holds too. */
  ghost predicate InductiveUnder<S(!new)>(sys: System<S>, base: S -> bool, inv: S -> bool) {
    && (forall s :: sys.init(s) ==> inv(s))
    && (forall s, s' :: base(s) && inv(s) && sys.step(s, s') ==> inv(s'))
  }

  function And<S>(p: S -> bool, q: S -> bool): S -> bool {
    s => p(s) && q(s)
  }

  lemma {:induction false} InductiveTogether<S(!new)>(sys: System<S>, base: S -> bool, p: S -> bool, q: S -> bool)
    requires Inductive(sys, base) && InductiveUnder(sys, base, p) && InductiveUnder(sys, base, q)
    ensures Inductive(sys, And(base, p)) && Inductive(sys, And(And(base, p), q))
  {}

  /** A system with fewer steps keeps what the larger one keeps. */
  ghost predicate Within<S(!new)>(sub: System<S>, sys: System<S>) {
    (forall s :: sub.init(s) ==> sys.init(s)) && (forall s, s' :: sub.step(s, s') ==> sys.step(s, s'))
  }

  lemma {:induction false} InductiveWithin<S(!new)>(sub: System<S>, sys: System<S>, inv: S -> bool)
    requires Within(sub, sys) && Inductive(sys, inv)
    ensures Inductive(sub, inv)
  {}

  lemma {:induction false} PathWithin<S(!new)>(sub: System<S>, sys: System<S>, path: seq<S>)
    requires Within(sub, sys) && IsPath(sub, path)
    ensures IsPath(sys, path)
  {}

  /** Every step that changes the state lowers the measure. */
  ghost predicate Decreasing<S(!new)>(sys: System<S>, inv: S -> bool, measure: S -> nat) {
    forall s, s' :: inv(s) && sys.step(s, s') && s != s' ==> measure(s') < measure(s)
  }

  /** Outside the final states some step that lowers the measure is enabled. */
  ghost predicate Live<S(!new)>(sys: System<S>, inv: S -> bool, measure: S -> nat, final: S -> bool) {
    forall s :: inv(s) && !final(s) ==> exists s' :: sys.step(s, s') && measure(s') < measure(s)
  }

  /** The number of steps of a path that change the state. */
  ghost function Changes<S>(path: seq<S>): nat {
    if |path| < 2 then 0
    else Changes(path[..|path| - 1]) + if path[|path| - 2] == path[|path| - 1] then 0 else 1
  }

  lemma {:induction false} PathsJoin<S>(sys: System<S>, front: seq<S>, rest: seq<S>)
    requires IsPath(sys, front) && IsPath(sys, rest) && sys.step(Last(front), rest[0])
    ensures IsPath(sys, front + rest)
  {}

  /** One step more. */
  lemma {:induction false} Extend<S>(sys: System<S>, run: seq<S>, s: S) returns (run': seq<S>)
    requires IsRun(sys, run) && sys.step(Last(run), s)
    ensures IsRun(sys, run') && Last(run') == s
  {
    PathsJoin(sys, run, [s]);
    run' := run + [s];
  }

  lemma {:induction false} InvariantOnPath<S(!new)>(sys: System<S>, inv: S -> bool, path: seq<S>)
    requires IsPath(sys, path) && Inductive(sys, inv) && inv(path[0])
    ensures forall i | 0 <= i < |path| :: inv(path[i])
  {
    if |path| > 1 {
      var front := path[..|path| - 1];
      InvariantOnPath(sys, inv, front);
      assert inv(front[|path| - 2]);
      assert sys.step(path[|path| - 2], path[|path| - 2 + 1]);
      forall i | 0 <= i < |path| ensures inv(path[i]) {
        if i < |path| - 1 {
          assert path[i] == front[i];
        }
      }
    }
  }

  lemma {:induction false} InvariantOnRun<S(!new)>(sys: System<S>, inv: S -> bool, run: seq<S>)
    requires IsRun(sys, run) && Inductive(sys, inv)
    ensures forall i | 0 <= i < |run| :: inv(run[i])
    ensures inv(Last(run))
  {
    InvariantOnPath(sys, inv, run);
  }

  /** A decreasing measure bounds the number of state changes of any path. */
  lemma {:induction false} ChangesBounded<S(!new)>(sys: System<S>, inv: S -> bool, measure: S -> nat, path: seq<S>)
    requires IsPath(sys, path) && Inductive(sys, inv) && inv(path[0]) && Decreasing(sys, inv, measure)
    ensures Changes(path) + measure(Last(path)) <= measure(path[0])
  {
    InvariantOnPath(sys, inv, path);
    if |path| > 1 {
      ChangesBounded(sys, inv, measure, path[..|path| - 1]);
      assert sys.step(path[|path| - 2], path[|path| - 2 + 1]);
    }
  }

  /** Every step lowers the measure, so no step can be repeated for ever. */
  ghost predicate StrictlyDecreasing<S(!new)>(sys: System<S>, inv: S -> bool, measure: S -> nat) {
    forall s, s' :: inv(s) && sys.step(s, s') ==> measure(s') < measure(s)
  }

  lemma {:induction false} LengthBounded<S(!new)>(sys: System<S>, inv: S -> bool, measure: S -> nat, path: seq<S>)
    requires IsPath(sys, path) && Inductive(sys, inv) && inv(path[0]) && StrictlyDecreasing(sys, inv, measure)
    ensures |path| - 1 + measure(Last(path)) <= measure(path[0])
  {
    InvariantOnPath(sys, inv, path);
    if |path| > 1 {
      LengthBounded(sys, inv, measure, path[..|path| - 1]);
      assert sys.step(path[|path| - 2], path[|path| - 2 + 1]);
    }
  }

  /** A live system with a measure can always be driven to a final state. */
  lemma {:induction false} ReachesFinal<S(!new)>(
    sys: System<S>, inv: S -> bool, measure: S -> nat, final: S -> bool, s: S)
    returns (path: seq<S>)
    requires Inductive(sys, inv) && Live(sys, inv, measure, final) && inv(s)
    ensures IsPath(sys, path) && path[0] == s && final(Last(path))
    decreases measure(s)
  {
    if final(s) {
      path := [s];
    } else {
      var s' :| sys.step(s, s') && measure(s') < measure(s);
      var rest := ReachesFinal(sys, inv, measure, final, s');
      path := [s] + rest;
      PathsJoin(sys, [s], rest);
    }
  }
}
