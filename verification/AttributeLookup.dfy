/** How AddAttributes learns whether an attribute exists: by the list GetAttributes returns. */
module AttributeLookup {
  import opened PagedStream
  import opened Runs
  import S = SliceForm
  import SliceOutcomes
  import opened AttributeJob

  /** What AddAttributes makes of a finished GetAttributes. */
  function LookupOf<T>(out: S.Outcome<T>): Lookup
    requires !out.Selecting?
  {
    match out
    case ReturnedError(_) => LookupFailed
    case Returned(list) => if |list| > 0 then Exists else Absent
  }

  /** An attribute that exists is never taken for absent, on any schedule, exactly when the
      lookup's RPC cannot fail (its context is never cancelled). A failure may be silent,
      and the attribute is then added again. */
  lemma {:induction false} ExistingIsFoundIffReliable<T(!new)>(c: Config<T>)
    requires c.Valid() && c.items != [] && !c.mayCancel
    ensures (forall run :: IsRun(S.Protocol(c), run) && !Last(run).out.Selecting? ==>
               LookupOf(Last(run).out) != Absent)
            <==> !c.mayFail
  {
    if c.mayFail {
      var run := S.SilentTruncation(c);
      assert LookupOf(Last(run).out) == Absent;
    } else {
      S.AlwaysCompleteIffReliable(c);
    }
  }

  ghost predicate CanLookUp<T(!new)>(c: Config<T>, lookup: Lookup) {
    exists run :: IsRun(S.Protocol(c), run) && !Last(run).out.Selecting? && LookupOf(Last(run).out) == lookup
  }

  lemma {:induction false} LookupIsOutcome<T(!new)>(c: Config<T>, out: S.Outcome<T>)
    requires c.Valid() && !out.Selecting? && SliceOutcomes.Possible(c, out)
    ensures CanLookUp(c, LookupOf(out))
  {
    var run := SliceOutcomes.SomeRun(c, out);
  }

  /** What a lookup can come to: a failure if its RPC can fail, an existing attribute if
      there is one, and none if there is none or the RPC can fail. */
  lemma {:induction false} PossibleLookups<T(!new)>(c: Config<T>)
    requires c.Valid() && !c.mayCancel
    ensures CanLookUp(c, LookupFailed) <==> c.mayFail
    ensures CanLookUp(c, Exists) <==> c.items != []
    ensures CanLookUp(c, Absent) <==> c.items == [] || c.mayFail
  {
    forall run | IsRun(S.Protocol(c), run) ensures SliceOutcomes.Possible(c, Last(run).out) {
      SliceOutcomes.ExactlyThePossibleOutcomes(c, Last(run).out);
    }
    LookupIsOutcome(c, S.Returned(c.items));
    if c.mayFail {
      LookupIsOutcome(c, S.ReturnedError(Rpc(0)));
      assert 0 % c.limit == 0;
      LookupIsOutcome(c, S.Returned([]));
    }
  }
}
