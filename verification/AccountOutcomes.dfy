/** Exactly what GetAccountValue can answer. Its balance stream behaves as in the slice
    forms: a projection takes each of its runs to a run of a slice form, and each run of a
    slice form is followed by a run of it. So a value, like a list, may be cut short. */
module AccountOutcomes {
  import opened Options
  import opened PagedStream
  import opened Runs
  import opened AccountPricing
  import opened AccountProtocol
  import opened AccountInvariant
  import opened AccountValue
  import S = SliceForm
  import SliceOutcomes

  // ---------- From the account to a slice form ----------

  function OutBecause(s: State, why: Why): S.Outcome<Coin> {
    match why
    case Drained => S.Returned(s.received)
    case ContextDone => S.ReturnedError(Cancelled)
    case StreamError(Some(e)) => S.ReturnedError(e)
    case StreamError(None) => S.Selecting
  }

  /** How a slice form that reads the same stream stands. It skips the nil of the closed
      error channel, and goes on selecting. */
  function OutOf(s: State): S.Outcome<Coin> {
    match s.caller
    case Selecting => S.Selecting
    case Submitting(_) => S.Selecting
    case Waiting(why) => OutBecause(s, why)
    case Closing(why) => OutBecause(s, why)
    case AwaitingTotal => S.Returned(s.received)
    case Returned(Value(_)) => S.Returned(s.received)
    case Returned(NoValue(Some(e))) => S.ReturnedError(e)
    case Returned(NoValue(None)) => S.Selecting
  }

  function Project(s: State): S.State<Coin> {
    S.State(s.p, s.received, OutOf(s))
  }

  lemma {:induction false} ReadingProjects(a: Account, s: State, s': State)
    requires ReceiveBalance(s, s')
    ensures S.Step(a.stream, Project(s), Project(s'))
  {
    assert S.ReceiveItem(Project(s), Project(s'));
  }

  lemma {:induction false} StoppingProjects(a: Account, s: State, s': State)
    requires Stops(s, s')
    ensures Project(s') == Project(s) || S.Step(a.stream, Project(s), Project(s'))
  {
    if ReceiveClosed(s, s') {
      assert S.ReceiveClosed(Project(s), Project(s'));
    } else if ReceiveDone(s, s') {
      assert S.ReceiveDone(Project(s), Project(s'));
    } else if ReceiveError(s, s') {
      assert S.ReceiveError(Project(s), Project(s'));
    }
  }

  lemma {:induction false} OtherwiseProjectsToNothing(a: Account, s: State, s': State)
    requires Controlled(s) && (Submit(a, s, s') || WindsUp(s, s'))
    ensures Project(s') == Project(s)
  {}

  lemma {:induction false} CallerProjects(a: Account, s: State, s': State)
    requires Controlled(s) && CallerStep(a, s, s')
    ensures Project(s') == Project(s) || S.Step(a.stream, Project(s), Project(s'))
  {
    if ReceiveBalance(s, s') {
      ReadingProjects(a, s, s');
    } else if Stops(s, s') {
      StoppingProjects(a, s, s');
    } else {
      OtherwiseProjectsToNothing(a, s, s');
    }
  }

  lemma {:induction false} StepProjects(a: Account, s: State, s': State)
    requires Controlled(s) && Step(a, s, s')
    ensures Project(s') == Project(s) || S.Step(a.stream, Project(s), Project(s'))
  {
    if CallerStep(a, s, s') {
      CallerProjects(a, s, s');
    } else if ProducerMoves(a, s, s') {
      assert S.ProducerMoves(a.stream, Project(s), Project(s'));
    } else if ContextMoves(a, s, s') {
      assert S.ContextMoves(a.stream, Project(s), Project(s'));
    } else {
      TasksLeaveTheStream(a, s, s');
    }
  }

  lemma {:induction false} RunProjects(a: Account, run: seq<State>) returns (slice: seq<S.State<Coin>>)
    requires IsRun(Protocol(a), run) && forall i | 0 <= i < |run| :: Controlled(run[i])
    ensures IsRun(S.Protocol(a.stream), slice) && Last(slice) == Project(Last(run))
  {
    if |run| == 1 {
      slice := [S.Initial()];
    } else {
      var front := run[..|run| - 1];
      var s, s' := Last(front), Last(run);
      assert Protocol(a).step(run[|run| - 2], run[|run| - 2 + 1]);
      slice := RunProjects(a, front);
      StepProjects(a, s, s');
      if Project(s') != Project(s) {
        slice := Extend(S.Protocol(a.stream), slice, Project(s'));
      }
    }
  }

  // ---------- From a slice form to the account ----------

  /** The caller selects, and no task is under way. */
  ghost predicate Rested(s: State) {
    && s.caller.Selecting?
    && s.waitGroup == 0 && s.pending == [] && s.exiting == 0
    && s.results == [] && !s.resultsClosed
    && s.summer.Summing? && s.total.total.denom == "usd"
    && s.totalChan == [] && !s.totalClosed
  }

  /** The account has read what the slice form has, and answers as it does. */
  ghost predicate Follows(s: State, t: S.State<Coin>) {
    && s.p == t.p && s.received == t.received
    && match t.out
       case Selecting => Rested(s)
       case Returned(_) => s.caller.Returned? && s.caller.result.Value?
       case ReturnedError(e) => s.caller == Returned(NoValue(Some(e)))
  }

  lemma {:induction false} Continue(a: Account, run: seq<State>, s: State) returns (run': seq<State>)
    requires IsRun(Protocol(a), run) && Step(a, Last(run), s)
    ensures IsRun(Protocol(a), run') && Last(run') == s
  {
    run' := Extend(Protocol(a), run, s);
  }

  /** One task is submitted, and no other is under way. */
  ghost predicate OneTask(s: State, id: string) {
    && s.caller.Selecting?
    && s.waitGroup == 1 && s.pending == [id] && s.exiting == 0
    && s.results == [] && !s.resultsClosed
    && s.summer.Summing? && s.total.total.denom == "usd"
    && s.totalChan == [] && !s.totalClosed
  }

  lemma {:induction false} TaskIsAdded(a: Account, run: seq<State>, id: string) returns (run': seq<State>)
    requires IsRun(Protocol(a), run) && OneTask(Last(run), id) && InUsd(a, id)
    ensures IsRun(Protocol(a), run') && Rested(Last(run'))
    ensures Last(run').p == Last(run).p && Last(run').received == Last(run).received
  {
    var s := Last(run);
    var nft := AccountFor(a, id);
    var delivered := s.(results := [nft], pending := [], exiting := 1);
    assert Without(s.pending, 0) == [];
    assert Deliver(a, s, delivered, 0);
    run' := Continue(a, run, delivered);
    var done := delivered.(exiting := 0, waitGroup := 0);
    assert Done(delivered, done);
    run' := Continue(a, run', done);
    var total := AccountTotal(Coin("usd", s.total.total.amount + nft.price.amount), s.total.nfts + [nft]);
    var added := done.(results := [], total := total);
    assert AddResult(done, added);
    run' := Continue(a, run', added);
  }

  lemma {:induction false} TaskIsSkipped(a: Account, run: seq<State>, id: string) returns (run': seq<State>)
    requires IsRun(Protocol(a), run) && OneTask(Last(run), id) && !InUsd(a, id)
    ensures IsRun(Protocol(a), run') && Rested(Last(run'))
    ensures Last(run').p == Last(run).p && Last(run').received == Last(run).received
  {
    var s := Last(run);
    var skipped := s.(pending := [], exiting := 1);
    assert Without(s.pending, 0) == [];
    assert Skip(a, s, skipped, 0);
    run' := Continue(a, run, skipped);
    var done := skipped.(exiting := 0, waitGroup := 0);
    assert Done(skipped, done);
    run' := Continue(a, run', done);
  }

  lemma {:induction false} BalanceIsRead(a: Account, run: seq<State>, p': Producer<Coin>) returns (run': seq<State>)
    requires a.Valid() && IsRun(Protocol(a), run) && Rested(Last(run)) && TakeItem(Last(run).p, p')
    ensures IsRun(Protocol(a), run') && Rested(Last(run'))
    ensures Last(run').p == p' && Last(run').received == Last(run).received + [Last(run).p.data[0]]
  {
    var s := Last(run);
    var b := s.p.data[0];
    var received := s.received + [b];
    match ScopeOf(b.denom)
    case None =>
      var read := s.(p := p', received := received);
      assert ReceiveBalance(s, read);
      run' := Continue(a, run, read);
    case Some(id) =>
      var read := s.(p := p', received := received, waitGroup := 1, caller := Submitting(id));
      assert ReceiveBalance(s, read);
      run' := Continue(a, run, read);
      var submitted := read.(pending := [id], caller := Selecting);
      assert Submit(a, read, submitted);
      run' := Continue(a, run', submitted);
      if InUsd(a, id) {
        run' := TaskIsAdded(a, run', id);
      } else {
        run' := TaskIsSkipped(a, run', id);
      }
  }

  /** With no task under way the caller comes through wg.Wait and closes the results. */
  lemma {:induction false} StopsReading(a: Account, run: seq<State>, s: State, why: Why) returns (run': seq<State>)
    requires IsRun(Protocol(a), run) && Step(a, Last(run), s)
    requires s.caller == Waiting(why) && s.waitGroup == 0 && !s.resultsClosed
    ensures IsRun(Protocol(a), run')
    ensures Last(run') == s.(resultsClosed := true, caller := AfterClosing(why))
  {
    run' := Continue(a, run, s);
    var closing := s.(caller := Closing(why));
    assert WaitEnds(s, closing);
    run' := Continue(a, run', closing);
    var closed := closing.(resultsClosed := true, caller := AfterClosing(why));
    assert CloseResults(closing, closed);
    run' := Continue(a, run', closed);
  }

  /** The summing goroutine finds the results closed and sends the total. */
  lemma {:induction false} TotalIsSent(a: Account, run: seq<State>) returns (run': seq<State>)
    requires IsRun(Protocol(a), run)
    requires var s := Last(run);
             && s.caller.AwaitingTotal? && s.resultsClosed && s.results == []
             && s.summer.Summing? && s.totalChan == []
    ensures IsRun(Protocol(a), run')
    ensures var s := Last(run);
            Last(run') == s.(summer := ClosingTotal, caller := Returned(Value(s.total)))
  {
    var s := Last(run);
    var summed := s.(summer := SendingTotal);
    assert EndSum(s, summed);
    run' := Continue(a, run, summed);
    var sent := summed.(totalChan := [s.total], summer := ClosingTotal);
    assert SendTotal(summed, sent);
    run' := Continue(a, run', sent);
    var returned := sent.(totalChan := [], caller := Returned(Value(s.total)));
    assert ReceiveTotal(sent, returned);
    run' := Continue(a, run', returned);
  }

  lemma {:induction false} ValueIsReturned(a: Account, run: seq<State>) returns (run': seq<State>)
    requires IsRun(Protocol(a), run) && Rested(Last(run))
    requires Last(run).p.data == [] && Last(run).p.dataClosed
    ensures IsRun(Protocol(a), run')
    ensures Last(run').p == Last(run).p && Last(run').received == Last(run).received
    ensures Last(run').caller == Returned(Value(Last(run).total))
  {
    var drained := Last(run).(caller := Waiting(Drained));
    assert ReceiveClosed(Last(run), drained);
    run' := StopsReading(a, run, drained, Drained);
    run' := TotalIsSent(a, run');
  }

  /** The account follows what the reader of a slice form does. */
  lemma {:induction false} ReaderIsFollowed(a: Account, run: seq<State>, t: S.State<Coin>, t': S.State<Coin>)
    returns (run': seq<State>)
    requires a.Valid() && IsRun(Protocol(a), run) && Follows(Last(run), t)
    requires S.ConsumerStep(t, t')
    ensures IsRun(Protocol(a), run') && Follows(Last(run'), t')
  {
    var s := Last(run);
    if S.ReceiveItem(t, t') {
      run' := BalanceIsRead(a, run, t'.p);
    } else if S.ReceiveClosed(t, t') {
      run' := ValueIsReturned(a, run);
    } else if S.ReceiveError(t, t') {
      var failed := s.(p := t'.p, caller := Waiting(StreamError(Some(s.p.err[0]))));
      assert ReceiveError(s, failed);
      run' := StopsReading(a, run, failed, StreamError(Some(s.p.err[0])));
    } else if S.ReceiveNilError(t, t') {
      run' := run;
    } else {
      assert ReceiveDone(s, s.(caller := Waiting(ContextDone)));
      run' := StopsReading(a, run, s.(caller := Waiting(ContextDone)), ContextDone);
    }
  }

  lemma {:induction false} StreamIsFollowed(a: Account, run: seq<State>, t: S.State<Coin>, t': S.State<Coin>)
    returns (run': seq<State>)
    requires IsRun(Protocol(a), run) && Follows(Last(run), t)
    requires S.ProducerMoves(a.stream, t, t') || S.ContextMoves(a.stream, t, t')
    ensures IsRun(Protocol(a), run') && Follows(Last(run'), t')
  {
    var s := Last(run);
    var moved := s.(p := t'.p);
    assert ProducerMoves(a, s, moved) || ContextMoves(a, s, moved);
    run' := Continue(a, run, moved);
  }

  lemma {:induction false} SliceIsFollowed(a: Account, slice: seq<S.State<Coin>>) returns (run: seq<State>)
    requires a.Valid() && IsRun(S.Protocol(a.stream), slice)
    ensures IsRun(Protocol(a), run) && Follows(Last(run), Last(slice))
  {
    if |slice| == 1 {
      run := [Initial()];
    } else {
      var front := slice[..|slice| - 1];
      var t, t' := Last(front), Last(slice);
      assert S.Protocol(a.stream).step(slice[|slice| - 2], slice[|slice| - 2 + 1]);
      run := SliceIsFollowed(a, front);
      if S.ConsumerStep(t, t') {
        run := ReaderIsFollowed(a, run, t, t');
      } else {
        run := StreamIsFollowed(a, run, t, t');
      }
    }
  }

  // ---------- Main results ----------

  ghost predicate ReturnsValue(a: Account, run: seq<State>) {
    IsRun(Protocol(a), run) && Last(run).caller.Returned? && Last(run).caller.result.Value?
  }

  lemma {:induction false} AnswerIsPossible(a: Account, run: seq<State>)
    requires a.Valid() && IsRun(Protocol(a), run)
    ensures SliceOutcomes.Possible(a.stream, OutOf(Last(run)))
  {
    ControlIsInductive(a);
    InvariantOnRun(Protocol(a), Control(), run);
    forall i | 0 <= i < |run| ensures Controlled(run[i]) {
      assert Control()(run[i]);
    }
    var slice := RunProjects(a, run);
    SliceOutcomes.ExactlyThePossibleOutcomes(a.stream, OutOf(Last(run)));
  }

  lemma {:induction false} AnswerIsReached(a: Account, out: S.Outcome<Coin>) returns (run: seq<State>)
    requires a.Valid() && SliceOutcomes.Possible(a.stream, out)
    ensures IsRun(Protocol(a), run)
    ensures out.Returned? ==> ReturnsValue(a, run) && Last(run).received == out.list
    ensures out.ReturnedError? ==> Last(run).caller == Returned(NoValue(Some(out.error)))
  {
    var slice := SliceOutcomes.SomeRun(a.stream, out);
    run := SliceIsFollowed(a, slice);
    S.Sound(a.stream);
    InvariantOnRun(S.Protocol(a.stream), S.Invariant(a.stream), slice);
  }

  /** When nothing can fail, or nothing is priced, no priced NFT is left unread. */
  lemma {:induction false} NothingMissing(a: Account, read: seq<Coin>)
    requires a.Valid() && SliceOutcomes.Possible(a.stream, S.Returned(read))
    requires a.stream.Reliable() || Priced(a, ScopeIds(a.stream.items)) == []
    ensures Priced(a, ScopeIds(read)) == Priced(a, ScopeIds(a.stream.items))
  {
    if read != a.stream.items {
      var rest := a.stream.items[|read|..];
      assert a.stream.items == read + rest;
      PrefixIsUnpriced(a, read, rest);
    }
  }

  /** A value lists every priced NFT of the account. */
  ghost predicate Covers(a: Account, v: AccountTotal) {
    Lists(a, a.stream.items, v)
  }

  lemma {:induction false} CoversWhenReliable(a: Account, run: seq<State>)
    requires a.Valid() && ReturnsValue(a, run)
    requires a.stream.Reliable() || NothingPriced(a, a.stream.items)
    ensures Covers(a, Last(run).caller.result.value)
  {
    var v := Last(run).caller.result.value;
    AnswerIsPossible(a, run);
    NothingPricedIsEmpty(a, a.stream.items);
    NothingMissing(a, Last(run).received);
    ValueIsExact(a, run, v);
    ExactLists(a, a.stream.items, v);
  }

  lemma {:induction false} CoveringValuesAgree(a: Account, v: AccountTotal, w: AccountTotal)
    requires Covers(a, v) && Covers(a, w)
    ensures multiset(v.nfts) == multiset(w.nfts)
  {
    forall nft ensures multiset(v.nfts)[nft] == multiset(w.nfts)[nft] {
      assert multiset(v.nfts)[nft] == |Pricing(a, a.stream.items, nft)|;
      assert multiset(w.nfts)[nft] == |Pricing(a, a.stream.items, nft)|;
    }
  }

  lemma {:induction false} EmptyMissesSomething(a: Account, v: AccountTotal)
    requires !NothingPriced(a, a.stream.items) && Covers(a, v)
    ensures v.nfts != []
  {
    var i: nat, nft :| i < |a.stream.items| && Prices(a, a.stream.items[i], nft);
    assert i in Pricing(a, a.stream.items, nft);
    assert multiset(v.nfts)[nft] == |Pricing(a, a.stream.items, nft)|;
  }

  /** The balances behind a value are exactly the lists a slice form can return: all of
      them or, once something can fail or be cancelled, a list cut short. */
  lemma {:induction false} ExactlyTheReadableBalances(a: Account, balances: seq<Coin>)
    requires a.Valid()
    ensures (exists run :: ReturnsValue(a, run) && Last(run).received == balances)
            <==> SliceOutcomes.Possible(a.stream, S.Returned(balances))
  {
    if run :| ReturnsValue(a, run) && Last(run).received == balances {
      AnswerIsPossible(a, run);
    }
    if SliceOutcomes.Possible(a.stream, S.Returned(balances)) {
      var run := AnswerIsReached(a, S.Returned(balances));
      assert ReturnsValue(a, run) && Last(run).received == balances;
    }
  }

  /** The errors are exactly those of a slice form; `NoValueAndNoError` is the only other
      answer. */
  lemma {:induction false} ExactlyTheErrors(a: Account, e: Error)
    requires a.Valid()
    ensures (exists run :: IsRun(Protocol(a), run) && Last(run).caller == Returned(NoValue(Some(e))))
            <==> SliceOutcomes.Possible(a.stream, S.ReturnedError(e))
  {
    if run :| IsRun(Protocol(a), run) && Last(run).caller == Returned(NoValue(Some(e))) {
      AnswerIsPossible(a, run);
    }
    if SliceOutcomes.Possible(a.stream, S.ReturnedError(e)) {
      var run := AnswerIsReached(a, S.ReturnedError(e));
    }
  }

  /** With an RPC that can fail or a context that can be cancelled, some schedule reads
      nothing and returns an empty value and a nil error. */
  lemma {:induction false} SilentEmptyValue(a: Account) returns (run: seq<State>)
    requires a.Valid() && !a.stream.Reliable()
    ensures IsRun(Protocol(a), run) && Last(run).received == []
    ensures Last(run).caller == Returned(Value(AccountTotal(Coin("usd", 0), [])))
  {
    assert 0 % a.stream.limit == 0;
    run := AnswerIsReached(a, S.Returned([]));
    ValueIsExact(a, run, Last(run).caller.result.value);
  }

  /** On every schedule a value covers the account, exactly when nothing can fail or be
      cancelled, or the account has nothing that is priced. */
  lemma {:induction false} CoversIffReliable(a: Account)
    requires a.Valid()
    ensures (forall run :: ReturnsValue(a, run) ==> Covers(a, Last(run).caller.result.value))
            <==> a.stream.Reliable() || NothingPriced(a, a.stream.items)
  {
    if a.stream.Reliable() || NothingPriced(a, a.stream.items) {
      forall run | ReturnsValue(a, run) ensures Covers(a, Last(run).caller.result.value) {
        CoversWhenReliable(a, run);
      }
    } else {
      var run := SilentEmptyValue(a);
      assert ReturnsValue(a, run);
      if Covers(a, Last(run).caller.result.value) {
        EmptyMissesSomething(a, Last(run).caller.result.value);
      }
    }
  }

  /** All schedules that return a value agree on it, under exactly the same condition. */
  lemma {:induction false} AgreeIffReliable(a: Account)
    requires a.Valid()
    ensures (forall run1, run2 :: ReturnsValue(a, run1) && ReturnsValue(a, run2) ==>
               multiset(Last(run1).caller.result.value.nfts) == multiset(Last(run2).caller.result.value.nfts))
            <==> a.stream.Reliable() || NothingPriced(a, a.stream.items)
  {
    if a.stream.Reliable() || NothingPriced(a, a.stream.items) {
      CoversIffReliable(a);
      forall run1, run2 | ReturnsValue(a, run1) && ReturnsValue(a, run2)
        ensures multiset(Last(run1).caller.result.value.nfts) == multiset(Last(run2).caller.result.value.nfts)
      {
        CoveringValuesAgree(a, Last(run1).caller.result.value, Last(run2).caller.result.value);
      }
    } else {
      var empty := SilentEmptyValue(a);
      var full := AnswerIsReached(a, S.Returned(a.stream.items));
      ValueIsExact(a, full, Last(full).caller.result.value);
      EmptyMissesSomething(a, Last(full).caller.result.value);
      assert ReturnsValue(a, empty) && ReturnsValue(a, full);
    }
  }
}
