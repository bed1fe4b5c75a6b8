/** What is proved of GetAccountValue: it never panics, a value is exact for the balances
    that were read, it always finishes, and it may return no value and no error. Which
    balances those can be is the subject of `AccountOutcomes`. */
module AccountValue {
  import opened Options
  import opened PagedStream
  import opened Runs
  import opened AccountPricing
  import opened AccountProtocol
  import opened AccountInvariant

  // ---------- Progress ----------

  /** The caller has returned and every goroutine and task has ended. */
  ghost function Final(): State -> bool {
    (s: State) => s.caller.Returned? && s.summer.Ended? && s.p.pc == Exited && s.pending == [] && s.exiting == 0
  }

  lemma {:induction false} WorkerCanMove(a: Account, s: State) returns (s': State)
    requires Controlled(s) && (s.exiting > 0 || (s.pending != [] && s.results == []))
    ensures WorkerStep(a, s, s')
  {
    if s.exiting > 0 {
      s' := s.(exiting := s.exiting - 1, waitGroup := s.waitGroup - 1);
      assert Done(s, s');
    } else {
      OpenWhileInFlight(s);
      if InUsd(a, s.pending[0]) {
        s' := s.(results := s.results + [AccountFor(a, s.pending[0])],
                 pending := Without(s.pending, 0), exiting := s.exiting + 1);
        assert Deliver(a, s, s', 0);
      } else {
        s' := s.(pending := Without(s.pending, 0), exiting := s.exiting + 1);
        assert Skip(a, s, s', 0);
      }
    }
  }

  lemma {:induction false} SummerCanMove(s: State) returns (s': State)
    requires Controlled(s) && !s.summer.Ended? && (s.results != [] || s.resultsClosed)
    ensures SummerStep(s, s')
  {
    match s.summer
    case Summing =>
      if s.results != [] {
        var nft := s.results[0];
        assert nft.price.denom == "usd";
        s' := s.(results := s.results[1..],
                 total := AccountTotal(Coin(s.total.total.denom, s.total.total.amount + nft.price.amount),
                                       s.total.nfts + [nft]));
        assert AddResult(s, s');
      } else {
        s' := s.(summer := SendingTotal);
      }
    case SendingTotal =>
      s' := s.(totalChan := s.totalChan + [s.total], summer := ClosingTotal);
    case ClosingTotal =>
      s' := s.(totalClosed := true, summer := Ended);
  }

  /** With all tasks done the caller can move, except that it waits for the stream or the
      total. It reads a closed error channel in preference to anything else. */
  lemma {:induction false} CallerCanMove(a: Account, s: State) returns (s': State)
    requires a.poolSize > 0 && Controlled(s) && s.pending == [] && s.exiting == 0
    requires s.caller.Selecting? ==> s.p.data != [] || s.p.dataClosed || (s.p.err == [] && s.p.errClosed)
    requires s.caller.AwaitingTotal? ==> s.summer.Ended?
    requires !s.caller.Returned?
    ensures CallerStep(a, s, s')
    ensures s.caller.Selecting? && s.p.err == [] && s.p.errClosed ==> s'.caller == Waiting(StreamError(None))
    ensures s.caller.Selecting? && !s.p.errClosed && !s.p.dataClosed ==>
              (s'.caller.Selecting? || s'.caller.Submitting?) && s'.p == s.p.(data := s'.p.data)
    ensures s.caller.Submitting? ==> s'.caller.Selecting? && s'.p == s.p
    ensures s.caller.Waiting? ==> s'.caller == Closing(s.caller.why)
    ensures s.caller == Closing(StreamError(None)) ==> s'.caller == Returned(NoValue(None))
  {
    match s.caller
    case Selecting =>
      if s.p.err == [] && s.p.errClosed {
        s' := s.(caller := Waiting(StreamError(None)));
      } else if s.p.data != [] {
        var p' := s.p.(data := s.p.data[1..]);
        var b := s.p.data[0];
        match ScopeOf(b.denom) {
          case Some(id) =>
            s' := s.(p := p', received := s.received + [b], waitGroup := s.waitGroup + 1, caller := Submitting(id));
          case None =>
            s' := s.(p := p', received := s.received + [b]);
        }
        assert ReceiveBalance(s, s');
      } else {
        s' := s.(caller := Waiting(Drained));
      }
    case Submitting(id) =>
      s' := s.(pending := s.pending + [id], caller := Selecting);
      assert Submit(a, s, s');
    case Waiting(why) =>
      s' := s.(caller := Closing(why));
      assert WaitEnds(s, s');
    case Closing(why) =>
      s' := s.(resultsClosed := true, caller := AfterClosing(why));
      assert CloseResults(s, s');
    case AwaitingTotal =>
      s' := s.(totalChan := s.totalChan[1..], caller := Returned(Value(s.totalChan[0])));
      assert ReceiveTotal(s, s');
  }

  /** The schedules on which the caller, still selecting, will read the closed error
      channel, or has read it. */
  ghost predicate OnTrackToNil(s: State) {
    match s.caller
    case Selecting => Undisturbed(s.p)
    case Submitting(_) => Undisturbed(s.p)
    case Waiting(why) => why == StreamError(None)
    case Closing(why) => why == StreamError(None)
    case AwaitingTotal => false
    case Returned(result) => result == NoValue(None)
  }

  ghost predicate CallerReady(s: State) {
    && !s.caller.Returned?
    && (s.caller.Selecting? ==> s.p.data != [] || s.p.dataClosed || (s.p.err == [] && s.p.errClosed))
  }

  lemma {:induction false} CallerKeepsTrack(a: Account, s: State) returns (s': State)
    requires a.poolSize > 0 && Controlled(s) && Streaming(a, s) && s.pending == [] && s.exiting == 0
    requires CallerReady(s) && (s.caller.AwaitingTotal? ==> s.summer.Ended?)
    ensures CallerStep(a, s, s')
    ensures OnTrackToNil(s) ==> OnTrackToNil(s')
  {
    s' := CallerCanMove(a, s);
  }

  lemma {:induction false} ProducerKeepsTrack(a: Account, s: State) returns (s': State)
    requires Streaming(a, s) && s.p.pc != Exited
    requires s.caller.Returned? || (s.caller.Selecting? && !CallerReady(s))
    ensures ProducerMoves(a, s, s')
    ensures OnTrackToNil(s) ==> OnTrackToNil(s')
  {
    var taken := !Inv(a.stream, s.p, s.received, false);
    var p' := ProducerCanMove(a.stream, s.p, s.received, taken);
    s' := s.(p := p');
  }

  lemma {:induction false} TasksKeepTrack(s: State, s': State)
    requires s'.p == s.p && s'.caller == s.caller && OnTrackToNil(s)
    ensures OnTrackToNil(s')
  {}

  lemma {:induction false} NextStep(a: Account, s: State) returns (s': State)
    requires a.Valid() && Controlled(s) && Streaming(a, s) && !Final()(s)
    ensures UnaidedStep(a, s, s')
    ensures OnTrackToNil(s) ==> OnTrackToNil(s')
  {
    if s.exiting > 0 || (s.pending != [] && s.results == []) || s.results != []
       || (s.resultsClosed && !s.summer.Ended?) {
      if s.exiting > 0 || (s.pending != [] && s.results == []) {
        s' := WorkerCanMove(a, s);
      } else {
        s' := SummerCanMove(s);
      }
      TasksLeaveTheStream(a, s, s');
      if OnTrackToNil(s) {
        TasksKeepTrack(s, s');
      }
    } else if CallerReady(s) {
      s' := CallerKeepsTrack(a, s);
    } else {
      s' := ProducerKeepsTrack(a, s);
    }
  }

  lemma {:induction false} CanMove(a: Account)
    requires a.Valid()
    ensures Inductive(Unaided(a), And(Control(), Stream(a)))
    ensures Live(Unaided(a), And(Control(), Stream(a)), Measure(a), Final())
  {
    Sound(a);
    assert Within(Unaided(a), Protocol(a));
    InductiveWithin(Unaided(a), Protocol(a), And(Control(), Stream(a)));
    forall s | And(Control(), Stream(a))(s) && !Final()(s)
      ensures exists s' :: Unaided(a).step(s, s') && Measure(a)(s') < Measure(a)(s)
    {
      var s' := NextStep(a, s);
      StepLowersWeight(a, s, s');
      assert Unaided(a).step(s, s') && Measure(a)(s') < Measure(a)(s);
    }
  }

  /** The steps that keep to a schedule on which the closed error channel is read. */
  ghost function Tracked(a: Account): System<State> {
    System((s: State) => s == Initial(), (s: State, s': State) => UnaidedStep(a, s, s') && OnTrackToNil(s'))
  }

  ghost function Track(a: Account): State -> bool {
    And(And(Control(), Stream(a)), (s: State) => OnTrackToNil(s))
  }

  lemma {:induction false} TrackIsInductive(a: Account)
    requires a.Valid()
    ensures Within(Tracked(a), Protocol(a))
    ensures Inductive(Tracked(a), And(Control(), Stream(a))) && Inductive(Tracked(a), Track(a))
  {
    Sound(a);
    assert Within(Tracked(a), Protocol(a));
    InductiveWithin(Tracked(a), Protocol(a), And(Control(), Stream(a)));
  }

  lemma {:induction false} CanMoveOnTrack(a: Account)
    requires a.Valid()
    ensures Live(Tracked(a), Track(a), Measure(a), Final())
  {
    forall s | Track(a)(s) && !Final()(s)
      ensures exists s' :: Tracked(a).step(s, s') && Measure(a)(s') < Measure(a)(s)
    {
      var s' := NextStep(a, s);
      StepLowersWeight(a, s, s');
      assert Tracked(a).step(s, s') && Measure(a)(s') < Measure(a)(s);
    }
  }

  // ---------- Main results ----------

  lemma {:induction false} AtTheEnd(a: Account, run: seq<State>)
    requires a.Valid() && IsRun(Protocol(a), run)
    ensures And(Control(), Stream(a))(Last(run)) && Books(a)(Last(run))
  {
    Sound(a);
    InvariantOnRun(Protocol(a), Invariant(a), run);
    assert Invariant(a)(Last(run));
  }

  ghost predicate WithinPool(a: Account, s: State) {
    |s.pending| + s.exiting <= a.poolSize
  }

  lemma {:induction false} CallerStaysWithinPool(a: Account, s: State, s': State)
    requires CallerStep(a, s, s') && WithinPool(a, s)
    ensures WithinPool(a, s')
  {
    if Submit(a, s, s') {
      assert |s'.pending| == |s.pending| + 1;
    } else if !ReceiveBalance(s, s') {
      assert Stops(s, s') || WindsUp(s, s');
    }
  }

  lemma {:induction false} WorkerStaysWithinPool(a: Account, s: State, s': State)
    requires WorkerStep(a, s, s') && WithinPool(a, s)
    ensures WithinPool(a, s')
  {}

  lemma {:induction false} SummerStaysWithinPool(a: Account, s: State, s': State)
    requires SummerStep(s, s') && WithinPool(a, s)
    ensures WithinPool(a, s')
  {}

  lemma {:induction false} StepStaysWithinPool(a: Account, s: State, s': State)
    requires Step(a, s, s') && WithinPool(a, s)
    ensures WithinPool(a, s')
  {
    if CallerStep(a, s, s') {
      CallerStaysWithinPool(a, s, s');
    } else if WorkerStep(a, s, s') {
      WorkerStaysWithinPool(a, s, s');
    } else if SummerStep(s, s') {
      SummerStaysWithinPool(a, s, s');
    }
  }

  /** No interleaving panics: nothing is sent on or closes a closed channel, the WaitGroup
      never goes negative, and every addition is usd to usd. The channels hold one value at
      most, and no more tasks run than the pool takes. */
  lemma {:induction false} NeverPanics(a: Account, run: seq<State>)
    requires a.Valid() && IsRun(Protocol(a), run)
    ensures forall i | 0 <= i < |run| ::
              && !run[i].panicked && |run[i].results| <= 1 && |run[i].totalChan| <= 1
              && |run[i].pending| + run[i].exiting <= a.poolSize
  {
    ControlIsInductive(a);
    var pool := (s: State) => WithinPool(a, s);
    forall s, s' | pool(s) && Protocol(a).step(s, s') ensures pool(s') {
      StepStaysWithinPool(a, s, s');
    }
    InvariantOnRun(Protocol(a), Control(), run);
    InvariantOnRun(Protocol(a), pool, run);
    forall i | 0 <= i < |run|
      ensures !run[i].panicked && |run[i].results| <= 1 && |run[i].totalChan| <= 1 && WithinPool(a, run[i])
    {
      assert Control()(run[i]) && pool(run[i]);
    }
  }

  lemma {:induction false} ReadAll(a: Account, s: State, v: AccountTotal)
    requires Streaming(a, s) && s.caller == Returned(Value(v))
    ensures s.received <= a.stream.items
    ensures s.received == a.stream.items <==> s.p.err == [] || a.stream.items == []
  {}

  /** When the value is returned every price has been added. */
  lemma {:induction false} NothingInFlight(a: Account, s: State, v: AccountTotal)
    requires Controlled(s) && Conserved(a, s) && s.caller == Returned(Value(v))
    ensures multiset(v.nfts) == multiset(Priced(a, ScopeIds(s.received)))
    ensures v.total == Coin("usd", Sum(v.nfts))
  {}

  lemma {:induction false} ExactAtTheEnd(a: Account, s: State, v: AccountTotal)
    requires Controlled(s) && Streaming(a, s) && Conserved(a, s) && s.caller == Returned(Value(v))
    ensures var expected := Priced(a, ScopeIds(s.received));
            && multiset(v.nfts) == multiset(expected)
            && v.total == Coin("usd", Sum(expected))
            && Lists(a, s.received, v)
            && s.received <= a.stream.items
            && (s.received == a.stream.items <==> s.p.err == [] || a.stream.items == [])
  {
    NothingInFlight(a, s, v);
    SumOfPermutation(v.nfts, Priced(a, ScopeIds(s.received)));
    ExactLists(a, s.received, v);
    ReadAll(a, s, v);
  }

  /** A returned value is exact whatever the schedule: it lists each priced NFT of the
      balances read, and nothing else, and its total is the sum of their prices. The
      balances read are all of them unless the stream's error was left unread. */
  lemma {:induction false} ValueIsExact(a: Account, run: seq<State>, v: AccountTotal)
    requires a.Valid() && IsRun(Protocol(a), run) && Last(run).caller == Returned(Value(v))
    ensures var s := Last(run);
            var expected := Priced(a, ScopeIds(s.received));
            && multiset(v.nfts) == multiset(expected)
            && v.total == Coin("usd", Sum(expected))
            && Lists(a, s.received, v)
            && s.received <= a.stream.items
            && (s.received == a.stream.items <==> s.p.err == [] || a.stream.items == [])
  {
    AtTheEnd(a, run);
    ExactAtTheEnd(a, Last(run), v);
  }

  /** Two schedules that read the same balances agree, whatever the order in which the
      tasks ran: the order can show only in the order of the list. */
  lemma {:induction false} Confluence(
    a: Account, run1: seq<State>, v1: AccountTotal, run2: seq<State>, v2: AccountTotal)
    requires a.Valid() && IsRun(Protocol(a), run1) && IsRun(Protocol(a), run2)
    requires Last(run1).caller == Returned(Value(v1)) && Last(run2).caller == Returned(Value(v2))
    requires Last(run1).received == Last(run2).received
    ensures v1.total == v2.total && multiset(v1.nfts) == multiset(v2.nfts)
  {
    ValueIsExact(a, run1, v1);
    ValueIsExact(a, run2, v2);
  }

  lemma {:induction false} ExplainedAtTheEnd(a: Account, s: State, error: Option<Error>)
    requires Streaming(a, s) && s.caller == Returned(NoValue(error))
    ensures match error
            case Some(e) => Caused(a.stream, s.p, e)
            case None => s.p.errClosed && AllSent(a.stream, s.p)
  {}

  /** No value means a cancelled context, an error of the stream, or, with no error at
      all, the closed error channel of a stream that has sent everything. */
  lemma {:induction false} NoValueIsExplained(a: Account, run: seq<State>, error: Option<Error>)
    requires a.Valid() && IsRun(Protocol(a), run) && Last(run).caller == Returned(NoValue(error))
    ensures var p := Last(run).p;
            match error
            case Some(e) => Caused(a.stream, p, e)
            case None => p.errClosed && AllSent(a.stream, p)
  {
    AtTheEnd(a, run);
    ExplainedAtTheEnd(a, Last(run), error);
  }

  lemma {:induction false} EndOfTrack(a: Account, s: State)
    requires Track(a)(s) && Final()(s)
    ensures s.caller == Returned(NoValue(None))
  {}

  /** Whatever the account, some schedule returns no value and no error: the select reads
      the closed error channel before it has drained the data channel. */
  lemma {:induction false} NoValueAndNoError(a: Account) returns (run: seq<State>)
    requires a.Valid()
    ensures IsRun(Protocol(a), run) && Last(run).caller == Returned(NoValue(None))
  {
    TrackIsInductive(a);
    CanMoveOnTrack(a);
    assert Track(a)(Initial()) by {
      assert Tracked(a).init(Initial());
    }
    run := ReachesFinal(Tracked(a), Track(a), Measure(a), Final(), Initial());
    InvariantOnPath(Tracked(a), Track(a), run);
    PathWithin(Tracked(a), Protocol(a), run);
    EndOfTrack(a, Last(run));
  }

  /** Every run is finite: at most 32 steps for each balance and 105 more. */
  lemma {:induction false} RunsAreBounded(a: Account, run: seq<State>)
    requires a.Valid() && IsRun(Protocol(a), run)
    ensures |run| - 1 <= 32 * |a.stream.items| + 105
  {
    Sound(a);
    WeightFalls(a);
    LengthBounded(Protocol(a), And(Control(), Stream(a)), Measure(a), run);
  }

  /** No deadlock and no leak: from every reachable state the caller, the producer, the
      summing goroutine and all tasks can finish without outside help. */
  lemma {:induction false} AlwaysFinishes(a: Account, run: seq<State>) returns (path: seq<State>)
    requires a.Valid() && IsRun(Protocol(a), run)
    ensures IsPath(Unaided(a), path) && path[0] == Last(run) && Final()(Last(path))
  {
    AtTheEnd(a, run);
    CanMove(a);
    path := ReachesFinal(Unaided(a), And(Control(), Stream(a)), Measure(a), Final(), Last(run));
  }
}
