/** GetAccountValue run step by step: a scheduler decides which goroutine or task moves,
    which ready case the select takes and what the balance server answers. Every such
    execution is a run of the protocol, ends if turns that cannot move are passed on, and
    returns a value exact for the balances read or a possible refusal. */
module AccountLoop {
  import opened Options
  import opened PagedStream
  import opened Runs
  import opened AccountPricing
  import opened AccountProtocol
  import opened AccountInvariant
  import opened AccountValue
  import S = SliceForm
  import SliceOutcomes
  import AccountOutcomes
  import SliceLoop

  datatype Turn =
    | CallerTurn(pick: nat)
    | TaskTurn(i: nat)
    | DoneTurn
    | SummerTurn
    | ProducerTurn(size: nat, fail: bool, abandon: bool)
    | CancelTurn

  /** The caller blocks in its select, in Submit, in wg.Wait or on the total. */
  ghost predicate CallerBlocked(a: Account, s: State) {
    match s.caller
    case Selecting => s.p.data == [] && !s.p.dataClosed && !s.p.cancelled && s.p.err == [] && !s.p.errClosed
    case Submitting(_) => |s.pending| + s.exiting >= a.poolSize
    case Waiting(_) => s.waitGroup != 0
    case Closing(_) => false
    case AwaitingTotal => s.totalChan == [] && !s.totalClosed
    case Returned(_) => true
  }

  /** One round of the select: of the ready cases the first from `pick` on. */
  method Select(s: State, pick: nat) returns (s': State)
    requires s.caller.Selecting?
    ensures ReceiveBalance(s, s') || ReceiveClosed(s, s') || ReceiveDone(s, s') || ReceiveError(s, s')
            || ReceiveNilError(s, s')
            || (s' == s && s.p.data == [] && !s.p.dataClosed && !s.p.cancelled && s.p.err == [] && !s.p.errClosed)
  {
    var dataReady := s.p.data != [] || s.p.dataClosed;
    var errReady := s.p.err != [] || s.p.errClosed;
    s' := s;
    if s.p.cancelled && (pick % 3 == 1 || (!dataReady && !errReady)) {
      s' := s.(caller := Waiting(ContextDone));
    } else if errReady && (pick % 3 == 2 || !dataReady) {
      if s.p.err != [] {
        s' := s.(p := s.p.(err := s.p.err[1..]), caller := Waiting(StreamError(Some(s.p.err[0]))));
      } else {
        s' := s.(caller := Waiting(StreamError(None)));
      }
    } else if s.p.data != [] {
      var b := s.p.data[0];
      s' := s.(p := s.p.(data := s.p.data[1..]), received := s.received + [b]);
      match ScopeOf(b.denom) {
        case Some(id) => s' := s'.(waitGroup := s.waitGroup + 1, caller := Submitting(id));
        case None =>
      }
    } else if s.p.dataClosed {
      s' := s.(caller := Waiting(Drained));
    }
  }

  method MoveCaller(a: Account, s: State, pick: nat) returns (s': State)
    requires Controlled(s)
    ensures CallerStep(a, s, s') || (s' == s && CallerBlocked(a, s))
  {
    s' := s;
    match s.caller {
      case Selecting =>
        s' := Select(s, pick);
      case Submitting(id) =>
        if |s.pending| + s.exiting < a.poolSize {
          s' := s.(pending := s.pending + [id], caller := Selecting);
        }
      case Waiting(why) =>
        if s.waitGroup == 0 {
          s' := s.(caller := Closing(why));
        }
      case Closing(why) =>
        s' := s.(resultsClosed := true, caller := AfterClosing(why));
      case AwaitingTotal =>
        if s.totalChan != [] {
          s' := s.(totalChan := s.totalChan[1..], caller := Returned(Value(s.totalChan[0])));
        } else if s.totalClosed {
          s' := s.(caller := Returned(NoValue(None)));
        }
      case Returned(_) =>
    }
  }

  /** The i-th unfinished task prices its NFT, unless the results channel is full. */
  method MoveTask(a: Account, s: State, i: nat) returns (s': State)
    requires Controlled(s)
    ensures WorkerStep(a, s, s') || (s' == s && (s.results != [] || i >= |s.pending|))
  {
    s' := s;
    if i < |s.pending| {
      OpenWhileInFlight(s);
      var nft := AccountFor(a, s.pending[i]);
      if nft.price.denom != "usd" {
        s' := s.(pending := Without(s.pending, i), exiting := s.exiting + 1);
        assert Skip(a, s, s', i);
      } else if s.results == [] {
        s' := s.(results := s.results + [nft], pending := Without(s.pending, i), exiting := s.exiting + 1);
        assert Deliver(a, s, s', i);
      }
    }
  }

  method FinishTask(a: Account, s: State) returns (s': State)
    requires Controlled(s)
    ensures WorkerStep(a, s, s') || (s' == s && s.exiting == 0)
  {
    s' := s;
    if s.exiting > 0 {
      s' := s.(exiting := s.exiting - 1, waitGroup := s.waitGroup - 1);
      assert Done(s, s');
    }
  }

  method MoveSummer(s: State) returns (s': State)
    requires Controlled(s)
    ensures SummerStep(s, s') || (s' == s && (s.summer.Ended? || (s.results == [] && !s.resultsClosed)))
  {
    s' := s;
    match s.summer {
      case Summing =>
        if s.results != [] {
          var nft := s.results[0];
          assert nft.price.denom == "usd";
          var sum := Coin(s.total.total.denom, s.total.total.amount + nft.price.amount);
          s' := s.(results := s.results[1..], total := AccountTotal(sum, s.total.nfts + [nft]));
        } else if s.resultsClosed {
          s' := s.(summer := SendingTotal);
        }
      case SendingTotal =>
        s' := s.(totalChan := s.totalChan + [s.total], summer := ClosingTotal);
      case ClosingTotal =>
        s' := s.(totalClosed := true, summer := Ended);
      case Ended =>
    }
  }

  method MoveProducer(a: Account, s: State, turn: SliceLoop.Turn) returns (s': State)
    requires Streaming(a, s) && turn.Produce?
    ensures s' == s || ProducerMoves(a, s, s')
    ensures s' == s ==>
              s.p.pc == Exited || (s.p.pc == Paging && |s.p.data| == a.stream.limit && !s.p.cancelled)
  {
    ghost var taken := !Inv(a.stream, s.p, s.received, false);
    var p' := SliceLoop.ProducerTurn(a.stream, s.p, turn, s.received, taken);
    s' := s.(p := p');
  }

  method MoveContext(a: Account, s: State) returns (s': State)
    ensures s' == s || ContextMoves(a, s, s')
  {
    s' := s;
    if a.stream.mayCancel && !s.p.cancelled {
      s' := s.(p := s.p.(cancelled := true));
      assert ContextMoves(a, s, s');
    }
  }

  method TakeTurn(a: Account, s: State, turn: Turn) returns (s': State)
    requires Controlled(s) && Streaming(a, s)
    ensures s' == s || Step(a, s, s')
  {
    match turn {
      case CallerTurn(pick) => s' := MoveCaller(a, s, pick);
      case TaskTurn(i) => s' := MoveTask(a, s, i);
      case DoneTurn => s' := FinishTask(a, s);
      case SummerTurn => s' := MoveSummer(s);
      case ProducerTurn(size, fail, abandon) => s' := MoveProducer(a, s, SliceLoop.Produce(size, fail, abandon));
      case CancelTurn => s' := MoveContext(a, s);
    }
  }

  method UnblockTasks(a: Account, s: State) returns (s': State)
    requires Controlled(s)
    ensures WorkerStep(a, s, s') || SummerStep(s, s') || s' == s
    ensures s' == s ==> s.exiting == 0 && (s.results != [] || s.pending == [])
    ensures s' == s ==> s.summer.Ended? || (s.results == [] && !s.resultsClosed)
  {
    s' := FinishTask(a, s);
    if s' == s { s' := MoveSummer(s); }
    if s' == s { s' := MoveTask(a, s, 0); }
  }

  lemma {:induction false} NotAllBlocked(a: Account, s: State)
    requires a.Valid() && Controlled(s) && Streaming(a, s) && !Final()(s)
    requires s.exiting == 0 && (s.results != [] || s.pending == []) && CallerBlocked(a, s)
    requires s.summer.Ended? || (s.results == [] && !s.resultsClosed)
    ensures s.p.pc != Exited && !(s.p.pc == Paging && |s.p.data| == a.stream.limit && !s.p.cancelled)
  {}

  /** Some goroutine or task that can move does. */
  method Unblock(a: Account, s: State) returns (s': State)
    requires a.Valid() && Controlled(s) && Streaming(a, s) && !Final()(s)
    ensures Step(a, s, s')
  {
    s' := UnblockTasks(a, s);
    if s' == s { s' := MoveCaller(a, s, 0); }
    if s' == s { s' := MoveProducer(a, s, SliceLoop.Produce(a.stream.limit, false, true)); }
    if s' == s { NotAllBlocked(a, s); }
  }

  lemma {:induction false} Moved(a: Account, s: State, s': State)
    requires Controlled(s) && Streaming(a, s) && Step(a, s, s')
    ensures Controlled(s') && Streaming(a, s') && Weight(a, s') < Weight(a, s)
  {
    StepKeepsControl(a, s, s');
    StepKeepsStreaming(a, s, s');
    StepLowersWeight(a, s, s');
  }

  /** A result that is exact for the balances read, and possible. */
  ghost predicate Right(a: Account, result: Result, balances: seq<Coin>)
    requires a.Valid()
  {
    match result
    case Value(v) =>
      && Lists(a, balances, v)
      && multiset(v.nfts) == multiset(Priced(a, ScopeIds(balances)))
      && v.total == Coin("usd", Sum(Priced(a, ScopeIds(balances))))
      && SliceOutcomes.Possible(a.stream, S.Returned(balances))
    case NoValue(Some(e)) => SliceOutcomes.Possible(a.stream, S.ReturnedError(e))
    case NoValue(None) => balances <= a.stream.items
  }

  lemma {:induction false} ResultIsRight(a: Account, run: seq<State>)
    requires a.Valid() && IsRun(Protocol(a), run) && Last(run).caller.Returned?
    requires Controlled(Last(run)) && Streaming(a, Last(run))
    ensures Right(a, Last(run).caller.result, Last(run).received)
  {
    AccountOutcomes.AnswerIsPossible(a, run);
    match Last(run).caller.result {
      case Value(v) => ValueIsExact(a, run, v);
      case NoValue(_) =>
    }
  }

  /** The turn asked for or, if it changes nothing, one that can be taken. */
  method Advance(a: Account, s: State, turn: Turn) returns (s': State)
    requires a.Valid() && Controlled(s) && Streaming(a, s) && !Final()(s)
    ensures Step(a, s, s') && Controlled(s') && Streaming(a, s') && Weight(a, s') < Weight(a, s)
  {
    s' := TakeTurn(a, s, turn);
    if s' == s {
      s' := Unblock(a, s);
    }
    Moved(a, s, s');
  }

  /** All the loops under any scheduler. A turn that cannot move is followed by one that can. */
  method ValueOf(a: Account, schedule: nat -> Turn)
    returns (result: Result, balances: seq<Coin>, ghost run: seq<State>)
    requires a.Valid()
    ensures IsRun(Protocol(a), run) && Final()(Last(run))
    ensures Last(run).caller == Returned(result) && Last(run).received == balances
    ensures Right(a, result, balances)
  {
    var s := Initial();
    var turn := 0;
    run := [s];
    StartInv(a.stream);
    while !s.caller.Returned? || !s.summer.Ended? || s.p.pc != Exited || s.pending != [] || s.exiting > 0
      invariant Controlled(s) && Streaming(a, s)
      invariant IsRun(Protocol(a), run) && Last(run) == s
      decreases Weight(a, s)
    {
      var s' := Advance(a, s, schedule(turn));
      run := Extend(Protocol(a), run, s');
      s := s';
      turn := turn + 1;
    }
    ResultIsRight(a, run);
    return s.caller.result, s.received, run;
  }
}
