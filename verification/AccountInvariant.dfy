/** What every step of GetAccountValue's goroutines keeps, in three parts: the control part
    (channels, WaitGroup, control points), the stream part and the ledger of prices; and a
    weight that every step lowers. */
module AccountInvariant {
  import opened Options
  import opened PagedStream
  import opened Runs
  import opened AccountPricing
  import opened AccountProtocol

  // ---------- The invariant ----------

  /** Scope ids whose price has not been delivered or skipped. */
  function InFlight(s: State): seq<string> {
    s.pending + if s.caller.Submitting? then [s.caller.id] else []
  }

  /** Every price of a known scope is in the total, in the channel or in flight. */
  ghost predicate Ledger(
    a: Account, known: seq<string>, added: seq<NFTAccount>, sent: seq<NFTAccount>, flying: seq<string>)
  {
    multiset(Priced(a, known)) == multiset(added) + multiset(sent) + multiset(Priced(a, flying))
  }

  ghost predicate Conserved(a: Account, s: State) {
    && Ledger(a, ScopeIds(s.received), s.total.nfts, s.results, InFlight(s))
    && s.total.total.amount == Sum(s.total.nfts)
  }

  ghost predicate Counted(s: State) {
    && s.waitGroup == |InFlight(s)| + s.exiting
    && |s.results| <= 1
    && (forall nft | nft in s.results :: nft.price.denom == "usd")
    && s.total.total.denom == "usd"
    && !s.panicked
  }

  ghost predicate Disciplined(s: State) {
    && (s.resultsClosed <==> s.caller.AwaitingTotal? || s.caller.Returned?)
    && (s.caller.Closing? || s.resultsClosed ==> s.waitGroup == 0)
    && (!s.summer.Summing? ==> s.resultsClosed && s.results == [])
    && (s.summer.Summing? || s.summer.SendingTotal? ==> s.totalChan == [] && !s.totalClosed)
    && (s.summer.ClosingTotal? || s.summer.Ended? ==>
          s.totalChan == if s.caller.Returned? && s.caller.result.Value? then [] else [s.total])
    && (s.caller.Returned? && s.caller.result.Value? ==>
          s.caller.result.value == s.total && (s.summer.ClosingTotal? || s.summer.Ended?))
  }

  ghost predicate ExplainedBy(a: Account, s: State, why: Why) {
    match why
    case Drained => s.p.data == [] && s.p.dataClosed && Inv(a.stream, s.p, s.received, false)
    case ContextDone => s.p.cancelled
    case StreamError(None) => s.p.errClosed && s.p.err == [] && Inv(a.stream, s.p, s.received, false)
    case StreamError(Some(e)) => Caused(a.stream, s.p, e) && !BeforeClosing(s.p.pc)
  }

  /** Why the caller stopped selecting, and that it left the producer able to end. */
  ghost predicate Explained(a: Account, s: State) {
    match s.caller
    case Selecting => true
    case Submitting(_) => true
    case Waiting(why) => ExplainedBy(a, s, why)
    case Closing(why) => ExplainedBy(a, s, why)
    case AwaitingTotal => ExplainedBy(a, s, Drained)
    case Returned(Value(_)) => ExplainedBy(a, s, Drained)
    case Returned(NoValue(e)) =>
      ExplainedBy(a, s, StreamError(e)) || (e == Some(Cancelled) && ExplainedBy(a, s, ContextDone))
  }

  /** The caller may have taken the error out of the error channel. */
  predicate MayHaveTaken(caller: CallerPc) {
    match caller
    case Waiting(StreamError(Some(_))) => true
    case Closing(StreamError(Some(_))) => true
    case Returned(NoValue(Some(_))) => true
    case _ => false
  }

  ghost predicate Fed(a: Account, s: State) {
    Inv(a.stream, s.p, s.received, false) || (MayHaveTaken(s.caller) && Inv(a.stream, s.p, s.received, true))
  }

  ghost predicate Controlled(s: State) {
    Counted(s) && Disciplined(s)
  }

  ghost predicate Streaming(a: Account, s: State) {
    Fed(a, s) && Explained(a, s)
  }

  function CallerRank(caller: CallerPc): nat {
    match caller
    case Submitting(_) => 9
    case Selecting => 5
    case Waiting(_) => 4
    case Closing(_) => 3
    case AwaitingTotal => 2
    case Returned(_) => 0
  }

  function SummerRank(summer: SummerPc): nat {
    match summer
    case Summing => 3
    case SendingTotal => 2
    case ClosingTotal => 1
    case Ended => 0
  }

  /** Falls with every step. An item of the stream weighs 8, enough for its task. */
  ghost function Weight(a: Account, s: State): nat {
    8 * (if s.p.cursor <= |a.stream.items| then Work(a.stream, s.p) else 0)
    + 3 * |s.pending| + s.exiting + |s.results| + CallerRank(s.caller) + SummerRank(s.summer)
  }

  lemma {:induction false} LedgerOfOneMore(
    a: Account, known: seq<string>, added: seq<NFTAccount>, sent: seq<NFTAccount>, flying: seq<string>, id: string)
    requires Ledger(a, known, added, sent, flying)
    ensures Ledger(a, known + [id], added, sent, flying + [id])
  {}

  lemma {:induction false} LedgerOfDelivery(
    a: Account, known: seq<string>, added: seq<NFTAccount>, sent: seq<NFTAccount>, flying: seq<string>, i: nat)
    requires Ledger(a, known, added, sent, flying) && i < |flying|
    ensures Ledger(a, known, added, sent + PricedOne(a, flying[i]), Without(flying, i))
  {
    PricedWithout(a, flying, i);
  }

  lemma {:induction false} LedgerOfAddition(
    a: Account, known: seq<string>, added: seq<NFTAccount>, sent: seq<NFTAccount>, flying: seq<string>)
    requires Ledger(a, known, added, sent, flying) && sent != []
    ensures Ledger(a, known, added + [sent[0]], sent[1..], flying)
  {
    assert sent == [sent[0]] + sent[1..];
  }

  lemma {:induction false} ReceivingConserves(a: Account, s: State, s': State)
    requires Conserved(a, s) && ReceiveBalance(s, s')
    ensures Conserved(a, s')
  {
    var known := ScopeIds(s.received);
    var scope := ScopeOf(s.p.data[0].denom);
    ScopeIdsOneMore(s.received, s.p.data[0]);
    assert InFlight(s) == s.pending;
    match scope {
      case Some(id) =>
        LedgerOfOneMore(a, known, s.total.nfts, s.results, s.pending, id);
        assert ScopeIds(s'.received) == known + [id] && InFlight(s') == s.pending + [id];
      case None =>
        assert ScopeIds(s'.received) == known && InFlight(s') == s.pending;
    }
  }

  /** The fields the ledger speaks of. */
  ghost predicate SameLedger(s: State, s': State) {
    s'.received == s.received && s'.total == s.total && s'.results == s.results && InFlight(s') == InFlight(s)
  }

  lemma {:induction false} SameLedgerConserves(a: Account, s: State, s': State)
    requires Conserved(a, s) && SameLedger(s, s')
    ensures Conserved(a, s')
  {}

  lemma {:induction false} SubmitLeavesTheLedger(a: Account, s: State, s': State)
    requires Submit(a, s, s')
    ensures SameLedger(s, s')
  {}

  /** The caller leaves its select for good. */
  ghost predicate Stops(s: State, s': State) {
    ReceiveClosed(s, s') || ReceiveDone(s, s') || ReceiveError(s, s') || ReceiveNilError(s, s')
  }

  /** What the caller does after that. */
  ghost predicate WindsUp(s: State, s': State) {
    WaitEnds(s, s') || CloseResults(s, s') || ReceiveTotal(s, s') || ReceiveNoTotal(s, s')
  }

  lemma {:induction false} StoppingLeavesTheLedger(s: State, s': State)
    requires Stops(s, s')
    ensures SameLedger(s, s')
  {}

  lemma {:induction false} WindingUpLeavesTheLedger(s: State, s': State)
    requires WindsUp(s, s')
    ensures SameLedger(s, s')
  {}

  lemma {:induction false} CallerLeavesTheLedger(a: Account, s: State, s': State)
    requires CallerStep(a, s, s') && !ReceiveBalance(s, s')
    ensures SameLedger(s, s')
  {
    if Submit(a, s, s') {
      SubmitLeavesTheLedger(a, s, s');
    } else if Stops(s, s') {
      StoppingLeavesTheLedger(s, s');
    } else {
      WindingUpLeavesTheLedger(s, s');
    }
  }

  lemma {:induction false} OtherStepsLeaveTheLedger(a: Account, s: State, s': State)
    requires SummerStep(s, s') || Done(s, s') || ProducerMoves(a, s, s') || ContextMoves(a, s, s')
    requires !AddResult(s, s')
    ensures SameLedger(s, s')
  {}

  // ---------- Every step keeps the control part ----------

  /** While a task is unfinished the results channel is open. */
  lemma {:induction false} OpenWhileInFlight(s: State)
    requires Controlled(s) && s.pending != []
    ensures !s.resultsClosed && !s.caller.Closing? && s.summer.Summing?
  {}

  lemma {:induction false} SelectingKeepsControl(a: Account, s: State, s': State)
    requires Controlled(s) && CallerStep(a, s, s') && (s.caller.Selecting? || s.caller.Submitting?)
    ensures Controlled(s')
  {}

  lemma {:induction false} LeavingKeepsControl(a: Account, s: State, s': State)
    requires Controlled(s) && CallerStep(a, s, s') && !s.caller.Selecting? && !s.caller.Submitting?
    ensures Controlled(s')
  {}

  lemma {:induction false} CallerKeepsControl(a: Account, s: State, s': State)
    requires Controlled(s) && CallerStep(a, s, s')
    ensures Controlled(s')
  {
    if s.caller.Selecting? || s.caller.Submitting? {
      SelectingKeepsControl(a, s, s');
    } else {
      LeavingKeepsControl(a, s, s');
    }
  }

  lemma {:induction false} TaskKeepsControl(a: Account, s: State, s': State, i: nat)
    requires Controlled(s) && (Deliver(a, s, s', i) || Skip(a, s, s', i))
    ensures Controlled(s')
  {}

  lemma {:induction false} SummerKeepsControl(s: State, s': State)
    requires Controlled(s) && SummerStep(s, s')
    ensures Controlled(s')
  {}

  lemma {:induction false} DoneKeepsControl(s: State, s': State)
    requires Controlled(s) && Done(s, s')
    ensures Controlled(s')
  {}

  lemma {:induction false} StepKeepsControl(a: Account, s: State, s': State)
    requires Controlled(s) && Step(a, s, s')
    ensures Controlled(s')
  {
    if CallerStep(a, s, s') {
      CallerKeepsControl(a, s, s');
    } else if SummerStep(s, s') {
      SummerKeepsControl(s, s');
    } else if Done(s, s') {
      DoneKeepsControl(s, s');
    } else if i: nat :| Deliver(a, s, s', i) {
      TaskKeepsControl(a, s, s', i);
    } else if i: nat :| Skip(a, s, s', i) {
      TaskKeepsControl(a, s, s', i);
    }
  }

  // ---------- Every step keeps the stream part ----------

  lemma {:induction false} ReadingKeepsStreaming(a: Account, s: State, s': State)
    requires Streaming(a, s) && ReceiveBalance(s, s')
    ensures Streaming(a, s')
    ensures s'.p.cursor == s.p.cursor && Work(a.stream, s'.p) < Work(a.stream, s.p)
  {
    TakeItemKeepsInv(a.stream, s.p, s'.p, s.received, false);
  }

  lemma {:induction false} StoppingKeepsStreaming(a: Account, s: State, s': State)
    requires Streaming(a, s) && Stops(s, s')
    ensures Streaming(a, s')
    ensures s'.p.cursor == s.p.cursor && Work(a.stream, s'.p) <= Work(a.stream, s.p)
  {
    if ReceiveError(s, s') {
      assert Inv(a.stream, s'.p, s.received, true);
    }
  }

  lemma {:induction false} OtherwiseKeepsStreaming(a: Account, s: State, s': State)
    requires Controlled(s) && Streaming(a, s) && (Submit(a, s, s') || WindsUp(s, s'))
    ensures Streaming(a, s') && s'.p == s.p
  {}

  lemma {:induction false} CallerKeepsStreaming(a: Account, s: State, s': State)
    requires Controlled(s) && Streaming(a, s) && CallerStep(a, s, s')
    ensures Streaming(a, s')
    ensures s'.p.cursor == s.p.cursor && Work(a.stream, s'.p) <= Work(a.stream, s.p)
    ensures ReceiveBalance(s, s') ==> Work(a.stream, s'.p) < Work(a.stream, s.p)
  {
    if ReceiveBalance(s, s') {
      ReadingKeepsStreaming(a, s, s');
    } else if Stops(s, s') {
      StoppingKeepsStreaming(a, s, s');
    } else {
      OtherwiseKeepsStreaming(a, s, s');
    }
  }

  lemma {:induction false} ProducerKeepsFed(a: Account, s: State, s': State)
    requires Fed(a, s) && ProducerMoves(a, s, s')
    ensures Fed(a, s')
    ensures Inv(a.stream, s.p, s.received, false) ==> Inv(a.stream, s'.p, s'.received, false)
    ensures s'.p.cursor <= |a.stream.items| && Work(a.stream, s'.p) < Work(a.stream, s.p)
  {
    var taken := !Inv(a.stream, s.p, s.received, false);
    ProducerKeepsInv(a.stream, s.p, s'.p, s.received, taken);
    ProducerStepLowersWork(a.stream, s.p, s'.p, s.received, taken);
  }

  /** A reason to stop reading stays true of a producer that goes on. */
  lemma {:induction false} ReasonIsKept(a: Account, s: State, s': State, why: Why)
    requires Fed(a, s) && ExplainedBy(a, s, why)
    requires s.p.pc != Exited && s'.p.cancelled == s.p.cancelled && (s.p.errClosed ==> s'.p.errClosed)
    requires !BeforeClosing(s.p.pc) ==> !BeforeClosing(s'.p.pc) && s'.p.err == s.p.err
    requires Inv(a.stream, s.p, s.received, false) ==> Inv(a.stream, s'.p, s'.received, false)
    ensures ExplainedBy(a, s', why)
  {}

  lemma {:induction false} ProducerKeepsExplanation(a: Account, s: State, s': State)
    requires ProducerMoves(a, s, s') && Fed(a, s) && Explained(a, s)
    requires Inv(a.stream, s.p, s.received, false) ==> Inv(a.stream, s'.p, s'.received, false)
    ensures Explained(a, s')
  {
    ProducerStepIsForward(a.stream, s.p, s'.p);
    match s.caller {
      case Waiting(why) => ReasonIsKept(a, s, s', why);
      case Closing(why) => ReasonIsKept(a, s, s', why);
      case AwaitingTotal => ReasonIsKept(a, s, s', Drained);
      case Returned(Value(_)) => ReasonIsKept(a, s, s', Drained);
      case Returned(NoValue(e)) =>
        if ExplainedBy(a, s, StreamError(e)) {
          ReasonIsKept(a, s, s', StreamError(e));
        } else {
          ReasonIsKept(a, s, s', ContextDone);
        }
      case _ =>
    }
  }

  lemma {:induction false} ProducerKeepsStreaming(a: Account, s: State, s': State)
    requires Streaming(a, s) && ProducerMoves(a, s, s')
    ensures Streaming(a, s')
    ensures s'.p.cursor <= |a.stream.items| && Work(a.stream, s'.p) < Work(a.stream, s.p)
  {
    ProducerKeepsFed(a, s, s');
    ProducerKeepsExplanation(a, s, s');
  }

  lemma {:induction false} ContextKeepsStreaming(a: Account, s: State, s': State)
    requires Streaming(a, s) && ContextMoves(a, s, s')
    ensures Streaming(a, s')
  {}

  lemma {:induction false} WorkersLeaveTheStream(a: Account, s: State, s': State)
    requires WorkerStep(a, s, s')
    ensures s'.p == s.p && s'.received == s.received && s'.caller == s.caller
  {}

  lemma {:induction false} SummerLeavesTheStream(s: State, s': State)
    requires SummerStep(s, s')
    ensures s'.p == s.p && s'.received == s.received && s'.caller == s.caller
  {}

  lemma {:induction false} TasksLeaveTheStream(a: Account, s: State, s': State)
    requires WorkerStep(a, s, s') || SummerStep(s, s')
    ensures s'.p == s.p && s'.received == s.received && s'.caller == s.caller
  {
    if WorkerStep(a, s, s') {
      WorkersLeaveTheStream(a, s, s');
    } else {
      SummerLeavesTheStream(s, s');
    }
  }

  lemma {:induction false} TasksKeepStreaming(a: Account, s: State, s': State)
    requires Streaming(a, s) && s'.p == s.p && s'.received == s.received && s'.caller == s.caller
    ensures Streaming(a, s')
  {}

  lemma {:induction false} StepKeepsStreaming(a: Account, s: State, s': State)
    requires Controlled(s) && Streaming(a, s) && Step(a, s, s')
    ensures Streaming(a, s')
  {
    if CallerStep(a, s, s') {
      CallerKeepsStreaming(a, s, s');
    } else if ProducerMoves(a, s, s') {
      ProducerKeepsStreaming(a, s, s');
    } else if ContextMoves(a, s, s') {
      ContextKeepsStreaming(a, s, s');
    } else {
      TasksLeaveTheStream(a, s, s');
      TasksKeepStreaming(a, s, s');
    }
  }

  // ---------- Every step keeps the ledger ----------

  lemma {:induction false} TaskLeavesFlight(a: Account, s: State, s': State, i: nat)
    requires Controlled(s) && (Deliver(a, s, s', i) || Skip(a, s, s', i))
    ensures i < |InFlight(s)| && InFlight(s') == Without(InFlight(s), i)
    ensures s'.results == s.results + PricedOne(a, InFlight(s)[i])
    ensures s'.received == s.received && s'.total == s.total
  {}

  lemma {:induction false} TaskConserves(a: Account, s: State, s': State, i: nat)
    requires Controlled(s) && Conserved(a, s) && (Deliver(a, s, s', i) || Skip(a, s, s', i))
    ensures Conserved(a, s')
  {
    TaskLeavesFlight(a, s, s', i);
    LedgerOfDelivery(a, ScopeIds(s.received), s.total.nfts, s.results, InFlight(s), i);
  }

  lemma {:induction false} AdditionConserves(a: Account, s: State, s': State)
    requires Controlled(s) && Conserved(a, s) && AddResult(s, s')
    ensures Conserved(a, s')
  {
    LedgerOfAddition(a, ScopeIds(s.received), s.total.nfts, s.results, InFlight(s));
    SumConcat(s.total.nfts, [s.results[0]]);
    assert InFlight(s') == InFlight(s);
  }

  lemma {:induction false} StepKeepsConserved(a: Account, s: State, s': State)
    requires Controlled(s) && Conserved(a, s) && Step(a, s, s')
    ensures Conserved(a, s')
  {
    if ReceiveBalance(s, s') {
      ReceivingConserves(a, s, s');
    } else if AddResult(s, s') {
      AdditionConserves(a, s, s');
    } else if i: nat :| Deliver(a, s, s', i) {
      TaskConserves(a, s, s', i);
    } else if i: nat :| Skip(a, s, s', i) {
      TaskConserves(a, s, s', i);
    } else {
      if CallerStep(a, s, s') {
        CallerLeavesTheLedger(a, s, s');
      } else {
        OtherStepsLeaveTheLedger(a, s, s');
      }
      SameLedgerConserves(a, s, s');
    }
  }

  // ---------- Every step lowers the weight ----------

  lemma {:induction false} ReadingLowersWeight(a: Account, s: State, s': State)
    requires ReceiveBalance(s, s') && s'.p.cursor == s.p.cursor <= |a.stream.items|
    requires Work(a.stream, s'.p) < Work(a.stream, s.p)
    ensures Weight(a, s') < Weight(a, s)
  {}

  lemma {:induction false} SubmittingLowersWeight(a: Account, s: State, s': State)
    requires Submit(a, s, s')
    ensures Weight(a, s') < Weight(a, s)
  {}

  lemma {:induction false} StoppingLowersWeight(a: Account, s: State, s': State)
    requires Stops(s, s') && s'.p.cursor == s.p.cursor <= |a.stream.items|
    requires Work(a.stream, s'.p) <= Work(a.stream, s.p)
    ensures Weight(a, s') < Weight(a, s)
  {}

  lemma {:induction false} WindingUpLowersWeight(a: Account, s: State, s': State)
    requires Controlled(s) && WindsUp(s, s')
    ensures Weight(a, s') < Weight(a, s)
  {}

  lemma {:induction false} CallerLowersWeight(a: Account, s: State, s': State)
    requires Controlled(s) && Streaming(a, s) && CallerStep(a, s, s')
    ensures Weight(a, s') < Weight(a, s)
  {
    CallerKeepsStreaming(a, s, s');
    if ReceiveBalance(s, s') {
      ReadingLowersWeight(a, s, s');
    } else if Submit(a, s, s') {
      SubmittingLowersWeight(a, s, s');
    } else if Stops(s, s') {
      StoppingLowersWeight(a, s, s');
    } else {
      WindingUpLowersWeight(a, s, s');
    }
  }

  lemma {:induction false} WorkerLowersWeight(a: Account, s: State, s': State)
    requires Controlled(s) && WorkerStep(a, s, s')
    ensures Weight(a, s') < Weight(a, s)
  {
    if s.pending != [] {
      OpenWhileInFlight(s);
    }
  }

  lemma {:induction false} SummerLowersWeight(a: Account, s: State, s': State)
    requires Controlled(s) && SummerStep(s, s')
    ensures Weight(a, s') < Weight(a, s)
  {}

  lemma {:induction false} StepLowersWeight(a: Account, s: State, s': State)
    requires Controlled(s) && Streaming(a, s) && Step(a, s, s')
    ensures Weight(a, s') < Weight(a, s)
  {
    if CallerStep(a, s, s') {
      CallerLowersWeight(a, s, s');
    } else if ProducerMoves(a, s, s') {
      ProducerKeepsStreaming(a, s, s');
    } else if WorkerStep(a, s, s') {
      WorkerLowersWeight(a, s, s');
    } else if SummerStep(s, s') {
      SummerLowersWeight(a, s, s');
    }
  }

  // ---------- The invariant of the protocol ----------

  ghost function Control(): State -> bool {
    (s: State) => Controlled(s)
  }

  ghost function Stream(a: Account): State -> bool {
    (s: State) => Streaming(a, s)
  }

  ghost function Books(a: Account): State -> bool {
    (s: State) => Conserved(a, s)
  }

  ghost function Invariant(a: Account): State -> bool {
    And(And(Control(), Stream(a)), Books(a))
  }

  ghost function Measure(a: Account): State -> nat {
    (s: State) => Weight(a, s)
  }

  lemma {:induction false} ControlIsInductive(a: Account)
    ensures Inductive(Protocol(a), Control())
  {
    forall s, s' | Control()(s) && Protocol(a).step(s, s') ensures Control()(s') {
      StepKeepsControl(a, s, s');
    }
  }

  lemma {:induction false} StreamIsInductive(a: Account)
    requires a.Valid()
    ensures InductiveUnder(Protocol(a), Control(), Stream(a))
  {
    StartInv(a.stream);
    forall s, s' | Control()(s) && Stream(a)(s) && Protocol(a).step(s, s') ensures Stream(a)(s') {
      StepKeepsStreaming(a, s, s');
    }
  }

  lemma {:induction false} BooksAreInductive(a: Account)
    ensures InductiveUnder(Protocol(a), Control(), Books(a))
  {
    forall s, s' | Control()(s) && Books(a)(s) && Protocol(a).step(s, s') ensures Books(a)(s') {
      StepKeepsConserved(a, s, s');
    }
  }

  lemma {:induction false} Sound(a: Account)
    requires a.Valid()
    ensures Inductive(Protocol(a), And(Control(), Stream(a))) && Inductive(Protocol(a), Invariant(a))
  {
    ControlIsInductive(a);
    StreamIsInductive(a);
    BooksAreInductive(a);
    InductiveTogether(Protocol(a), Control(), Stream(a), Books(a));
  }

  lemma {:induction false} WeightFalls(a: Account)
    ensures StrictlyDecreasing(Protocol(a), And(Control(), Stream(a)), Measure(a))
  {
    forall s, s' | And(Control(), Stream(a))(s) && Protocol(a).step(s, s') ensures Measure(a)(s') < Measure(a)(s) {
      StepLowersWeight(a, s, s');
    }
  }
}
