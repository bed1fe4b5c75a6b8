/** GetAccountValue: the caller reads a balance stream and submits one pool task per NFT
    balance, each task prices its NFT and sends the price on a one-slot channel, and a
    summing goroutine adds the prices up. A WaitGroup counts the unfinished tasks. Runs in
    which a task panics are left out, so every scope id is known to `navs` or has no NAV. */
module AccountProtocol {
  import opened Options
  import opened PagedStream
  import opened Runs
  import opened AccountPricing

  datatype Why = Drained | ContextDone | StreamError(error: Option<Error>)

  /** What GetAccountValue returns: a value and no error, or no value and perhaps an error. */
  datatype Result = Value(value: AccountTotal) | NoValue(error: Option<Error>)

  datatype CallerPc =
    | Selecting
    | Submitting(id: string)   // wg.Add(1) done, in Pool.Submit
    | Waiting(why: Why)        // in wg.Wait()
    | Closing(why: Why)        // about to close the results channel
    | AwaitingTotal
    | Returned(result: Result)

  datatype SummerPc = Summing | SendingTotal | ClosingTotal | Ended

  /** `pending` are the submitted tasks that have not delivered or skipped their price,
      `exiting` counts those that have and still owe wg.Done(). */
  datatype State = State(
    p: Producer<Coin>,
    received: seq<Coin>,
    caller: CallerPc,
    waitGroup: int,
    pending: seq<string>,
    exiting: nat,
    results: seq<NFTAccount>,
    resultsClosed: bool,
    summer: SummerPc,
    total: AccountTotal,
    totalChan: seq<AccountTotal>,
    totalClosed: bool,
    panicked: bool)

  function Initial(): State {
    State(Start(), [], Selecting, 0, [], 0, [], false, Summing, AccountTotal(Coin("usd", 0), []), [], false, false)
  }

  ghost predicate ReceiveBalance(s: State, s': State) {
    && s.caller.Selecting?
    && TakeItem(s.p, s'.p)
    && var b := s.p.data[0];
    && s' == match ScopeOf(b.denom)
             case Some(id) =>
               s.(p := s'.p, received := s.received + [b], waitGroup := s.waitGroup + 1, caller := Submitting(id))
             case None => s.(p := s'.p, received := s.received + [b])
  }

  ghost predicate Submit(a: Account, s: State, s': State) {
    && s.caller.Submitting?
    && |s.pending| + s.exiting < a.poolSize
    && s' == s.(pending := s.pending + [s.caller.id], caller := Selecting)
  }

  ghost predicate ReceiveClosed(s: State, s': State) {
    && s.caller.Selecting?
    && s.p.data == [] && s.p.dataClosed
    && s' == s.(caller := Waiting(Drained))
  }

  ghost predicate ReceiveDone(s: State, s': State) {
    s.caller.Selecting? && s.p.cancelled && s' == s.(caller := Waiting(ContextDone))
  }

  ghost predicate ReceiveError(s: State, s': State) {
    && s.caller.Selecting?
    && TakeError(s.p, s'.p)
    && s' == s.(p := s'.p, caller := Waiting(StreamError(Some(s.p.err[0]))))
  }

  /** Unlike the slice forms, the value of a closed error channel is not tested for nil. */
  ghost predicate ReceiveNilError(s: State, s': State) {
    && s.caller.Selecting?
    && s.p.err == [] && s.p.errClosed
    && s' == s.(caller := Waiting(StreamError(None)))
  }

  ghost predicate WaitEnds(s: State, s': State) {
    s.caller.Waiting? && s.waitGroup == 0 && s' == s.(caller := Closing(s.caller.why))
  }

  function AfterClosing(why: Why): CallerPc {
    match why
    case Drained => AwaitingTotal
    case ContextDone => Returned(NoValue(Some(Cancelled)))
    case StreamError(e) => Returned(NoValue(e))
  }

  /** Closing a closed channel panics. */
  ghost predicate CloseResults(s: State, s': State) {
    && s.caller.Closing?
    && s' == if s.resultsClosed then s.(panicked := true)
             else s.(resultsClosed := true, caller := AfterClosing(s.caller.why))
  }

  ghost predicate ReceiveTotal(s: State, s': State) {
    && s.caller.AwaitingTotal?
    && s.totalChan != []
    && s' == s.(totalChan := s.totalChan[1..], caller := Returned(Value(s.totalChan[0])))
  }

  ghost predicate ReceiveNoTotal(s: State, s': State) {
    && s.caller.AwaitingTotal?
    && s.totalChan == [] && s.totalClosed
    && s' == s.(caller := Returned(NoValue(None)))
  }

  ghost predicate CallerStep(a: Account, s: State, s': State) {
    || ReceiveBalance(s, s')
    || Submit(a, s, s')
    || ReceiveClosed(s, s')
    || ReceiveDone(s, s')
    || ReceiveError(s, s')
    || ReceiveNilError(s, s')
    || WaitEnds(s, s')
    || CloseResults(s, s')
    || ReceiveTotal(s, s')
    || ReceiveNoTotal(s, s')
  }

  /** A task sends its usd price; a send on a closed channel panics. */
  ghost predicate Deliver(a: Account, s: State, s': State, i: nat) {
    && i < |s.pending|
    && InUsd(a, s.pending[i])
    && if s.resultsClosed then s' == s.(panicked := true)
       else |s.results| < 1
            && s' == s.(results := s.results + [AccountFor(a, s.pending[i])],
                        pending := Without(s.pending, i), exiting := s.exiting + 1)
  }

  ghost predicate Skip(a: Account, s: State, s': State, i: nat) {
    && i < |s.pending|
    && !InUsd(a, s.pending[i])
    && s' == s.(pending := Without(s.pending, i), exiting := s.exiting + 1)
  }

  /** wg.Done(); a negative counter panics. */
  ghost predicate Done(s: State, s': State) {
    && s.exiting > 0
    && s' == s.(exiting := s.exiting - 1, waitGroup := s.waitGroup - 1, panicked := s.panicked || s.waitGroup < 1)
  }

  ghost predicate WorkerStep(a: Account, s: State, s': State) {
    || (exists i: nat :: Deliver(a, s, s', i))
    || (exists i: nat :: Skip(a, s, s', i))
    || Done(s, s')
  }

  /** Coin.Add panics on different denoms. */
  ghost predicate AddResult(s: State, s': State) {
    && s.summer.Summing?
    && s.results != []
    && var nft := s.results[0];
    && s' == if nft.price.denom != s.total.total.denom then s.(panicked := true)
             else s.(results := s.results[1..],
                     total := AccountTotal(Coin(s.total.total.denom, s.total.total.amount + nft.price.amount),
                                           s.total.nfts + [nft]))
  }

  ghost predicate EndSum(s: State, s': State) {
    s.summer.Summing? && s.results == [] && s.resultsClosed && s' == s.(summer := SendingTotal)
  }

  ghost predicate SendTotal(s: State, s': State) {
    && s.summer.SendingTotal?
    && |s.totalChan| < 1
    && s' == s.(totalChan := s.totalChan + [s.total], summer := ClosingTotal)
  }

  ghost predicate CloseTotal(s: State, s': State) {
    s.summer.ClosingTotal? && s' == s.(totalClosed := true, summer := Ended)
  }

  ghost predicate SummerStep(s: State, s': State) {
    AddResult(s, s') || EndSum(s, s') || SendTotal(s, s') || CloseTotal(s, s')
  }

  ghost predicate ProducerMoves(a: Account, s: State, s': State) {
    ProducerStep(a.stream, s.p, s'.p) && s' == s.(p := s'.p)
  }

  ghost predicate ContextMoves(a: Account, s: State, s': State) {
    CancelContext(a.stream, s.p, s'.p) && s' == s.(p := s'.p)
  }

  /** The steps of the goroutines, without the outside event of a cancellation. */
  ghost predicate UnaidedStep(a: Account, s: State, s': State) {
    CallerStep(a, s, s') || WorkerStep(a, s, s') || SummerStep(s, s') || ProducerMoves(a, s, s')
  }

  ghost predicate Step(a: Account, s: State, s': State) {
    UnaidedStep(a, s, s') || ContextMoves(a, s, s')
  }

  ghost function Protocol(a: Account): System<State> {
    System((s: State) => s == Initial(), (s: State, s': State) => Step(a, s, s'))
  }

  ghost function Unaided(a: Account): System<State> {
    System((s: State) => s == Initial(), (s: State, s': State) => UnaidedStep(a, s, s'))
  }
}
