/** The slice-returning forms (GetBalances, GetAttributes, GetAttributedAccounts,
    GetStakingValidators, GetDelegationsByDelegator): one consumer goroutine that selects
    over the context, the data channel and the error channel of a paged stream. */
module SliceForm {
  import opened PagedStream
  import opened Runs

  datatype Outcome<T> = Selecting | Returned(list: seq<T>) | ReturnedError(error: Error)

  datatype State<T> = State(p: Producer<T>, received: seq<T>, out: Outcome<T>)

  ghost predicate ReceiveItem<T(!new)>(s: State<T>, s': State<T>) {
    && s.out.Selecting?
    && TakeItem(s.p, s'.p)
    && s' == s.(p := s'.p, received := s.received + [s.p.data[0]])
  }

  /** A receive reports `!ok` once the channel is closed and drained. */
  ghost predicate ReceiveClosed<T(!new)>(s: State<T>, s': State<T>) {
    && s.out.Selecting?
    && s.p.data == [] && s.p.dataClosed
    && s' == s.(out := Returned(s.received))
  }

  ghost predicate ReceiveError<T(!new)>(s: State<T>, s': State<T>) {
    && s.out.Selecting?
    && TakeError(s.p, s'.p)
    && s' == s.(p := s'.p, out := ReturnedError(s.p.err[0]))
  }

  /** A closed and drained error channel yields nil, and the loop goes round. */
  ghost predicate ReceiveNilError<T(!new)>(s: State<T>, s': State<T>) {
    && s.out.Selecting?
    && s.p.err == [] && s.p.errClosed
    && s' == s
  }

  ghost predicate ReceiveDone<T(!new)>(s: State<T>, s': State<T>) {
    && s.out.Selecting?
    && s.p.cancelled
    && s' == s.(out := ReturnedError(Cancelled))
  }

  ghost predicate ConsumerStep<T(!new)>(s: State<T>, s': State<T>) {
    || ReceiveItem(s, s')
    || ReceiveClosed(s, s')
    || ReceiveError(s, s')
    || ReceiveNilError(s, s')
    || ReceiveDone(s, s')
  }

  ghost predicate ProducerMoves<T(!new)>(c: Config<T>, s: State<T>, s': State<T>) {
    ProducerStep(c, s.p, s'.p) && s' == s.(p := s'.p)
  }

  ghost predicate ContextMoves<T(!new)>(c: Config<T>, s: State<T>, s': State<T>) {
    CancelContext(c, s.p, s'.p) && s' == s.(p := s'.p)
  }

  /** The steps of the two goroutines, without the outside event of a cancellation. */
  ghost predicate UnaidedStep<T(!new)>(c: Config<T>, s: State<T>, s': State<T>) {
    ConsumerStep(s, s') || ProducerMoves(c, s, s')
  }

  ghost predicate Step<T(!new)>(c: Config<T>, s: State<T>, s': State<T>) {
    UnaidedStep(c, s, s') || ContextMoves(c, s, s')
  }

  function Initial<T>(): State<T> {
    State(Start(), [], Selecting)
  }

  ghost function Protocol<T(!new)>(c: Config<T>): System<State<T>> {
    System((s: State<T>) => s == Initial(), (s: State<T>, s': State<T>) => Step(c, s, s'))
  }

  ghost function Unaided<T(!new)>(c: Config<T>): System<State<T>> {
    System((s: State<T>) => s == Initial(), (s: State<T>, s': State<T>) => UnaidedStep(c, s, s'))
  }

  // ---------- Invariant and measure ----------

  ghost predicate Safe<T(!new)>(c: Config<T>, s: State<T>) {
    && (Inv(c, s.p, s.received, false) || (s.out.ReturnedError? && Inv(c, s.p, s.received, true)))
    && match s.out
       case Selecting => true
       case Returned(list) => list == s.received && s.p.data == [] && s.p.dataClosed
       case ReturnedError(e) => Caused(c, s.p, e) && (s.p.cancelled || !BeforeClosing(s.p.pc))
  }

  ghost function Invariant<T(!new)>(c: Config<T>): State<T> -> bool {
    (s: State<T>) => Safe(c, s)
  }

  ghost function Measure<T(!new)>(c: Config<T>): State<T> -> nat {
    (s: State<T>) => (if s.p.cursor <= |c.items| then Work(c, s.p) else 0) + if s.out.Selecting? then 1 else 0
  }

  /** The caller has its answer and the producer goroutine has ended. */
  ghost function Final<T(!new)>(): State<T> -> bool {
    (s: State<T>) => !s.out.Selecting? && s.p.pc == Exited
  }

  /** What the outcome says of the producer stays true of one that goes on. */
  lemma {:induction false} OutcomeIsKept<T(!new)>(c: Config<T>, s: State<T>, s': State<T>)
    requires ProducerMoves(c, s, s') && Safe(c, s)
    ensures match s.out
            case Selecting => true
            case Returned(_) => false
            case ReturnedError(e) => Caused(c, s'.p, e) && (s'.p.cancelled || !BeforeClosing(s'.p.pc))
  {
    ProducerStepIsForward(c, s.p, s'.p);
  }

  lemma {:induction false} ProducerMovesSafely<T(!new)>(c: Config<T>, s: State<T>, s': State<T>)
    requires Safe(c, s) && ProducerMoves(c, s, s')
    ensures Safe(c, s') && Measure(c)(s') < Measure(c)(s)
  {
    var taken := !Inv(c, s.p, s.received, false);
    ProducerKeepsInv(c, s.p, s'.p, s.received, taken);
    ProducerStepLowersWork(c, s.p, s'.p, s.received, taken);
    OutcomeIsKept(c, s, s');
  }

  lemma {:induction false} ReceivesSafely<T(!new)>(c: Config<T>, s: State<T>, s': State<T>)
    requires Safe(c, s) && ConsumerStep(s, s')
    ensures Safe(c, s') && (s != s' ==> Measure(c)(s') < Measure(c)(s))
  {
    if ReceiveItem(s, s') {
      TakeItemKeepsInv(c, s.p, s'.p, s.received, false);
    } else if ReceiveError(s, s') {
      assert Inv(c, s'.p, s.received, true);
    }
  }

  lemma {:induction false} StepKeepsSafe<T(!new)>(c: Config<T>, s: State<T>, s': State<T>)
    requires Safe(c, s) && Step(c, s, s')
    ensures Safe(c, s')
    ensures s != s' ==> Measure(c)(s') < Measure(c)(s)
  {
    if ProducerMoves(c, s, s') {
      ProducerMovesSafely(c, s, s');
    } else if ConsumerStep(s, s') {
      ReceivesSafely(c, s, s');
    }
  }

  lemma {:induction false} Sound<T(!new)>(c: Config<T>)
    requires c.Valid()
    ensures Inductive(Protocol(c), Invariant(c)) && Inductive(Unaided(c), Invariant(c))
    ensures Decreasing(Protocol(c), Invariant(c), Measure(c))
  {
    StartInv(c);
    forall s, s' | Invariant(c)(s) && Protocol(c).step(s, s')
      ensures Invariant(c)(s') && (s != s' ==> Measure(c)(s') < Measure(c)(s))
    {
      StepKeepsSafe(c, s, s');
    }
    assert forall s, s' :: Unaided(c).step(s, s') ==> Protocol(c).step(s, s');
  }

  lemma {:induction false} NextStep<T(!new)>(c: Config<T>, s: State<T>) returns (s': State<T>)
    requires Safe(c, s) && !Final<T>()(s)
    ensures Unaided(c).step(s, s') && Measure(c)(s') < Measure(c)(s)
  {
    if s.out.Selecting? && s.p.data != [] {
      s' := s.(p := s.p.(data := s.p.data[1..]), received := s.received + [s.p.data[0]]);
      assert ReceiveItem(s, s');
    } else if s.out.Selecting? && s.p.dataClosed {
      s' := s.(out := Returned(s.received));
      assert ReceiveClosed(s, s');
    } else {
      var taken := !Inv(c, s.p, s.received, false);
      var p' := ProducerCanMove(c, s.p, s.received, taken);
      s' := s.(p := p');
      assert ProducerMoves(c, s, s');
    }
    StepKeepsSafe(c, s, s');
  }

  // ---------- Main results ----------

  /** Stream refinement, in every reachable state. A returned list is a prefix of the
      server's list, an error is one that happened, and at most two pages are in flight. */
  lemma {:induction false} EveryStateAccounted<T(!new)>(c: Config<T>, run: seq<State<T>>)
    requires c.Valid() && IsRun(Protocol(c), run)
    ensures var s := Last(run);
            && s.p.cursor <= |c.items|
            && s.received + (s.p.data + s.p.page) + c.items[s.p.cursor..] == c.items
            && |s.p.data| + |s.p.page| <= 2 * c.limit
            && |s.p.data| <= c.limit && |s.p.err| <= 1 && (s.p.dataClosed ==> s.p.errClosed)
            && (s.out.Returned? ==> s.out.list <= c.items)
            && (s.out.ReturnedError? ==> Caused(c, s.p, s.out.error))
  {
    Sound(c);
    InvariantOnRun(Protocol(c), Invariant(c), run);
  }

  /** A list returned with a nil error is the whole list exactly when no error is left
      unread in the error channel (or there was nothing to list). */
  lemma {:induction false} CompleteExactlyWhenNoErrorUnread<T(!new)>(c: Config<T>, run: seq<State<T>>)
    requires c.Valid() && IsRun(Protocol(c), run) && Last(run).out.Returned?
    ensures Last(run).out.list == c.items <==> Last(run).p.err == [] || c.items == []
  {
    Sound(c);
    InvariantOnRun(Protocol(c), Invariant(c), run);
    DrainedIsComplete(c, Last(run).p, Last(run).received);
  }

  /** After a failure both channels are closed, and the select may find the data channel
      closed before it reads the error. */
  lemma {:induction false} FailureUnread<T(!new)>(c: Config<T>, s: State<T>) returns (path: seq<State<T>>)
    requires s.out.Selecting? && s.p.data == [] && s.p.err == [] && s.p.pc.Reporting?
    ensures IsPath(Protocol(c), path) && path[0] == s && Last(path).out == Returned(s.received)
  {
    var s1 := s.(p := s.p.(pc := ClosingErr, err := [s.p.pc.error]));
    var s2 := s1.(p := s1.p.(pc := ClosingData, errClosed := true));
    var s3 := s2.(p := s2.p.(pc := Exited, dataClosed := true));
    var s4 := s3.(out := Returned(s.received));
    assert Report(s.p, s1.p) && CloseErr(s1.p, s2.p) && CloseData(s2.p, s3.p) && ReceiveClosed(s3, s4);
    path := [s, s1, s2, s3, s4];
  }

  /** With an RPC that can fail or a context that can be cancelled, some schedule returns
      an empty list and a nil error. */
  lemma {:induction false} SilentTruncation<T(!new)>(c: Config<T>) returns (run: seq<State<T>>)
    requires c.Valid() && !c.Reliable()
    ensures IsRun(Protocol(c), run) && Last(run).out == Returned([])
  {
    var s0: State<T> := Initial();
    var s1 := if c.mayFail then s0 else s0.(p := s0.p.(cancelled := true));
    var s2 := s1.(p := s1.p.(pc := Failed(Rpc(0)), requests := 1));
    var s3 := s2.(p := s2.p.(pc := Reporting(if c.mayFail then Rpc(0) else Cancelled)));
    assert s1 == s0 || ContextMoves(c, s0, s1);
    assert FetchFails(c, s1.p, s2.p) && ConsultContext(s2.p, s3.p);
    var rest := FailureUnread(c, s3);
    var front := if c.mayFail then [s0, s2] else [s0, s1, s2];
    assert IsPath(Protocol(c), front);
    PathsJoin(Protocol(c), front, rest);
    run := front + rest;
  }

  /** The documented promise, an error or the whole list, is kept on every schedule
      exactly when nothing can go wrong or there is nothing to list. */
  lemma {:induction false} AlwaysCompleteIffReliable<T(!new)>(c: Config<T>)
    requires c.Valid()
    ensures (forall run :: IsRun(Protocol(c), run) && Last(run).out.Returned? ==> Last(run).out.list == c.items)
            <==> c.Reliable() || c.items == []
  {
    Sound(c);
    if c.Reliable() || c.items == [] {
      forall run | IsRun(Protocol(c), run) && Last(run).out.Returned?
        ensures Last(run).out.list == c.items
      {
        InvariantOnRun(Protocol(c), Invariant(c), run);
        CompleteExactlyWhenNoErrorUnread(c, run);
      }
    } else {
      var run := SilentTruncation(c);
      assert Last(run).out.list != c.items;
    }
  }

  /** Every run changes state at most 4n + 12 times; all else is re-reading the closed
      error channel. */
  lemma {:induction false} RunsAreBounded<T(!new)>(c: Config<T>, run: seq<State<T>>)
    requires c.Valid() && IsRun(Protocol(c), run)
    ensures Changes(run) <= 4 * |c.items| + 12
  {
    Sound(c);
    ChangesBounded(Protocol(c), Invariant(c), Measure(c), run);
  }

  /** No deadlock and no leaked producer: whatever has happened, the two goroutines can
      finish without outside help, the producer also after the caller has returned. */
  lemma {:induction false} AlwaysFinishes<T(!new)>(c: Config<T>, run: seq<State<T>>) returns (path: seq<State<T>>)
    requires c.Valid() && IsRun(Protocol(c), run)
    ensures IsPath(Unaided(c), path) && path[0] == Last(run) && Final<T>()(Last(path))
  {
    Sound(c);
    InvariantOnRun(Protocol(c), Invariant(c), run);
    forall s | Invariant(c)(s) && !Final<T>()(s)
      ensures exists s' :: Unaided(c).step(s, s') && Measure(c)(s') < Measure(c)(s)
    {
      var s' := NextStep(c, s);
    }
    path := ReachesFinal(Unaided(c), Invariant(c), Measure(c), Final<T>(), Last(run));
  }

  // ---------- Cost ----------

  ghost predicate Budgeted<T(!new)>(c: Config<T>, s: State<T>)
    requires c.Valid()
  {
    s.out.ReturnedError? || (s.p.cursor <= |c.items| && OnBudget(c, s.p, false))
  }

  ghost function Budget<T(!new)>(c: Config<T>): State<T> -> bool {
    (s: State<T>) => Safe(c, s) && Budgeted(c, s)
  }

  lemma {:induction false} ReceivesOnBudget<T(!new)>(c: Config<T>, s: State<T>, s': State<T>)
    requires c.Valid() && Budgeted(c, s)
    requires ConsumerStep(s, s') || ContextMoves(c, s, s')
    ensures Budgeted(c, s')
  {}

  lemma {:induction false} StepKeepsBudget<T(!new)>(c: Config<T>, s: State<T>, s': State<T>)
    requires Safe(c, s) && Budgeted(c, s) && Step(c, s, s')
    ensures Budgeted(c, s')
  {
    if !ProducerMoves(c, s, s') {
      ReceivesOnBudget(c, s, s');
    } else if !s.out.ReturnedError? {
      ProducerKeepsBudget(c, s.p, s'.p, s.received, false);
    }
  }

  /** Against a server that fills its pages, a complete list costs the fewest requests
      that can carry it: one for an empty list, else n / limit rounded up. */
  lemma {:induction false} RequestsOfACompleteList<T(!new)>(c: Config<T>, run: seq<State<T>>)
    requires c.Valid() && c.fullPages && IsRun(Protocol(c), run)
    requires Last(run).out == Returned(c.items)
    ensures Last(run).p.requests == PagesNeeded(|c.items|, c.limit)
  {
    StartInv(c);
    forall s, s' | Budget(c)(s) && Protocol(c).step(s, s') ensures Budget(c)(s') {
      StepKeepsSafe(c, s, s');
      StepKeepsBudget(c, s, s');
    }
    InvariantOnRun(Protocol(c), Budget(c), run);
    CompleteExactlyWhenNoErrorUnread(c, run);
  }

  // ---------- The five streams ----------

  datatype Stream = Balances | Attributes | AttributedAccounts | Validators | Delegations

  /** The page limit of a stream, also the capacity of its data channel. */
  function Limit(stream: Stream): nat {
    if stream.Balances? then 50 else 100
  }

  /** At most 100 balances, and at most 200 items of the other streams, are ever fetched
      and not yet received. */
  lemma {:induction false} Lookahead<T(!new)>(stream: Stream, c: Config<T>, run: seq<State<T>>)
    requires c.limit == Limit(stream) && IsRun(Protocol(c), run)
    ensures Last(run).p.cursor - |Last(run).received| <= if stream.Balances? then 100 else 200
  {
    EveryStateAccounted(c, run);
    var s := Last(run);
    assert |s.received + (s.p.data + s.p.page) + c.items[s.p.cursor..]| == |c.items|;
  }
}
