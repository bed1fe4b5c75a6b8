/** Exactly what a slice-returning form can return: the set of outcomes over all schedules,
    all page sizes the server may choose and all moments of failure and cancellation. */
module SliceOutcomes {
  import opened PagedStream
  import opened Runs
  import opened SliceForm

  /** A cancellation can strike between any two items, a failing RPC only between two pages. */
  predicate CanBeCutAt<T>(c: Config<T>, k: nat)
    requires c.limit > 0
  {
    c.mayCancel || (c.mayFail && (c.fullPages ==> k % c.limit == 0))
  }

  /** The outcomes a caller has to reckon with. A list cut short comes with a nil error. */
  predicate Possible<T(==)>(c: Config<T>, out: Outcome<T>)
    requires c.limit > 0
  {
    match out
    case Selecting => true
    case Returned(list) => list == c.items || (list < c.items && CanBeCutAt(c, |list|))
    case ReturnedError(Cancelled) => c.mayCancel
    case ReturnedError(Rpc(_)) => c.mayFail
  }

  // ---------- Nothing else is returned ----------

  /** Without cancellations a producer stops only between pages. */
  ghost predicate StopsBetweenPages<T(!new)>(c: Config<T>, p: Producer<T>)
    requires c.limit > 0
  {
    && (c.fullPages ==> p.cursor % c.limit == 0 || p.cursor == |c.items|)
    && (!c.mayCancel && (p.pc.Failed? || p.pc.Reporting? || p.err != []) ==> p.page == [])
  }

  ghost function Cuts<T(!new)>(c: Config<T>): State<T> -> bool
    requires c.limit > 0
  {
    (s: State<T>) => Safe(c, s) && StopsBetweenPages(c, s.p)
  }

  lemma {:induction false} Growing(limit: nat, q: int, d: int)
    requires limit > 0 && q > d
    ensures limit * q >= limit * d + limit
  {
    var k := q - d - 1;
    assert limit * q == limit * (d + 1 + k) == limit * (d + 1) + limit * k;
    assert limit * k >= 0;
  }

  lemma {:induction false} MultipleHasNoRest(q: nat, limit: nat)
    requires limit > 0
    ensures limit * q % limit == 0
  {
    var n := limit * q;
    var d := n / limit;
    if q > d {
      Growing(limit, q, d);
    } else if d > q {
      Growing(limit, d, q);
    }
  }

  lemma {:induction false} NextPageEnd(cursor: nat, limit: nat)
    requires limit > 0 && cursor % limit == 0
    ensures (cursor + limit) % limit == 0
    ensures cursor >= limit ==> (cursor - limit) % limit == 0
  {
    var q := cursor / limit;
    assert cursor == limit * q;
    assert cursor + limit == limit * (q + 1);
    MultipleHasNoRest(q + 1, limit);
    if cursor >= limit {
      assert cursor - limit == limit * (q - 1);
      assert q >= 1;
      MultipleHasNoRest(q - 1, limit);
    }
  }

  lemma {:induction false} ProducerStopsBetweenPages<T(!new)>(
    c: Config<T>, p: Producer<T>, p': Producer<T>, received: seq<T>, taken: bool)
    requires Inv(c, p, received, taken) && StopsBetweenPages(c, p) && ProducerStep(c, p, p')
    ensures StopsBetweenPages(c, p')
  {
    if FetchPage(c, p, p') && p.cursor % c.limit == 0 {
      NextPageEnd(p.cursor, c.limit);
    }
  }

  lemma {:induction false} StepKeepsCuts<T(!new)>(c: Config<T>, s: State<T>, s': State<T>)
    requires Safe(c, s) && StopsBetweenPages(c, s.p) && Step(c, s, s')
    ensures StopsBetweenPages(c, s'.p)
  {
    if ProducerMoves(c, s, s') {
      var taken := !Inv(c, s.p, s.received, false);
      ProducerStopsBetweenPages(c, s.p, s'.p, s.received, taken);
    }
  }

  lemma {:induction false} CutsAreInductive<T(!new)>(c: Config<T>)
    requires c.Valid()
    ensures Inductive(Protocol(c), Cuts(c))
  {
    StartInv(c);
    forall s, s' | Cuts(c)(s) && Protocol(c).step(s, s') ensures Cuts(c)(s') {
      StepKeepsSafe(c, s, s');
      StepKeepsCuts(c, s, s');
    }
  }

  lemma {:induction false} ReturnedIsPossible<T(!new)>(c: Config<T>, s: State<T>)
    requires c.Valid() && Cuts(c)(s)
    ensures Possible(c, s.out)
  {}

  // ---------- Each of them is ----------

  /** The reader has the first k items and nothing has gone wrong. */
  ghost predicate Smooth<T(!new)>(c: Config<T>, s: State<T>, k: nat) {
    && s.out.Selecting? && !s.p.cancelled
    && k <= |c.items| && s.received == c.items[..k]
    && s.p.data == [] && s.p.err == [] && !s.p.errClosed && !s.p.dataClosed
  }

  /** The producer is about to fetch the page that begins at b. */
  ghost predicate AtPage<T(!new)>(c: Config<T>, s: State<T>, b: nat) {
    Smooth(c, s, b) && s.p.pc == Fetching && s.p.cursor == b && s.p.page == []
  }

  /** The producer has sent its page up to item k; the page ends at e. */
  ghost predicate InPage<T(!new)>(c: Config<T>, s: State<T>, k: nat, e: nat) {
    Smooth(c, s, k) && s.p.pc == Paging && s.p.cursor == e && k <= e <= |c.items| && s.p.page == c.items[k..e]
  }

  /** A page length the server may keep to. */
  predicate PageSize<T>(c: Config<T>, size: nat) {
    0 < size <= c.limit && (c.fullPages ==> size == c.limit)
  }

  function PageEnd<T>(c: Config<T>, size: nat, b: nat): nat {
    if b + size <= |c.items| then b + size else |c.items|
  }

  lemma {:induction false} PageBefore(b: nat, size: nat)
    requires size > 0 && b % size == 0 && b > 0
    ensures b >= size && (b - size) % size == 0
  {
    NextPageEnd(b, size);
  }

  lemma {:induction false} ReachesPage<T(!new)>(c: Config<T>, size: nat, b: nat) returns (run: seq<State<T>>)
    requires c.Valid() && PageSize(c, size) && b % size == 0 && (b < |c.items| || b == 0)
    ensures IsRun(Protocol(c), run) && AtPage(c, Last(run), b)
    decreases b, 0
  {
    if b == 0 {
      run := [Initial()];
    } else {
      PageBefore(b, size);
      run := ReachesItem(c, size, b - size, b);
      var s := Last(run);
      assert EndPage(c, s.p, s.p.(pc := Fetching));
      run := Extend(Protocol(c), run, s.(p := s.p.(pc := Fetching)));
    }
  }

  lemma {:induction false} OneMoreItem<T(!new)>(
    c: Config<T>, run: seq<State<T>>, k: nat, e: nat)
    returns (run': seq<State<T>>)
    requires c.Valid() && IsRun(Protocol(c), run) && InPage(c, Last(run), k, e) && k < e
    ensures IsRun(Protocol(c), run') && InPage(c, Last(run'), k + 1, e)
  {
    var s := Last(run);
    var sent := s.(p := s.p.(data := [c.items[k]], page := c.items[k + 1..e]));
    assert SendItem(c, s.p, sent.p);
    run' := Extend(Protocol(c), run, sent);
    var read := sent.(p := sent.p.(data := []), received := c.items[..k + 1]);
    assert ReceiveItem(sent, read);
    run' := Extend(Protocol(c), run', read);
  }

  lemma {:induction false} ReachesItem<T(!new)>(c: Config<T>, size: nat, b: nat, k: nat) returns (run: seq<State<T>>)
    requires c.Valid() && PageSize(c, size) && b % size == 0 && (b < |c.items| || b == 0)
    requires b <= k <= PageEnd(c, size, b)
    ensures IsRun(Protocol(c), run) && InPage(c, Last(run), k, PageEnd(c, size, b))
    decreases b, k - b + 1
  {
    if k == b {
      run := ReachesPage(c, size, b);
      var p := Last(run).p;
      var e := PageEnd(c, size, b);
      var p' := p.(pc := Paging, page := c.items[b..e], cursor := e, requests := p.requests + 1);
      assert FetchPage(c, p, p');
      run := Extend(Protocol(c), run, Last(run).(p := p'));
    } else {
      run := ReachesItem(c, size, b, k - 1);
      run := OneMoreItem(c, run, k - 1, PageEnd(c, size, b));
    }
  }

  lemma {:induction false} PageBegin(k: nat, limit: nat)
    requires limit > 0
    ensures (k - k % limit) % limit == 0
  {
    assert k - k % limit == limit * (k / limit);
    MultipleHasNoRest(k / limit, limit);
  }

  lemma {:induction false} LastPage<T>(c: Config<T>, b: nat)
    requires c.limit > 0 && b == if c.items == [] then 0 else |c.items| - 1 - (|c.items| - 1) % c.limit
    ensures b % c.limit == 0 && b <= |c.items| && PageEnd(c, c.limit, b) == |c.items|
    ensures b < |c.items| || b == 0
  {
    if c.items != [] {
      PageBegin(|c.items| - 1, c.limit);
    }
  }

  lemma {:induction false} WholeListIsReturned<T(!new)>(c: Config<T>) returns (run: seq<State<T>>)
    requires c.Valid()
    ensures IsRun(Protocol(c), run) && Last(run).out == Returned(c.items)
  {
    var n := |c.items|;
    var b := if n == 0 then 0 else n - 1 - (n - 1) % c.limit;
    LastPage(c, b);
    run := ReachesItem(c, c.limit, b, n);
    var s0 := Last(run);
    var s1 := s0.(p := s0.p.(pc := ClosingErr));
    var s2 := s1.(p := s1.p.(pc := ClosingData, errClosed := true));
    var s3 := s2.(p := s2.p.(pc := Exited, dataClosed := true));
    assert EndPage(c, s0.p, s1.p) && CloseErr(s1.p, s2.p) && CloseData(s2.p, s3.p);
    run := Extend(Protocol(c), run, s1);
    run := Extend(Protocol(c), run, s2);
    run := Extend(Protocol(c), run, s3);
    assert c.items[..n] == c.items;
    run := Extend(Protocol(c), run, s3.(out := Returned(c.items)));
  }

  lemma {:induction false} CallFails<T(!new)>(c: Config<T>, run: seq<State<T>>, code: nat) returns (run': seq<State<T>>)
    requires IsRun(Protocol(c), run) && Last(run).p.pc == Fetching && (c.mayFail || Last(run).p.cancelled)
    ensures var s := Last(run);
            && IsRun(Protocol(c), run')
            && Last(run') == s.(p := s.p.(pc := Reporting(if s.p.cancelled then Cancelled else Rpc(code)),
                                          requests := s.p.requests + 1))
  {
    var s := Last(run);
    var failed := s.(p := s.p.(pc := Failed(Rpc(code)), requests := s.p.requests + 1));
    assert FetchFails(c, s.p, failed.p);
    run' := Extend(Protocol(c), run, failed);
    var told := failed.(p := failed.p.(pc := Reporting(if s.p.cancelled then Cancelled else Rpc(code))));
    assert ConsultContext(failed.p, told.p);
    run' := Extend(Protocol(c), run', told);
  }

  lemma {:induction false} Cancelling<T(!new)>(c: Config<T>, run: seq<State<T>>) returns (run': seq<State<T>>)
    requires IsRun(Protocol(c), run) && c.mayCancel && !Last(run).p.cancelled
    ensures IsRun(Protocol(c), run') && Last(run') == Last(run).(p := Last(run).p.(cancelled := true))
  {
    var s := Last(run);
    assert ContextMoves(c, s, s.(p := s.p.(cancelled := true)));
    run' := Extend(Protocol(c), run, s.(p := s.p.(cancelled := true)));
  }

  /** A run that is about to report a failure with the first k items received. */
  lemma {:induction false} FailsAt<T(!new)>(c: Config<T>, k: nat) returns (run: seq<State<T>>)
    requires c.Valid() && CanBeCutAt(c, k) && (k < |c.items| || k == 0)
    ensures IsRun(Protocol(c), run)
    ensures var s := Last(run);
            s.out.Selecting? && s.p.data == [] && s.p.err == [] && s.p.pc.Reporting? && s.received == c.items[..k]
  {
    if c.mayFail && (c.fullPages ==> k % c.limit == 0) {
      run := ReachesPage(c, if c.fullPages then c.limit else 1, k);
      run := CallFails(c, run, 0);
    } else if c.items == [] {
      run := ReachesPage(c, c.limit, 0);
      run := Cancelling(c, run);
      run := CallFails(c, run, 0);
    } else {
      var b := k - k % c.limit;
      PageBegin(k, c.limit);
      run := ReachesItem(c, c.limit, b, k);
      run := Cancelling(c, run);
      var s := Last(run);
      assert AbandonPage(s.p, s.p.(pc := Reporting(Cancelled)));
      run := Extend(Protocol(c), run, s.(p := s.p.(pc := Reporting(Cancelled))));
    }
  }

  lemma {:induction false} ListIsReturned<T(!new)>(c: Config<T>, list: seq<T>) returns (run: seq<State<T>>)
    requires c.Valid() && Possible(c, Returned(list))
    ensures IsRun(Protocol(c), run) && Last(run).out == Returned(list)
  {
    if list == c.items {
      run := WholeListIsReturned(c);
    } else {
      var front := FailsAt(c, |list|);
      var rest := FailureUnread(c, Last(front));
      PathsJoin(Protocol(c), front, rest[1..]);
      run := front + rest[1..];
    }
  }

  lemma {:induction false} ErrorIsReturned<T(!new)>(c: Config<T>, e: Error) returns (run: seq<State<T>>)
    requires c.Valid() && Possible<T>(c, ReturnedError(e))
    ensures IsRun(Protocol(c), run) && Last(run).out == ReturnedError(e)
  {
    run := [Initial()];
    match e {
      case Cancelled =>
        run := Cancelling(c, run);
        var s := Last(run);
        assert ReceiveDone(s, s.(out := ReturnedError(Cancelled)));
        run := Extend(Protocol(c), run, s.(out := ReturnedError(Cancelled)));
      case Rpc(code) =>
        run := CallFails(c, run, code);
        var s := Last(run);
        var told := s.(p := s.p.(pc := ClosingErr, err := [e]));
        assert Report(s.p, told.p);
        run := Extend(Protocol(c), run, told);
        var read := told.(p := told.p.(err := []), out := ReturnedError(e));
        assert ReceiveError(told, read);
        run := Extend(Protocol(c), run, read);
    }
  }

  lemma {:induction false} SomeRun<T(!new)>(c: Config<T>, out: Outcome<T>) returns (run: seq<State<T>>)
    requires c.Valid() && Possible(c, out)
    ensures IsRun(Protocol(c), run) && Last(run).out == out
  {
    match out
    case Selecting => run := [Initial()];
    case Returned(list) => run := ListIsReturned(c, list);
    case ReturnedError(e) => run := ErrorIsReturned(c, e);
  }

  /** The outcomes some schedule leads to are exactly the possible ones. */
  lemma {:induction false} ExactlyThePossibleOutcomes<T(!new)>(c: Config<T>, out: Outcome<T>)
    requires c.Valid()
    ensures (exists run :: IsRun(Protocol(c), run) && Last(run).out == out) <==> Possible(c, out)
  {
    if run :| IsRun(Protocol(c), run) && Last(run).out == out {
      CutsAreInductive(c);
      InvariantOnRun(Protocol(c), Cuts(c), run);
      ReturnedIsPossible(c, Last(run));
    }
    if Possible(c, out) {
      var run := SomeRun(c, out);
    }
  }

  // ---------- How far the producer runs ahead ----------

  /** Nothing is received, k items of the first page are in the channel. */
  ghost predicate Unread<T(!new)>(c: Config<T>, s: State<T>, k: nat) {
    && s.out.Selecting? && s.received == [] && k <= c.limit <= |c.items|
    && s.p.pc == Paging && !s.p.cancelled && s.p.cursor == c.limit
    && s.p.data == c.items[..k] && s.p.page == c.items[k..c.limit]
  }

  lemma {:induction false} CanFetchFull<T(!new)>(c: Config<T>, p: Producer<T>) returns (p': Producer<T>)
    requires c.Valid() && p.pc.Fetching? && p.cursor + c.limit <= |c.items|
    ensures FetchPage(c, p, p')
    ensures p' == p.(pc := Paging, page := c.items[p.cursor..p.cursor + c.limit], cursor := p.cursor + c.limit,
                     requests := p.requests + 1)
  {
    var k := p.cursor + c.limit;
    p' := p.(pc := Paging, page := c.items[p.cursor..k], cursor := k, requests := p.requests + 1);
  }

  lemma {:induction false} FillsChannel<T(!new)>(c: Config<T>, k: nat) returns (run: seq<State<T>>)
    requires c.Valid() && k <= c.limit <= |c.items|
    ensures IsRun(Protocol(c), run) && Unread(c, Last(run), k)
  {
    if k == 0 {
      var s: State<T> := Initial();
      var p' := CanFetchFull(c, s.p);
      run := Extend(Protocol(c), [s], s.(p := p'));
    } else {
      run := FillsChannel(c, k - 1);
      var s := Last(run);
      var p' := s.p.(data := c.items[..k], page := c.items[k..c.limit]);
      assert SendItem(c, s.p, p');
      run := Extend(Protocol(c), run, s.(p := p'));
    }
  }

  /** The lookahead is reached: one page in the channel and one in hand, 100 balances or 200
      items of the other streams. */
  lemma {:induction false} LookaheadIsReached<T(!new)>(stream: Stream, c: Config<T>) returns (run: seq<State<T>>)
    requires c.limit == Limit(stream) && 200 <= |c.items|
    ensures IsRun(Protocol(c), run)
    ensures Last(run).p.cursor - |Last(run).received| == if stream.Balances? then 100 else 200
  {
    run := FillsChannel(c, c.limit);
    var s := Last(run);
    var ended := s.p.(pc := Fetching);
    assert EndPage(c, s.p, ended);
    run := Extend(Protocol(c), run, s.(p := ended));
    var p' := CanFetchFull(c, ended);
    run := Extend(Protocol(c), run, Last(run).(p := p'));
  }
}
