/** The slice-returning forms run step by step: a scheduler decides which goroutine moves,
    what the server answers and which ready case a select takes, and the loops' variables
    are updated in place until both goroutines have ended. Every such execution is a run of
    the protocol in `SliceForm`, and it ends as long as turns that change nothing are not
    repeated for ever. */
module SliceLoop {
  import opened PagedStream
  import opened Runs
  import opened SliceForm
  import SliceOutcomes

  /** What the scheduler asks for. `size` is the page length the server would like to send,
      `fail` asks for an RPC error, `pick` orders the ready cases of a select. */
  datatype Turn = Produce(size: nat, fail: bool, abandon: bool) | Consume(pick: nat) | Cancel

  /** The length of the page the server sends from p's cursor. */
  function PageLength<T>(c: Config<T>, cursor: nat, size: nat): nat
    requires cursor <= |c.items|
  {
    var left := |c.items| - cursor;
    var most := if left < c.limit then left else c.limit;
    if c.fullPages || size > most then most else if size == 0 && most > 0 then 1 else size
  }

  method ProducerTurn<T(!new)>(
    c: Config<T>, p: Producer<T>, turn: Turn, ghost received: seq<T>, ghost taken: bool)
    returns (p': Producer<T>)
    requires Inv(c, p, received, taken) && turn.Produce?
    ensures ProducerStep(c, p, p')
            || (p' == p && (p.pc == Exited || (p.pc == Paging && |p.data| == c.limit && !p.cancelled)))
  {
    p' := p;
    match p.pc {
      case Fetching =>
        if turn.fail && (c.mayFail || p.cancelled) {
          p' := p.(pc := Failed(Rpc(turn.size)), requests := p.requests + 1);
        } else {
          var k := p.cursor + PageLength(c, p.cursor, turn.size);
          p' := p.(pc := Paging, page := c.items[p.cursor..k], cursor := k, requests := p.requests + 1);
          assert FetchPage(c, p, p');
        }
      case Failed(e) =>
        p' := p.(pc := Reporting(if p.cancelled then Cancelled else e));
      case Paging =>
        if p.page == [] {
          p' := p.(pc := if p.cursor < |c.items| then Fetching else ClosingErr);
          assert EndPage(c, p, p');
        } else if p.cancelled && (turn.abandon || |p.data| == c.limit) {
          p' := p.(pc := Reporting(Cancelled));
          assert AbandonPage(p, p');
        } else if |p.data| < c.limit {
          p' := p.(data := p.data + [p.page[0]], page := p.page[1..]);
          assert SendItem(c, p, p');
        }
      case Reporting(e) =>
        p' := p.(err := p.err + [e], pc := ClosingErr);
        assert Report(p, p');
      case ClosingErr =>
        p' := p.(errClosed := true, pc := ClosingData);
      case ClosingData =>
        p' := p.(dataClosed := true, pc := Exited);
      case Exited =>
    }
  }

  /** One round of the consumer's select: of the ready cases the first from `pick` on. */
  method ConsumerTurn<T(!new)>(s: State<T>, pick: nat) returns (s': State<T>)
    requires s.out.Selecting?
    ensures ConsumerStep(s, s') || (s' == s && s.p.data == [] && !s.p.dataClosed && !s.p.cancelled && s.p.err == [])
    ensures s' == s ==> s.p.err == [] && (pick % 3 == 2 || (s.p.data == [] && !s.p.dataClosed && !s.p.cancelled))
  {
    if pick % 3 == 2 && (s.p.err != [] || s.p.errClosed) {
      if s.p.err != [] {
        return s.(p := s.p.(err := s.p.err[1..]), out := ReturnedError(s.p.err[0]));
      }
      return s;
    }
    if pick % 3 == 1 && s.p.cancelled {
      return s.(out := ReturnedError(Cancelled));
    }
    if s.p.data != [] {
      return s.(p := s.p.(data := s.p.data[1..]), received := s.received + [s.p.data[0]]);
    }
    if s.p.dataClosed {
      return s.(out := Returned(s.received));
    }
    if s.p.cancelled {
      return s.(out := ReturnedError(Cancelled));
    }
    if s.p.err != [] {
      return s.(p := s.p.(err := s.p.err[1..]), out := ReturnedError(s.p.err[0]));
    }
    return s;
  }

  /** The move a turn asks for, or none. */
  method TakeTurn<T(!new)>(c: Config<T>, s: State<T>, turn: Turn) returns (s': State<T>)
    requires Safe(c, s)
    ensures s' == s || Step(c, s, s')
    ensures turn == Produce(c.limit, false, true) && s' == s ==>
              s.p.pc == Exited || (s.p.pc == Paging && s.p.data != [] && !s.p.cancelled)
    ensures turn == Consume(0) && s' == s && s.out.Selecting? ==> s.p.data == [] && !s.p.dataClosed
  {
    s' := s;
    match turn {
      case Produce(_, _, _) =>
        ghost var taken := !Inv(c, s.p, s.received, false);
        var p' := ProducerTurn(c, s.p, turn, s.received, taken);
        s' := s.(p := p');
        assert p' != s.p ==> ProducerMoves(c, s, s');
      case Consume(pick) =>
        if s.out.Selecting? {
          s' := ConsumerTurn(s, pick);
        }
      case Cancel =>
        if c.mayCancel && !s.p.cancelled {
          s' := s.(p := s.p.(cancelled := true));
          assert ContextMoves(c, s, s');
        }
    }
  }

  /** Both loops under any scheduler. A turn that changes nothing, such as one more reading
      of the closed error channel, is followed by one that does; so the execution ends, and
      its result is that of a run of the protocol. */
  method CollectSlice<T(!new, ==)>(c: Config<T>, schedule: nat -> Turn)
    returns (out: Outcome<T>, ghost run: seq<State<T>>)
    requires c.Valid()
    ensures IsRun(Protocol(c), run) && Final<T>()(Last(run)) && Last(run).out == out
    ensures out.Returned? ==> out.list <= c.items && (c.Reliable() ==> out.list == c.items)
    ensures out.ReturnedError? ==> !c.Reliable()
    ensures SliceOutcomes.Possible(c, out)
  {
    var s: State<T> := Initial();
    var turn := 0;
    run := [s];
    StartInv(c);
    while s.out.Selecting? || s.p.pc != Exited
      invariant Safe(c, s)
      invariant IsRun(Protocol(c), run) && Last(run) == s
      decreases Measure(c)(s)
    {
      var s' := TakeTurn(c, s, schedule(turn));
      if s' == s {
        s' := TakeTurn(c, s, Produce(c.limit, false, true));
        if s' == s {
          s' := TakeTurn(c, s, Consume(0));
        }
      }
      assert s' != s && Step(c, s, s');
      StepKeepsSafe(c, s, s');
      run := Extend(Protocol(c), run, s');
      s := s';
      turn := turn + 1;
    }
    EveryStateAccounted(c, run);
    if s.out.Returned? {
      CompleteExactlyWhenNoErrorUnread(c, run);
    }
    SliceOutcomes.ExactlyThePossibleOutcomes(c, s.out);
    return s.out, run;
  }
}
