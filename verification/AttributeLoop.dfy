/** AddAttributes run step by step: a scheduler decides which goroutine moves and whether
    SignTx and BroadcastTx fail, and the two loops update their variables until both have
    ended. Every execution is a run of the protocol and delivers what it must. */
module AttributeLoop {
  import opened AttributeJob
  import opened AttributePipeline
  import opened AttributeShipment
  import opened AddAttributes
  import opened Runs

  datatype Turn = FilterTurn | BatcherTurn(signFails: bool, broadcastFails: bool)

  method MoveFilter(job: Job, s: State) returns (s': State)
    requires Controlled(job, s)
    ensures FilterStep(job, s, s') || (s' == s && s.filter.FilterEnded?)
  {
    s' := s;
    match s.filter {
      case Looking =>
        if s.next == |job.attrs| {
          s' := s.(filter := ClosingAdds);
        } else {
          match job.lookups[s.next] {
            case LookupFailed => s' := s.(filter := Rejecting(LookupError(s.next)));
            case Exists => s' := s.(filter := Rejecting(AlreadyExists(s.next)));
            case Absent => s' := s.(filter := Adding(MessageFor(job, s.next)));
          }
        }
        assert LookUp(job, s, s');
      case Rejecting(r) =>
        s' := s.(errs := s.errs + [r], next := s.next + 1, filter := Looking);
        assert Reject(s, s');
      case Adding(m) =>
        s' := s.(adds := s.adds + [m], next := s.next + 1, filter := Looking);
        assert Add(job, s, s');
      case ClosingAdds =>
        s' := s.(addsClosed := true, filter := FilterEnded);
        assert CloseAdds(s, s');
      case FilterEnded =>
    }
  }

  method MoveBatcher(job: Job, s: State, signFails: bool, broadcastFails: bool) returns (s': State)
    requires Controlled(job, s)
    ensures BatcherStep(s, s') || (s' == s && (s.batcher.BatcherEnded? || !s.filter.FilterEnded?))
  {
    s' := s;
    match s.batcher {
      case AtHead =>
        if s.closed {
          s' := s.(batcher := ClosingErrs);
          assert LeaveLoop(s, s');
        } else if s.adds != [] {
          s' := s.(adds := s.adds[1..], buff := s.buff + [s.adds[0]], batcher := Checking);
          assert Receive(s, s');
        } else if s.addsClosed {
          s' := s.(closed := true, batcher := Checking);
          assert ReceiveClosed(s, s');
        }
      case Checking =>
        if |s.buff| == MAX_BATCH || (s.closed && |s.buff| > 0) {
          var fee := FEE_PER_ATTRIBUTE * |s.buff|;
          if signFails {
            s' := s.(batches := s.batches + [Batch(s.buff, fee, NotSigned)], buff := [],
                     batcher := Reporting(SignError(|s.batches|)));
          } else {
            s' := s.(batches := s.batches + [Batch(s.buff, fee, InProgress)], buff := [], batcher := Broadcasting);
          }
          assert Sign(s, s');
        } else {
          s' := s.(batcher := AtHead);
          assert KeepBuffering(s, s');
        }
      case Broadcasting =>
        if broadcastFails {
          s' := s.(batches := WithOutcome(s.batches, NotBroadcast),
                   batcher := Reporting(BroadcastError(|s.batches| - 1)));
        } else {
          s' := s.(batches := WithOutcome(s.batches, Sent), batcher := Responding(|s.batches| - 1));
        }
        assert Broadcast(s, s');
      case Reporting(r) =>
        s' := s.(errs := s.errs + [r], batcher := AtHead);
        assert ReportFailure(s, s');
      case Responding(k) =>
        s' := s.(resps := s.resps + [k], batcher := AtHead);
        assert Respond(s, s');
      case ClosingErrs =>
        s' := s.(errsClosed := true, batcher := ClosingResps);
        assert CloseErrs(s, s');
      case ClosingResps =>
        s' := s.(respsClosed := true, batcher := BatcherEnded);
        assert CloseResps(s, s');
      case BatcherEnded =>
    }
  }

  lemma {:induction false} Moved(job: Job, s: State, s': State)
    requires Controlled(job, s) && Step(job, s, s')
    ensures Controlled(job, s') && Weight(job, s') < Weight(job, s)
    ensures Protocol(job).step(s, s')
  {
    StepKeepsControl(job, s, s');
  }

  /** Both loops under any scheduler. A turn that cannot move is followed by one that can. */
  method AddAll(job: Job, schedule: nat -> Turn)
    returns (batches: seq<Batch>, errs: seq<Report>, resps: seq<nat>, ghost run: seq<State>)
    requires job.Valid()
    ensures IsRun(Protocol(job), run) && Final()(Last(run))
    ensures batches == Last(run).batches && errs == Last(run).errs && resps == Last(run).resps
    ensures Delivered(job, batches, errs, resps)
    ensures (exists idx :: Ships(job, batches, idx)) && Told(job, batches, errs, resps)
  {
    var s := Initial();
    var turn := 0;
    run := [s];
    while !s.filter.FilterEnded? || !s.batcher.BatcherEnded?
      invariant Controlled(job, s)
      invariant IsRun(Protocol(job), run) && Last(run) == s
      decreases Weight(job, s)
    {
      var s' := s;
      match schedule(turn) {
        case FilterTurn =>
          s' := MoveFilter(job, s);
        case BatcherTurn(signFails, broadcastFails) =>
          s' := MoveBatcher(job, s, signFails, broadcastFails);
      }
      if s' == s {
        if s.filter.FilterEnded? {
          s' := MoveBatcher(job, s, false, false);
        } else {
          s' := MoveFilter(job, s);
        }
      }
      Moved(job, s, s');
      run := Extend(Protocol(job), run, s');
      s := s';
      turn := turn + 1;
    }
    EverythingIsAccountedFor(job, run);
    return s.batches, s.errs, s.resps, run;
  }
}
