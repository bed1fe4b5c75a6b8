/** What is proved of AddAttributes: conservation of the inputs, safe use of the channels,
    and progress to the end with both result channels closed. */
module AddAttributes {
  import opened AttributeJob
  import opened AttributePipeline
  import opened AttributeShipment
  import opened Runs

  ghost function Control(job: Job): State -> bool {
    (s: State) => Controlled(job, s)
  }

  ghost function Accounts(job: Job): State -> bool {
    (s: State) => Conserved(job, s)
  }

  ghost function Measure(job: Job): State -> nat {
    (s: State) => Weight(job, s)
  }

  /** Both goroutines have ended. */
  ghost function Final(): State -> bool {
    (s: State) => s.filter.FilterEnded? && s.batcher.BatcherEnded?
  }

  lemma {:induction false} ControlIsInductive(job: Job)
    requires job.Valid()
    ensures Inductive(Protocol(job), Control(job))
    ensures StrictlyDecreasing(Protocol(job), Control(job), Measure(job))
  {
    forall s, s' | Control(job)(s) && Protocol(job).step(s, s')
      ensures Control(job)(s') && Measure(job)(s') < Measure(job)(s)
    {
      StepKeepsControl(job, s, s');
    }
  }

  lemma {:induction false} AccountsAreInductive(job: Job)
    requires job.Valid()
    ensures InductiveUnder(Protocol(job), Control(job), Accounts(job))
  {
    forall s, s' | Control(job)(s) && Accounts(job)(s) && Protocol(job).step(s, s') ensures Accounts(job)(s') {
      StepConserves(job, s, s');
    }
  }

  lemma {:induction false} OnEveryRun(job: Job, run: seq<State>)
    requires job.Valid() && IsRun(Protocol(job), run)
    ensures forall i | 0 <= i < |run| :: Controlled(job, run[i]) && Conserved(job, run[i])
  {
    ControlIsInductive(job);
    AccountsAreInductive(job);
    InductiveTogether(Protocol(job), Control(job), Accounts(job), Accounts(job));
    InvariantOnRun(Protocol(job), And(Control(job), Accounts(job)), run);
    forall i | 0 <= i < |run| ensures Controlled(job, run[i]) && Conserved(job, run[i]) {
      assert And(Control(job), Accounts(job))(run[i]);
    }
  }

  // ---------- Main results ----------

  /** The transactions carry exactly the accepted inputs, in order. The error channel
      carries exactly the rejections of inputs, in order, interleaved with the failures of
      transactions, in order; the response channel carries the other transactions. */
  ghost predicate Delivered(job: Job, batches: seq<Batch>, errs: seq<Report>, resps: seq<nat>)
    requires job.Valid()
  {
    && AllMessages(batches) == Accepted(job, |job.attrs|)
    && WellCut(batches, true)
    && (forall b | b in batches :: !b.outcome.InProgress?)
    && OfInputs(errs) == Rejected(job, |job.attrs|)
    && OfBatches(errs) == Failures(batches)
    && resps == Responses(batches)
  }

  lemma {:induction false} FinalIsDelivered(job: Job, s: State)
    requires Controlled(job, s) && Conserved(job, s) && Final()(s)
    ensures Delivered(job, s.batches, s.errs, s.resps)
  {}

  lemma {:induction false} DeliveredCounts(job: Job, batches: seq<Batch>, errs: seq<Report>, resps: seq<nat>)
    requires job.Valid() && Delivered(job, batches, errs, resps)
    ensures var n := |job.attrs|;
            && |batches| == (|Accepted(job, n)| + MAX_BATCH - 1) / MAX_BATCH
            && TotalFee(batches) == FEE_PER_ATTRIBUTE * |Accepted(job, n)|
            && |Accepted(job, n)| + |Rejected(job, n)| == n
            && |errs| + |resps| == |Rejected(job, n)| + |batches|
  {
    FeesAddUp(batches, true);
    BatchesNeeded(batches, true);
    EachInputOnce(job, |job.attrs|);
    TwoStreams(errs);
    EachBatchOnce(batches);
  }

  /** Conservation, at the end of every run: everything is delivered, each accepted input
      is paid for once, in as few transactions as possible, and each input and each
      transaction is answered once. */
  lemma {:induction false} EverythingIsAccountedFor(job: Job, run: seq<State>)
    requires job.Valid() && IsRun(Protocol(job), run) && Final()(Last(run))
    ensures var s := Last(run);
            var n := |job.attrs|;
            && Delivered(job, s.batches, s.errs, s.resps)
            && (exists idx :: Ships(job, s.batches, idx)) && Told(job, s.batches, s.errs, s.resps)
            && |s.batches| == (|Accepted(job, n)| + MAX_BATCH - 1) / MAX_BATCH
            && TotalFee(s.batches) == FEE_PER_ATTRIBUTE * |Accepted(job, n)|
            && |Accepted(job, n)| + |Rejected(job, n)| == n
            && |s.errs| + |s.resps| == |Rejected(job, n)| + |s.batches|
  {
    OnEveryRun(job, run);
    var s := Last(run);
    assert Controlled(job, s) && Conserved(job, s);
    FinalIsDelivered(job, s);
    DeliveredCounts(job, s.batches, s.errs, s.resps);
    var idx := ShipsAll(job, s.batches);
    TellsAll(job, s.batches, s.errs, s.resps);
  }

  /** Channel safety, in every reachable state. Nothing is sent on or closes a closed
      channel, the filter always finds room in the add channel, and the batcher is back at
      its loop head with room in the buffer. */
  lemma {:induction false} ChannelsAreSafe(job: Job, run: seq<State>)
    requires job.Valid() && IsRun(Protocol(job), run)
    ensures forall i | 0 <= i < |run| :: !run[i].panicked
    ensures var s := Last(run);
            && (s.filter.Adding? ==> |s.adds| < |job.attrs|)
            && (s.batcher.AtHead? ==> |s.buff| < MAX_BATCH)
  {
    OnEveryRun(job, run);
    assert Controlled(job, Last(run));
  }

  /** Every run is finite: at most 12 steps for each input and 27 more. */
  lemma {:induction false} RunsAreBounded(job: Job, run: seq<State>)
    requires job.Valid() && IsRun(Protocol(job), run)
    ensures |run| - 1 <= 12 * |job.attrs| + 27
  {
    ControlIsInductive(job);
    LengthBounded(Protocol(job), Control(job), Measure(job), run);
  }

  lemma {:induction false} FilterCanMove(job: Job, s: State) returns (s': State)
    requires Controlled(job, s) && !s.filter.FilterEnded?
    ensures FilterStep(job, s, s')
  {
    match s.filter
    case Looking =>
      s' := s.(filter :=
        if s.next >= |job.attrs| || s.next >= |job.lookups| then ClosingAdds
        else match job.lookups[s.next]
             case LookupFailed => Rejecting(LookupError(s.next))
             case Exists => Rejecting(AlreadyExists(s.next))
             case Absent => Adding(MessageFor(job, s.next)));
      assert LookUp(job, s, s');
    case Rejecting(r) =>
      s' := s.(errs := s.errs + [r], next := s.next + 1, filter := Looking);
    case Adding(m) =>
      s' := s.(adds := s.adds + [m], next := s.next + 1, filter := Looking);
    case ClosingAdds =>
      s' := s.(addsClosed := true, filter := FilterEnded);
  }

  lemma {:induction false} BatcherCanMove(job: Job, s: State) returns (s': State)
    requires Controlled(job, s) && s.filter.FilterEnded? && !s.batcher.BatcherEnded?
    ensures BatcherStep(s, s')
  {
    match s.batcher
    case AtHead =>
      if s.closed {
        s' := s.(batcher := ClosingErrs);
      } else if s.adds == [] {
        s' := s.(closed := true, batcher := Checking);
      } else {
        s' := s.(adds := s.adds[1..], buff := s.buff + [s.adds[0]], batcher := Checking);
      }
    case Checking =>
      if Due(s) {
        s' := s.(batches := s.batches + [Batch(s.buff, FEE_PER_ATTRIBUTE * |s.buff|, NotSigned)], buff := [],
                 batcher := Reporting(SignError(|s.batches|)));
        assert Sign(s, s');
      } else {
        s' := s.(batcher := AtHead);
      }
    case Broadcasting =>
      s' := s.(batches := WithOutcome(s.batches, Sent), batcher := Responding(|s.batches| - 1));
      assert Broadcast(s, s');
    case Reporting(r) =>
      s' := s.(errs := s.errs + [r], batcher := AtHead);
    case Responding(k) =>
      s' := s.(resps := s.resps + [k], batcher := AtHead);
    case ClosingErrs =>
      s' := s.(errsClosed := true, batcher := ClosingResps);
    case ClosingResps =>
      s' := s.(respsClosed := true, batcher := BatcherEnded);
  }

  lemma {:induction false} NextStep(job: Job, s: State) returns (s': State)
    requires Controlled(job, s) && !Final()(s)
    ensures Step(job, s, s')
  {
    if !s.filter.FilterEnded? {
      s' := FilterCanMove(job, s);
    } else {
      s' := BatcherCanMove(job, s);
    }
  }

  /** No deadlock: from every reachable state both goroutines can end, and then both
      result channels are closed. */
  lemma {:induction false} AlwaysFinishes(job: Job, run: seq<State>) returns (path: seq<State>)
    requires job.Valid() && IsRun(Protocol(job), run)
    ensures IsPath(Protocol(job), path) && path[0] == Last(run) && Final()(Last(path))
    ensures Last(path).errsClosed && Last(path).respsClosed
  {
    ControlIsInductive(job);
    InvariantOnRun(Protocol(job), Control(job), run);
    forall s | Control(job)(s) && !Final()(s)
      ensures exists s' :: Protocol(job).step(s, s') && Measure(job)(s') < Measure(job)(s)
    {
      var s' := NextStep(job, s);
      StepKeepsControl(job, s, s');
      assert Protocol(job).step(s, s');
    }
    path := ReachesFinal(Protocol(job), Control(job), Measure(job), Final(), Last(run));
    InvariantOnPath(Protocol(job), Control(job), path);
    assert Control(job)(Last(path));
  }
}
