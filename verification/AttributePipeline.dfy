/** AddAttributes as a protocol of two goroutines: the filter looks every input up and sends
    the accepted ones on a buffered channel, the batcher cuts them into transactions. Both
    send on the error channel. The result channels are unbuffered and read by a caller that
    serves both, so `errs` and `resps` are what the caller has received. */
module AttributePipeline {
  import opened AttributeJob
  import opened Runs

  datatype FilterPc =
    | Looking                    // at the loop head, or waiting for GetAttributes
    | Rejecting(report: Report)  // about to send on the error channel
    | Adding(msg: Message)       // about to send on the add channel
    | ClosingAdds
    | FilterEnded

  datatype BatcherPc =
    | AtHead
    | Checking                   // has received, about to test the buffer
    | Broadcasting               // has signed the last batch
    | Reporting(report: Report)  // about to send on the error channel
    | Responding(batch: nat)     // about to send on the response channel
    | ClosingErrs
    | ClosingResps
    | BatcherEnded

  datatype State = State(
    filter: FilterPc,
    next: nat,
    adds: seq<Message>,
    addsClosed: bool,
    batcher: BatcherPc,
    closed: bool,
    buff: seq<Message>,
    batches: seq<Batch>,
    errs: seq<Report>,
    errsClosed: bool,
    resps: seq<nat>,
    respsClosed: bool,
    panicked: bool)

  function Initial(): State {
    State(Looking, 0, [], false, AtHead, false, [], [], [], false, [], false, false)
  }

  // ---------- The filter ----------

  ghost predicate LookUp(job: Job, s: State, s': State) {
    && s.filter.Looking?
    && s' == s.(filter :=
         if s.next >= |job.attrs| || s.next >= |job.lookups| then ClosingAdds
         else match job.lookups[s.next]
              case LookupFailed => Rejecting(LookupError(s.next))
              case Exists => Rejecting(AlreadyExists(s.next))
              case Absent => Adding(MessageFor(job, s.next)))
  }

  /** A send on a closed channel panics. */
  ghost predicate Reject(s: State, s': State) {
    && s.filter.Rejecting?
    && s' == if s.errsClosed then s.(panicked := true)
             else s.(errs := s.errs + [s.filter.report], next := s.next + 1, filter := Looking)
  }

  /** The add channel has room for as many messages as there are inputs. */
  ghost predicate Add(job: Job, s: State, s': State) {
    && s.filter.Adding?
    && |s.adds| < |job.attrs|
    && s' == if s.addsClosed then s.(panicked := true)
             else s.(adds := s.adds + [s.filter.msg], next := s.next + 1, filter := Looking)
  }

  ghost predicate CloseAdds(s: State, s': State) {
    && s.filter.ClosingAdds?
    && s' == if s.addsClosed then s.(panicked := true) else s.(addsClosed := true, filter := FilterEnded)
  }

  ghost predicate FilterStep(job: Job, s: State, s': State) {
    LookUp(job, s, s') || Reject(s, s') || Add(job, s, s') || CloseAdds(s, s')
  }

  // ---------- The batcher ----------

  ghost predicate Receive(s: State, s': State) {
    && s.batcher.AtHead? && !s.closed
    && s.adds != []
    && s' == s.(adds := s.adds[1..], buff := s.buff + [s.adds[0]], batcher := Checking)
  }

  ghost predicate ReceiveClosed(s: State, s': State) {
    && s.batcher.AtHead? && !s.closed
    && s.adds == [] && s.addsClosed
    && s' == s.(closed := true, batcher := Checking)
  }

  ghost predicate LeaveLoop(s: State, s': State) {
    s.batcher.AtHead? && s.closed && s' == s.(batcher := ClosingErrs)
  }

  predicate Due(s: State) {
    |s.buff| == MAX_BATCH || (s.closed && |s.buff| > 0)
  }

  ghost predicate KeepBuffering(s: State, s': State) {
    s.batcher.Checking? && !Due(s) && s' == s.(batcher := AtHead)
  }

  /** SignTx may fail; either way the buffer is cleared. */
  ghost predicate Sign(s: State, s': State) {
    && s.batcher.Checking? && Due(s)
    && var fee := FEE_PER_ATTRIBUTE * |s.buff|;
    || s' == s.(batches := s.batches + [Batch(s.buff, fee, NotSigned)], buff := [],
                batcher := Reporting(SignError(|s.batches|)))
    || s' == s.(batches := s.batches + [Batch(s.buff, fee, InProgress)], buff := [], batcher := Broadcasting)
  }

  ghost predicate Broadcast(s: State, s': State) {
    && s.batcher.Broadcasting? && s.batches != []
    && var last := |s.batches| - 1;
    || s' == s.(batches := WithOutcome(s.batches, NotBroadcast), batcher := Reporting(BroadcastError(last)))
    || s' == s.(batches := WithOutcome(s.batches, Sent), batcher := Responding(last))
  }

  ghost predicate ReportFailure(s: State, s': State) {
    && s.batcher.Reporting?
    && s' == if s.errsClosed then s.(panicked := true)
             else s.(errs := s.errs + [s.batcher.report], batcher := AtHead)
  }

  ghost predicate Respond(s: State, s': State) {
    && s.batcher.Responding?
    && s' == if s.respsClosed then s.(panicked := true)
             else s.(resps := s.resps + [s.batcher.batch], batcher := AtHead)
  }

  ghost predicate CloseErrs(s: State, s': State) {
    && s.batcher.ClosingErrs?
    && s' == if s.errsClosed then s.(panicked := true) else s.(errsClosed := true, batcher := ClosingResps)
  }

  ghost predicate CloseResps(s: State, s': State) {
    && s.batcher.ClosingResps?
    && s' == if s.respsClosed then s.(panicked := true) else s.(respsClosed := true, batcher := BatcherEnded)
  }

  ghost predicate BatcherStep(s: State, s': State) {
    || Receive(s, s')
    || ReceiveClosed(s, s')
    || LeaveLoop(s, s')
    || KeepBuffering(s, s')
    || Sign(s, s')
    || Broadcast(s, s')
    || ReportFailure(s, s')
    || Respond(s, s')
    || CloseErrs(s, s')
    || CloseResps(s, s')
  }

  ghost predicate Step(job: Job, s: State, s': State) {
    FilterStep(job, s, s') || BatcherStep(s, s')
  }

  ghost function Protocol(job: Job): System<State> {
    System((s: State) => s == Initial(), (s: State, s': State) => Step(job, s, s'))
  }

  // ---------- The invariant ----------

  /** How control points, channels and closed flags hang together. */
  ghost predicate Controlled(job: Job, s: State) {
    && job.Valid()
    && s.next <= |job.attrs|
    && |s.adds| <= s.next
    && (s.addsClosed <==> s.filter.FilterEnded?)
    && (s.closed ==> s.addsClosed && s.adds == [])
    && (s.errsClosed <==> s.batcher.ClosingResps? || s.batcher.BatcherEnded?)
    && (s.respsClosed <==> s.batcher.BatcherEnded?)
    && (s.batcher.ClosingErrs? || s.errsClosed ==> s.closed)
    && (s.filter.ClosingAdds? || s.filter.FilterEnded? ==> s.next == |job.attrs|)
    && (s.filter.Rejecting? ==> s.next < |job.attrs| && RejectionOf(job, s.next) == [s.filter.report])
    && (s.filter.Adding? ==> s.next < |job.attrs| && MessagesOf(job, s.next) == [s.filter.msg])
    && |s.buff| <= MAX_BATCH
    && (!s.batcher.Checking? ==> |s.buff| < MAX_BATCH && (s.closed ==> s.buff == []))
    && (s.batcher.Broadcasting? <==> s.batches != [] && s.batches[|s.batches| - 1].outcome.InProgress?)
    && (forall k | 0 <= k < |s.batches| - 1 :: !s.batches[k].outcome.InProgress?)
    && !s.panicked
  }

  /** The reports that are decided but not yet received. */
  function PendingReport(s: State): seq<Report> {
    if s.batcher.Reporting? then [s.batcher.report] else []
  }

  function PendingResponse(s: State): seq<nat> {
    if s.batcher.Responding? then [s.batcher.batch] else []
  }

  /** Accepted inputs are in the batches, the buffer or the add channel, in order. */
  ghost predicate MessagesConserved(job: Job, s: State)
    requires job.Valid() && s.next <= |job.attrs|
  {
    Carried(job, s.next, s.batches, s.buff + s.adds)
  }

  ghost predicate ReportsConserved(job: Job, s: State)
    requires job.Valid() && s.next <= |job.attrs|
  {
    && InputsTold(job, s.next, s.errs)
    && BatchesTold(s.errs, PendingReport(s), s.batches)
    && BatchesAnswered(s.resps, PendingResponse(s), s.batches)
    && (s.batcher.Reporting? ==> !s.batcher.report.OfInput())
  }

  ghost predicate CutConserved(s: State) {
    && WellCut(s.batches, s.closed)
    && (s.buff != [] && s.batches != [] ==> |s.batches[|s.batches| - 1].msgs| == MAX_BATCH)
  }

  ghost predicate Conserved(job: Job, s: State) {
    && job.Valid() && s.next <= |job.attrs|
    && MessagesConserved(job, s)
    && ReportsConserved(job, s)
    && CutConserved(s)
  }

  function FilterRank(pc: FilterPc): nat {
    match pc
    case Looking => 3
    case Rejecting(_) => 2
    case Adding(_) => 2
    case ClosingAdds => 1
    case FilterEnded => 0
  }

  function BatcherRank(pc: BatcherPc): nat {
    match pc
    case AtHead => 4
    case Checking => 5
    case Broadcasting => 8
    case Reporting(_) => 7
    case Responding(_) => 7
    case ClosingErrs => 3
    case ClosingResps => 2
    case BatcherEnded => 0
  }

  ghost function Weight(job: Job, s: State): nat {
    12 * (if s.next <= |job.attrs| then |job.attrs| - s.next else 0)
    + 8 * |s.adds| + 6 * |s.buff| + FilterRank(s.filter) + BatcherRank(s.batcher) + if s.closed then 0 else 20
  }

  // ---------- Every step keeps the control part and lowers the weight ----------

  lemma {:induction false} FilterKeepsControl(job: Job, s: State, s': State)
    requires Controlled(job, s) && FilterStep(job, s, s')
    ensures Controlled(job, s') && Weight(job, s') < Weight(job, s)
  {}

  lemma {:induction false} BufferingKeepsControl(job: Job, s: State, s': State)
    requires Controlled(job, s)
    requires Receive(s, s') || ReceiveClosed(s, s') || LeaveLoop(s, s') || KeepBuffering(s, s')
    ensures Controlled(job, s') && Weight(job, s') < Weight(job, s)
  {}

  lemma {:induction false} SigningKeepsControl(job: Job, s: State, s': State)
    requires Controlled(job, s) && Sign(s, s')
    ensures Controlled(job, s') && Weight(job, s') < Weight(job, s)
  {}

  lemma {:induction false} BroadcastingKeepsControl(job: Job, s: State, s': State)
    requires Controlled(job, s) && Broadcast(s, s')
    ensures Controlled(job, s') && Weight(job, s') < Weight(job, s)
  {}

  lemma {:induction false} SendingKeepsControl(job: Job, s: State, s': State)
    requires Controlled(job, s)
    requires ReportFailure(s, s') || Respond(s, s') || CloseErrs(s, s') || CloseResps(s, s')
    ensures Controlled(job, s') && Weight(job, s') < Weight(job, s)
  {}

  lemma {:induction false} StepKeepsControl(job: Job, s: State, s': State)
    requires Controlled(job, s) && Step(job, s, s')
    ensures Controlled(job, s') && Weight(job, s') < Weight(job, s)
  {
    if FilterStep(job, s, s') {
      FilterKeepsControl(job, s, s');
    } else if Receive(s, s') || ReceiveClosed(s, s') || LeaveLoop(s, s') || KeepBuffering(s, s') {
      BufferingKeepsControl(job, s, s');
    } else if Sign(s, s') {
      SigningKeepsControl(job, s, s');
    } else if Broadcast(s, s') {
      BroadcastingKeepsControl(job, s, s');
    } else {
      SendingKeepsControl(job, s, s');
    }
  }

  // ---------- Every step keeps the accounts ----------

  /** The fields the accounts speak of, but for the control points. */
  ghost predicate SameAccounts(s: State, s': State) {
    && s'.next == s.next && s'.errs == s.errs && s'.resps == s.resps && s'.batches == s.batches
    && s'.buff + s'.adds == s.buff + s.adds
    && PendingReport(s') == PendingReport(s) && PendingResponse(s') == PendingResponse(s)
    && (s'.batcher.Reporting? ==> s.batcher.Reporting?)
  }

  lemma {:induction false} SameCut(s: State, s': State)
    requires CutConserved(s) && s'.batches == s.batches && s'.closed == s.closed && s'.buff == s.buff
    ensures CutConserved(s')
  {}

  lemma {:induction false} SameAccountsConserve(job: Job, s: State, s': State)
    requires Controlled(job, s) && Conserved(job, s) && SameAccounts(s, s')
    ensures MessagesConserved(job, s') && ReportsConserved(job, s')
  {}

  lemma {:induction false} RejectMoves(job: Job, s: State, s': State)
    requires Controlled(job, s) && Reject(s, s')
    ensures s'.next == s.next + 1 <= |job.attrs| && RejectionOf(job, s.next) == [s.filter.report]
    ensures s'.errs == s.errs + [s.filter.report] && s'.resps == s.resps
    ensures s'.batches == s.batches && s'.buff == s.buff && s'.adds == s.adds
    ensures s'.batcher == s.batcher && s'.closed == s.closed
  {}

  lemma {:induction false} RejectedConserves(job: Job, s: State, s': State, r: Report)
    requires job.Valid() && s.next < |job.attrs| && RejectionOf(job, s.next) == [r]
    requires MessagesConserved(job, s) && ReportsConserved(job, s)
    requires s'.next == s.next + 1 && s'.errs == s.errs + [r] && s'.resps == s.resps
    requires s'.batches == s.batches && s'.buff == s.buff && s'.adds == s.adds && s'.batcher == s.batcher
    ensures MessagesConserved(job, s') && ReportsConserved(job, s')
  {
    RejectedIsNotCarried(job, s.next, s.batches, s.buff + s.adds);
    RejectedIsTold(job, s.next, s.errs, r);
    InputReportLeavesBatches(s.errs, r, PendingReport(s), s.batches);
  }

  lemma {:induction false} AddMoves(job: Job, s: State, s': State)
    requires Controlled(job, s) && Add(job, s, s')
    ensures s'.next == s.next + 1 <= |job.attrs| && MessagesOf(job, s.next) == [s.filter.msg]
    ensures s'.errs == s.errs && s'.resps == s.resps && s'.batches == s.batches
    ensures s'.buff == s.buff && s'.adds == s.adds + [s.filter.msg]
    ensures s'.batcher == s.batcher && s'.closed == s.closed
  {}

  lemma {:induction false} AddedConserves(job: Job, s: State, s': State, m: Message)
    requires job.Valid() && s.next < |job.attrs| && MessagesOf(job, s.next) == [m]
    requires MessagesConserved(job, s) && ReportsConserved(job, s)
    requires s'.next == s.next + 1 && s'.errs == s.errs && s'.resps == s.resps
    requires s'.batches == s.batches && s'.buff + s'.adds == s.buff + s.adds + [m] && s'.batcher == s.batcher
    ensures MessagesConserved(job, s') && ReportsConserved(job, s')
  {
    AcceptedIsCarried(job, s.next, s.batches, s.buff + s.adds, m);
    AcceptedIsNotTold(job, s.next, s.errs);
  }

  /** The batch that signing makes of the buffer. */
  function NewBatch(s: State, outcome: Outcome): Batch {
    Batch(s.buff, FEE_PER_ATTRIBUTE * |s.buff|, outcome)
  }

  lemma {:induction false} SigningAppends(s: State, s': State)
    requires Sign(s, s')
    ensures var outcome := if s'.batcher.Reporting? then NotSigned else InProgress;
            && s'.batches == s.batches + [NewBatch(s, outcome)] && s'.buff == []
            && s'.adds == s.adds && s'.next == s.next && s'.closed == s.closed
            && s'.errs == s.errs && s'.resps == s.resps
            && PendingReport(s) == [] && PendingResponse(s) == [] && PendingResponse(s') == []
            && PendingReport(s') == FailureOf(NewBatch(s, outcome), |s.batches|)
            && (s'.batcher.Reporting? ==> !s'.batcher.report.OfInput())
  {}

  lemma {:induction false} SigningConserves(job: Job, s: State, s': State)
    requires Controlled(job, s) && Conserved(job, s) && Sign(s, s')
    ensures MessagesConserved(job, s') && ReportsConserved(job, s')
  {
    var b := NewBatch(s, if s'.batcher.Reporting? then NotSigned else InProgress);
    SigningAppends(s, s');
    BufferIsCarried(job, s.next, s.batches, s.buff, s.adds, b);
    NewBatchIsTold(s.errs, s.batches, b);
    NewBatchIsAnswered(s.resps, s.batches, b);
    assert s'.buff + s'.adds == s.adds;
  }

  lemma {:induction false} SigningCutsWell(job: Job, s: State, s': State)
    requires Controlled(job, s) && CutConserved(s) && Sign(s, s')
    ensures CutConserved(s')
  {
    SigningAppends(s, s');
    CutOneMore(s.batches, NewBatch(s, if s'.batcher.Reporting? then NotSigned else InProgress), s.closed);
  }

  lemma {:induction false} BroadcastDecides(s: State, s': State)
    requires Broadcast(s, s')
    ensures var k := |s.batches| - 1;
            var outcome := if s'.batcher.Responding? then Sent else NotBroadcast;
            && s'.batches == WithOutcome(s.batches, outcome)
            && s'.buff == s.buff && s'.adds == s.adds && s'.next == s.next && s'.closed == s.closed
            && s'.errs == s.errs && s'.resps == s.resps
            && PendingReport(s) == [] && PendingResponse(s) == []
            && PendingReport(s') == FailureOf(s'.batches[k], k)
            && PendingResponse(s') == (if outcome.Sent? then [k] else [])
            && (s'.batcher.Reporting? ==> !s'.batcher.report.OfInput())
  {}

  lemma {:induction false} BroadcastingConserves(job: Job, s: State, s': State)
    requires Controlled(job, s) && Conserved(job, s) && Broadcast(s, s')
    ensures MessagesConserved(job, s') && ReportsConserved(job, s')
  {
    var outcome := if s'.batcher.Responding? then Sent else NotBroadcast;
    BroadcastDecides(s, s');
    DecidedIsCarried(job, s.next, s.batches, s.buff + s.adds, outcome);
    DecidedIsTold(s.errs, s.batches, outcome);
    DecidedIsAnswered(s.resps, s.batches, outcome);
  }

  lemma {:induction false} BroadcastingCutsWell(job: Job, s: State, s': State)
    requires Controlled(job, s) && CutConserved(s) && Broadcast(s, s')
    ensures CutConserved(s')
  {
    BroadcastDecides(s, s');
    CutDecided(s.batches, if s'.batcher.Responding? then Sent else NotBroadcast, s.closed);
  }

  lemma {:induction false} ReportingConserves(job: Job, s: State, s': State)
    requires Controlled(job, s) && MessagesConserved(job, s) && ReportsConserved(job, s) && ReportFailure(s, s')
    ensures MessagesConserved(job, s') && ReportsConserved(job, s')
  {
    var r := s.batcher.report;
    PendingIsTold(s.errs, r, s.batches);
    BatchReportLeavesInputs(job, s.next, s.errs, r);
    assert s'.errs == s.errs + [r] && PendingReport(s') == [] && PendingResponse(s') == PendingResponse(s);
  }

  lemma {:induction false} RespondingConserves(job: Job, s: State, s': State)
    requires Controlled(job, s) && MessagesConserved(job, s) && ReportsConserved(job, s) && Respond(s, s')
    ensures MessagesConserved(job, s') && ReportsConserved(job, s')
  {
    PendingIsAnswered(s.resps, s.batcher.batch, s.batches);
    assert PendingReport(s') == PendingReport(s) && PendingResponse(s') == [];
  }

  lemma {:induction false} QuietFilterLeavesAccounts(job: Job, s: State, s': State)
    requires LookUp(job, s, s') || CloseAdds(s, s')
    ensures SameAccounts(s, s') && s'.buff == s.buff && s'.closed == s.closed
  {}

  ghost predicate QuietBatcher(s: State, s': State) {
    ReceiveClosed(s, s') || LeaveLoop(s, s') || KeepBuffering(s, s') || CloseErrs(s, s') || CloseResps(s, s')
  }

  lemma {:induction false} QuietBatcherLeavesAccounts(s: State, s': State)
    requires QuietBatcher(s, s')
    ensures SameAccounts(s, s')
  {}

  lemma {:induction false} ReceivingLeavesAccounts(s: State, s': State)
    requires Receive(s, s')
    ensures SameAccounts(s, s')
  {
    assert s.adds == [s.adds[0]] + s.adds[1..];
  }

  lemma {:induction false} QuietBatcherCutsWell(job: Job, s: State, s': State)
    requires Controlled(job, s) && CutConserved(s) && (QuietBatcher(s, s') || Receive(s, s'))
    ensures CutConserved(s')
  {}

  lemma {:induction false} RejectingConserves(job: Job, s: State, s': State)
    requires Controlled(job, s) && Conserved(job, s) && Reject(s, s')
    ensures Conserved(job, s')
  {
    RejectMoves(job, s, s');
    RejectedConserves(job, s, s', s.filter.report);
    SameCut(s, s');
  }

  lemma {:induction false} AddingConserves(job: Job, s: State, s': State)
    requires Controlled(job, s) && Conserved(job, s) && Add(job, s, s')
    ensures Conserved(job, s')
  {
    AddMoves(job, s, s');
    AddedConserves(job, s, s', s.filter.msg);
    SameCut(s, s');
  }

  lemma {:induction false} QuietFilterConserves(job: Job, s: State, s': State)
    requires Controlled(job, s) && Conserved(job, s) && (LookUp(job, s, s') || CloseAdds(s, s'))
    ensures Conserved(job, s')
  {
    QuietFilterLeavesAccounts(job, s, s');
    SameAccountsConserve(job, s, s');
    SameCut(s, s');
  }

  lemma {:induction false} SendingConserves(job: Job, s: State, s': State)
    requires Controlled(job, s) && Conserved(job, s) && (ReportFailure(s, s') || Respond(s, s'))
    ensures Conserved(job, s')
  {
    if ReportFailure(s, s') {
      ReportingConserves(job, s, s');
    } else {
      RespondingConserves(job, s, s');
    }
    SameCut(s, s');
  }

  lemma {:induction false} BufferingConserves(job: Job, s: State, s': State)
    requires Controlled(job, s) && Conserved(job, s) && (QuietBatcher(s, s') || Receive(s, s'))
    ensures Conserved(job, s')
  {
    if Receive(s, s') {
      ReceivingLeavesAccounts(s, s');
    } else {
      QuietBatcherLeavesAccounts(s, s');
    }
    SameAccountsConserve(job, s, s');
    QuietBatcherCutsWell(job, s, s');
  }

  lemma {:induction false} SubmittingConserves(job: Job, s: State, s': State)
    requires Controlled(job, s) && Conserved(job, s) && (Sign(s, s') || Broadcast(s, s'))
    ensures Conserved(job, s')
  {
    if Sign(s, s') {
      SigningConserves(job, s, s');
      SigningCutsWell(job, s, s');
    } else {
      BroadcastingConserves(job, s, s');
      BroadcastingCutsWell(job, s, s');
    }
  }

  lemma {:induction false} StepConserves(job: Job, s: State, s': State)
    requires Controlled(job, s) && Conserved(job, s) && Step(job, s, s')
    ensures Conserved(job, s')
  {
    if Reject(s, s') {
      RejectingConserves(job, s, s');
    } else if Add(job, s, s') {
      AddingConserves(job, s, s');
    } else if LookUp(job, s, s') || CloseAdds(s, s') {
      QuietFilterConserves(job, s, s');
    } else if Sign(s, s') || Broadcast(s, s') {
      SubmittingConserves(job, s, s');
    } else if ReportFailure(s, s') || Respond(s, s') {
      SendingConserves(job, s, s');
    } else {
      BufferingConserves(job, s, s');
    }
  }
}
