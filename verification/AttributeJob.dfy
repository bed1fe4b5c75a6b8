/** What AddAttributes is to do with a list of attributes: which are turned down and why,
    which become messages, and how messages are cut into transactions. Plain sequences. */
module AttributeJob {

  const MAX_BATCH: nat := 75
  const FEE_PER_ATTRIBUTE: nat := 10_000_000_000

  datatype Attribute = Attribute(name: string, acct: string, jsonValue: string)

  /** What GetAttributes answers for an input: an error, some attributes, or none. */
  datatype Lookup = LookupFailed | Exists | Absent

  datatype Message = Message(name: string, value: string, account: string, owner: string)

  /** A value sent on the error channel, with the input or the batch it is about. */
  datatype Report =
    | LookupError(input: nat)
    | AlreadyExists(input: nat)
    | SignError(batch: nat)
    | BroadcastError(batch: nat)
  {
    predicate OfInput() { LookupError? || AlreadyExists? }
  }

  datatype Outcome = InProgress | NotSigned | NotBroadcast | Sent

  /** A transaction: its messages, the additional fee given to SignTx, and its fate. */
  datatype Batch = Batch(msgs: seq<Message>, fee: nat, outcome: Outcome)

  datatype Job = Job(attrs: seq<Attribute>, lookups: seq<Lookup>, owner: string) {
    predicate Valid() { |lookups| == |attrs| }
  }

  function MessageFor(job: Job, i: nat): Message
    requires i < |job.attrs|
  {
    var a := job.attrs[i];
    Message(a.name, if a.jsonValue == "" then "{}" else a.jsonValue, a.acct, job.owner)
  }

  function RejectionOf(job: Job, i: nat): seq<Report>
    requires job.Valid() && i < |job.attrs|
  {
    match job.lookups[i]
    case LookupFailed => [LookupError(i)]
    case Exists => [AlreadyExists(i)]
    case Absent => []
  }

  function MessagesOf(job: Job, i: nat): seq<Message>
    requires job.Valid() && i < |job.attrs|
  {
    if job.lookups[i].Absent? then [MessageFor(job, i)] else []
  }

  /** The messages of the first k inputs, in input order. */
  function Accepted(job: Job, k: nat): seq<Message>
    requires job.Valid() && k <= |job.attrs|
  {
    if k == 0 then [] else Accepted(job, k - 1) + MessagesOf(job, k - 1)
  }

  /** The reports on the first k inputs, in input order. */
  function Rejected(job: Job, k: nat): seq<Report>
    requires job.Valid() && k <= |job.attrs|
  {
    if k == 0 then [] else Rejected(job, k - 1) + RejectionOf(job, k - 1)
  }

  /** Each input is turned down once or accepted once. */
  lemma {:induction false} EachInputOnce(job: Job, k: nat)
    requires job.Valid() && k <= |job.attrs|
    ensures |Accepted(job, k)| + |Rejected(job, k)| == k
  {
    if k > 0 {
      EachInputOnce(job, k - 1);
    }
  }

  // ---------- Batches ----------

  function AllMessages(batches: seq<Batch>): seq<Message> {
    if batches == [] then [] else AllMessages(batches[..|batches| - 1]) + batches[|batches| - 1].msgs
  }

  function TotalFee(batches: seq<Batch>): nat {
    if batches == [] then 0 else TotalFee(batches[..|batches| - 1]) + batches[|batches| - 1].fee
  }

  function FailureOf(b: Batch, k: nat): seq<Report> {
    match b.outcome
    case NotSigned => [SignError(k)]
    case NotBroadcast => [BroadcastError(k)]
    case _ => []
  }

  /** The reports on failed batches, in batch order. */
  function Failures(batches: seq<Batch>): seq<Report> {
    if batches == [] then []
    else
      var last := |batches| - 1;
      Failures(batches[..last]) + FailureOf(batches[last], last)
  }

  /** The numbers of the batches that were sent. */
  function Responses(batches: seq<Batch>): seq<nat> {
    if batches == [] then []
    else
      var last := |batches| - 1;
      Responses(batches[..last]) + if batches[last].outcome.Sent? then [last] else []
  }

  lemma {:induction false} OneMoreBatch(batches: seq<Batch>, b: Batch)
    ensures AllMessages(batches + [b]) == AllMessages(batches) + b.msgs
    ensures TotalFee(batches + [b]) == TotalFee(batches) + b.fee
    ensures Failures(batches + [b]) == Failures(batches) + FailureOf(b, |batches|)
    ensures Responses(batches + [b]) == Responses(batches) + if b.outcome.Sent? then [|batches|] else []
  {
    assert (batches + [b])[..|batches|] == batches;
  }

  predicate WellFormed(b: Batch) {
    0 < |b.msgs| <= MAX_BATCH && b.fee == FEE_PER_ATTRIBUTE * |b.msgs|
  }

  /** Every batch but the last is full; the last may be short once the input has ended. */
  predicate WellCut(batches: seq<Batch>, ended: bool) {
    && (forall b | b in batches :: WellFormed(b))
    && (forall k | 0 <= k < |batches| :: |batches[k].msgs| == MAX_BATCH || (ended && k == |batches| - 1))
  }

  lemma {:induction false} CutOneMore(batches: seq<Batch>, b: Batch, ended: bool)
    requires WellCut(batches, ended) && WellFormed(b)
    requires batches != [] ==> |batches[|batches| - 1].msgs| == MAX_BATCH
    requires |b.msgs| == MAX_BATCH || ended
    ensures WellCut(batches + [b], ended)
  {}

  /** The fate of the last batch is recorded. */
  function WithOutcome(batches: seq<Batch>, outcome: Outcome): seq<Batch>
    requires batches != []
  {
    batches[..|batches| - 1] + [batches[|batches| - 1].(outcome := outcome)]
  }

  lemma {:induction false} LastBatchDecided(batches: seq<Batch>, outcome: Outcome)
    requires batches != [] && batches[|batches| - 1].outcome.InProgress?
    ensures var k := |batches| - 1;
            var batches' := WithOutcome(batches, outcome);
            && AllMessages(batches') == AllMessages(batches)
            && Failures(batches') == Failures(batches) + FailureOf(batches'[k], k)
            && Responses(batches') == Responses(batches) + if outcome.Sent? then [k] else []
  {
    var k := |batches| - 1;
    var batches' := WithOutcome(batches, outcome);
    assert batches'[..k] == batches[..k] && batches'[k].msgs == batches[k].msgs;
    assert FailureOf(batches[k], k) == [];
    assert Failures(batches[..k]) + [] == Failures(batches[..k]);
    assert Responses(batches[..k]) + [] == Responses(batches[..k]);
  }

  lemma {:induction false} CutDecided(batches: seq<Batch>, outcome: Outcome, ended: bool)
    requires batches != [] && WellCut(batches, ended)
    ensures WellCut(WithOutcome(batches, outcome), ended)
  {
    var batches' := WithOutcome(batches, outcome);
    forall k | 0 <= k < |batches'|
      ensures WellFormed(batches'[k]) && batches'[k].msgs == batches[k].msgs
    {
      assert batches[k] in batches;
    }
  }

  lemma {:induction false} FeesAddUp(batches: seq<Batch>, ended: bool)
    requires WellCut(batches, ended)
    ensures TotalFee(batches) == FEE_PER_ATTRIBUTE * |AllMessages(batches)|
  {
    if batches != [] {
      assert batches[|batches| - 1] in batches;
      FeesAddUp(batches[..|batches| - 1], ended);
    }
  }

  lemma {:induction false} FullBatches(batches: seq<Batch>, ended: bool)
    requires WellCut(batches, ended)
    ensures batches != [] ==>
              |AllMessages(batches)| == MAX_BATCH * (|batches| - 1) + |batches[|batches| - 1].msgs|
  {
    if |batches| > 1 {
      var front := batches[..|batches| - 1];
      assert forall k | 0 <= k < |front| :: front[k] == batches[k];
      FullBatches(front, false);
    }
  }

  /** Full batches and one rest: the number of transactions is the least possible. */
  lemma {:induction false} BatchesNeeded(batches: seq<Batch>, ended: bool)
    requires WellCut(batches, ended)
    ensures |batches| == (|AllMessages(batches)| + MAX_BATCH - 1) / MAX_BATCH
  {
    FullBatches(batches, ended);
    if batches != [] {
      assert batches[|batches| - 1] in batches;
    }
  }

  /** Each finished batch is reported once or answered once. */
  lemma {:induction false} EachBatchOnce(batches: seq<Batch>)
    requires forall b | b in batches :: !b.outcome.InProgress?
    ensures |Failures(batches)| + |Responses(batches)| == |batches|
  {
    if batches != [] {
      assert batches[|batches| - 1] in batches;
      EachBatchOnce(batches[..|batches| - 1]);
    }
  }

  // ---------- The error channel as two streams ----------

  /** The part of the error channel that is about inputs, in order. */
  function OfInputs(errs: seq<Report>): seq<Report> {
    if errs == [] then []
    else
      var last := |errs| - 1;
      OfInputs(errs[..last]) + if errs[last].OfInput() then [errs[last]] else []
  }

  /** The part of the error channel that is about batches, in order. */
  function OfBatches(errs: seq<Report>): seq<Report> {
    if errs == [] then []
    else
      var last := |errs| - 1;
      OfBatches(errs[..last]) + if errs[last].OfInput() then [] else [errs[last]]
  }

  lemma {:induction false} OneMoreReport(errs: seq<Report>, r: Report)
    ensures OfInputs(errs + [r]) == OfInputs(errs) + if r.OfInput() then [r] else []
    ensures OfBatches(errs + [r]) == OfBatches(errs) + if r.OfInput() then [] else [r]
  {
    assert (errs + [r])[..|errs|] == errs;
  }

  lemma {:induction false} TwoStreams(errs: seq<Report>)
    ensures multiset(errs) == multiset(OfInputs(errs)) + multiset(OfBatches(errs))
    ensures |errs| == |OfInputs(errs)| + |OfBatches(errs)|
  {
    if errs != [] {
      var last := |errs| - 1;
      assert errs == errs[..last] + [errs[last]];
      TwoStreams(errs[..last]);
    }
  }

  // ---------- The accounts while the work is under way ----------

  /** The first `next` inputs that are accepted are in the batches or waiting, in order. */
  ghost predicate Carried(job: Job, next: nat, batches: seq<Batch>, waiting: seq<Message>)
    requires job.Valid() && next <= |job.attrs|
  {
    AllMessages(batches) + waiting == Accepted(job, next)
  }

  /** The error channel has carried the rejections among the first `next` inputs. */
  ghost predicate InputsTold(job: Job, next: nat, errs: seq<Report>)
    requires job.Valid() && next <= |job.attrs|
  {
    OfInputs(errs) == Rejected(job, next)
  }

  /** The error channel has carried the failures of batches, but for those pending. */
  ghost predicate BatchesTold(errs: seq<Report>, pending: seq<Report>, batches: seq<Batch>) {
    OfBatches(errs) + pending == Failures(batches)
  }

  ghost predicate BatchesAnswered(resps: seq<nat>, pending: seq<nat>, batches: seq<Batch>) {
    resps + pending == Responses(batches)
  }

  lemma {:induction false} RejectedIsNotCarried(job: Job, next: nat, batches: seq<Batch>, waiting: seq<Message>)
    requires job.Valid() && next < |job.attrs| && RejectionOf(job, next) != []
    requires Carried(job, next, batches, waiting)
    ensures Carried(job, next + 1, batches, waiting)
  {
    assert Accepted(job, next + 1) == Accepted(job, next) + [];
  }

  lemma {:induction false} RejectedIsTold(job: Job, next: nat, errs: seq<Report>, r: Report)
    requires job.Valid() && next < |job.attrs| && RejectionOf(job, next) == [r]
    requires InputsTold(job, next, errs)
    ensures r.OfInput() && InputsTold(job, next + 1, errs + [r])
  {
    OneMoreReport(errs, r);
  }

  lemma {:induction false} InputReportLeavesBatches(
    errs: seq<Report>, r: Report, pending: seq<Report>, batches: seq<Batch>)
    requires r.OfInput() && BatchesTold(errs, pending, batches)
    ensures BatchesTold(errs + [r], pending, batches)
  {
    OneMoreReport(errs, r);
  }

  lemma {:induction false} Regroup<T>(xs: seq<T>, ys: seq<T>, zs: seq<T>)
    ensures xs + ys + zs == xs + (ys + zs)
  {}

  lemma {:induction false} AcceptedIsCarried(
    job: Job, next: nat, batches: seq<Batch>, waiting: seq<Message>, m: Message)
    requires job.Valid() && next < |job.attrs| && MessagesOf(job, next) == [m]
    requires Carried(job, next, batches, waiting)
    ensures Carried(job, next + 1, batches, waiting + [m])
  {
    Regroup(AllMessages(batches), waiting, [m]);
  }

  lemma {:induction false} AcceptedIsNotTold(job: Job, next: nat, errs: seq<Report>)
    requires job.Valid() && next < |job.attrs| && MessagesOf(job, next) != []
    requires InputsTold(job, next, errs)
    ensures InputsTold(job, next + 1, errs)
  {
    assert Rejected(job, next + 1) == Rejected(job, next) + [];
  }

  lemma {:induction false} BufferIsCarried(
    job: Job, next: nat, batches: seq<Batch>, buff: seq<Message>, rest: seq<Message>, b: Batch)
    requires job.Valid() && next <= |job.attrs| && b.msgs == buff
    requires Carried(job, next, batches, buff + rest)
    ensures Carried(job, next, batches + [b], rest)
  {
    OneMoreBatch(batches, b);
    Regroup(AllMessages(batches), buff, rest);
  }

  lemma {:induction false} NewBatchIsTold(errs: seq<Report>, batches: seq<Batch>, b: Batch)
    requires BatchesTold(errs, [], batches)
    ensures BatchesTold(errs, FailureOf(b, |batches|), batches + [b])
  {
    OneMoreBatch(batches, b);
    assert OfBatches(errs) + [] == OfBatches(errs);
  }

  lemma {:induction false} NewBatchIsAnswered(resps: seq<nat>, batches: seq<Batch>, b: Batch)
    requires BatchesAnswered(resps, [], batches) && !b.outcome.Sent?
    ensures BatchesAnswered(resps, [], batches + [b])
  {
    OneMoreBatch(batches, b);
    assert Responses(batches) + [] == Responses(batches);
  }

  lemma {:induction false} PendingIsTold(errs: seq<Report>, r: Report, batches: seq<Batch>)
    requires !r.OfInput() && BatchesTold(errs, [r], batches)
    ensures BatchesTold(errs + [r], [], batches)
  {
    OneMoreReport(errs, r);
    assert OfBatches(errs) + [r] + [] == OfBatches(errs) + [r];
  }

  lemma {:induction false} BatchReportLeavesInputs(job: Job, next: nat, errs: seq<Report>, r: Report)
    requires job.Valid() && next <= |job.attrs|
    requires !r.OfInput() && InputsTold(job, next, errs)
    ensures InputsTold(job, next, errs + [r])
  {
    OneMoreReport(errs, r);
  }

  lemma {:induction false} PendingIsAnswered(resps: seq<nat>, k: nat, batches: seq<Batch>)
    requires BatchesAnswered(resps, [k], batches)
    ensures BatchesAnswered(resps + [k], [], batches)
  {
    assert resps + [k] + [] == resps + [k];
  }

  lemma {:induction false} DecidedIsCarried(
    job: Job, next: nat, batches: seq<Batch>, waiting: seq<Message>, outcome: Outcome)
    requires job.Valid() && next <= |job.attrs|
    requires batches != [] && batches[|batches| - 1].outcome.InProgress?
    requires Carried(job, next, batches, waiting)
    ensures Carried(job, next, WithOutcome(batches, outcome), waiting)
  {
    LastBatchDecided(batches, outcome);
  }

  lemma {:induction false} DecidedIsTold(errs: seq<Report>, batches: seq<Batch>, outcome: Outcome)
    requires batches != [] && batches[|batches| - 1].outcome.InProgress?
    requires BatchesTold(errs, [], batches)
    ensures var k := |batches| - 1;
            BatchesTold(errs, FailureOf(WithOutcome(batches, outcome)[k], k), WithOutcome(batches, outcome))
  {
    LastBatchDecided(batches, outcome);
    assert OfBatches(errs) + [] == OfBatches(errs);
  }

  lemma {:induction false} DecidedIsAnswered(resps: seq<nat>, batches: seq<Batch>, outcome: Outcome)
    requires batches != [] && batches[|batches| - 1].outcome.InProgress?
    requires BatchesAnswered(resps, [], batches)
    ensures BatchesAnswered(resps, if outcome.Sent? then [|batches| - 1] else [], WithOutcome(batches, outcome))
  {
    LastBatchDecided(batches, outcome);
    assert resps + [] == resps;
  }
}
