/** What AddAttributes delivers, said of the inputs and the transactions themselves: which
    input each message of each transaction asks for, and which report or answer there is. */
module AttributeShipment {
  import opened Sequences
  import opened AttributeJob

  /** The message asks for input i. */
  ghost predicate Asks(job: Job, i: nat, m: Message) {
    && i < |job.attrs|
    && m.name == job.attrs[i].name
    && m.account == job.attrs[i].acct
    && m.owner == job.owner
    && (job.attrs[i].jsonValue == "" ==> m.value == "{}")
    && (job.attrs[i].jsonValue != "" ==> m.value == job.attrs[i].jsonValue)
  }

  /** The inputs whose lookup finds nothing, in order. */
  ghost predicate Chosen(job: Job, idx: seq<nat>, n: nat)
    requires job.Valid() && n <= |job.attrs|
  {
    Increasing(idx) && forall i: nat :: i in idx <==> i < n && job.lookups[i].Absent?
  }

  /** Transaction k carries the chosen inputs from 75 k on, 75 of them or all that are left,
      and pays for them. */
  ghost predicate ShipsBatch(job: Job, b: Batch, idx: seq<nat>, k: nat) {
    && 75 * k < |idx|
    && |b.msgs| == (if 75 * (k + 1) <= |idx| then 75 else |idx| - 75 * k)
    && b.fee == 10_000_000_000 * |b.msgs|
    && forall j | 0 <= j < |b.msgs| :: Asks(job, idx[75 * k + j], b.msgs[j])
  }

  ghost predicate Ships(job: Job, batches: seq<Batch>, idx: seq<nat>)
    requires job.Valid()
  {
    && Chosen(job, idx, |job.attrs|)
    && |batches| == (|idx| + 74) / 75
    && forall k | 0 <= k < |batches| :: ShipsBatch(job, batches[k], idx, k)
  }

  ghost predicate Before(r: Report, s: Report) {
    && (r.OfInput() && s.OfInput() ==> r.input < s.input)
    && (!r.OfInput() && !s.OfInput() ==> r.batch < s.batch)
  }

  /** Reports about inputs come in the order of the inputs, those about transactions in
      the order of the transactions; none comes twice. */
  ghost predicate InOrder(errs: seq<Report>) {
    forall p, q | 0 <= p < q < |errs| :: Before(errs[p], errs[q])
  }

  /** There is a report for each failed lookup, existing attribute and failed transaction,
      a response for each transaction sent, and nothing else. */
  ghost predicate Told(job: Job, batches: seq<Batch>, errs: seq<Report>, resps: seq<nat>)
    requires job.Valid()
  {
    && (forall i: nat :: LookupError(i) in errs <==> i < |job.attrs| && job.lookups[i].LookupFailed?)
    && (forall i: nat :: AlreadyExists(i) in errs <==> i < |job.attrs| && job.lookups[i].Exists?)
    && (forall k: nat :: SignError(k) in errs <==> k < |batches| && batches[k].outcome.NotSigned?)
    && (forall k: nat :: BroadcastError(k) in errs <==> k < |batches| && batches[k].outcome.NotBroadcast?)
    && InOrder(errs)
    && Increasing(resps) && (forall k: nat :: k in resps <==> k < |batches| && batches[k].outcome.Sent?)
  }

  // ---------- The messages ----------

  ghost predicate AskAll(job: Job, idx: seq<nat>, msgs: seq<Message>) {
    |idx| == |msgs| && forall k | 0 <= k < |idx| :: Asks(job, idx[k], msgs[k])
  }

  lemma {:induction false} OneMoreChosen(job: Job, idx: seq<nat>, msgs: seq<Message>, n: nat) returns (idx': seq<nat>)
    requires job.Valid() && n < |job.attrs| && Chosen(job, idx, n) && AskAll(job, idx, msgs)
    ensures Chosen(job, idx', n + 1) && AskAll(job, idx', msgs + MessagesOf(job, n))
  {
    if job.lookups[n].Absent? {
      IncreasingMore(idx, n);
      idx' := idx + [n];
    } else {
      assert msgs + [] == msgs;
      idx' := idx;
    }
  }

  lemma {:induction false} AcceptedOneMore(job: Job, n: nat)
    requires job.Valid() && n < |job.attrs|
    ensures Accepted(job, n + 1) == Accepted(job, n) + MessagesOf(job, n)
  {}

  lemma {:induction false} AcceptedAreChosen(job: Job, n: nat) returns (idx: seq<nat>)
    requires job.Valid() && n <= |job.attrs|
    ensures Chosen(job, idx, n) && AskAll(job, idx, Accepted(job, n))
  {
    if n == 0 {
      idx := [];
    } else {
      var front := AcceptedAreChosen(job, n - 1);
      idx := OneMoreChosen(job, front, Accepted(job, n - 1), n - 1);
      AcceptedOneMore(job, n - 1);
    }
  }

  lemma {:induction false} FrontIsFull(batches: seq<Batch>, ended: bool)
    requires WellCut(batches, ended) && batches != []
    ensures WellCut(batches[..|batches| - 1], false)
    ensures |AllMessages(batches[..|batches| - 1])| == 75 * (|batches| - 1)
  {
    var front := batches[..|batches| - 1];
    assert forall k | 0 <= k < |front| :: front[k] == batches[k];
    FullBatches(front, false);
  }

  /** Message j of a transaction stands 75 messages after that of the transaction before. */
  lemma {:induction false} MessageAt(batches: seq<Batch>, ended: bool, k: nat, j: nat)
    requires WellCut(batches, ended) && k < |batches| && j < |batches[k].msgs|
    ensures 75 * k + j < |AllMessages(batches)| && AllMessages(batches)[75 * k + j] == batches[k].msgs[j]
  {
    var last := |batches| - 1;
    var front := batches[..last];
    FrontIsFull(batches, ended);
    if k < last {
      assert forall i | 0 <= i < last :: front[i] == batches[i];
      MessageAt(front, false, k, j);
    }
  }

  lemma {:induction false} BatchIsShipped(job: Job, batches: seq<Batch>, idx: seq<nat>, k: nat)
    requires job.Valid() && WellCut(batches, true) && k < |batches|
    requires AskAll(job, idx, AllMessages(batches))
    ensures ShipsBatch(job, batches[k], idx, k)
  {
    var b := batches[k];
    assert b in batches && WellFormed(b);
    FullBatches(batches, true);
    assert batches[|batches| - 1] in batches;
    forall j | 0 <= j < |b.msgs| ensures 75 * k + j < |idx| && Asks(job, idx[75 * k + j], b.msgs[j]) {
      MessageAt(batches, true, k, j);
    }
  }

  lemma {:induction false} ShipsAll(job: Job, batches: seq<Batch>) returns (idx: seq<nat>)
    requires job.Valid() && WellCut(batches, true) && AllMessages(batches) == Accepted(job, |job.attrs|)
    ensures Ships(job, batches, idx)
  {
    idx := AcceptedAreChosen(job, |job.attrs|);
    BatchesNeeded(batches, true);
    forall k | 0 <= k < |batches| ensures ShipsBatch(job, batches[k], idx, k) {
      BatchIsShipped(job, batches, idx, k);
    }
  }

  // ---------- The reports ----------

  lemma {:induction false} InOrderMore(rs: seq<Report>, r: Report)
    requires InOrder(rs) && forall s | s in rs :: Before(s, r)
    ensures InOrder(rs + [r])
  {
    forall p | 0 <= p < |rs| ensures Before(rs[p], r) {
      assert rs[p] in rs;
    }
  }

  ghost predicate RejectedAre(job: Job, n: nat, rs: seq<Report>)
    requires job.Valid() && n <= |job.attrs|
  {
    && (forall i: nat :: LookupError(i) in rs <==> i < n && job.lookups[i].LookupFailed?)
    && (forall i: nat :: AlreadyExists(i) in rs <==> i < n && job.lookups[i].Exists?)
    && (forall r | r in rs :: r.OfInput() && r.input < n)
    && InOrder(rs)
  }

  lemma {:induction false} OneMoreRejected(job: Job, n: nat, rs: seq<Report>)
    requires job.Valid() && n < |job.attrs| && RejectedAre(job, n, rs)
    ensures RejectedAre(job, n + 1, rs + RejectionOf(job, n))
  {
    match job.lookups[n] {
      case LookupFailed => InOrderMore(rs, LookupError(n));
      case Exists => InOrderMore(rs, AlreadyExists(n));
      case Absent => assert rs + [] == rs;
    }
  }

  lemma {:induction false} RejectedOneMore(job: Job, n: nat)
    requires job.Valid() && n < |job.attrs|
    ensures Rejected(job, n + 1) == Rejected(job, n) + RejectionOf(job, n)
  {}

  /** Counting up, so that each step is one application of the lemma above. */
  lemma {:induction false} RejectedInOrder(job: Job)
    requires job.Valid()
    ensures RejectedAre(job, |job.attrs|, Rejected(job, |job.attrs|))
  {
    var n := 0;
    var rs := [];
    while n < |job.attrs|
      invariant n <= |job.attrs| && rs == Rejected(job, n)
      invariant RejectedAre(job, n, rs)
    {
      OneMoreRejected(job, n, rs);
      RejectedOneMore(job, n);
      rs := rs + RejectionOf(job, n);
      n := n + 1;
    }
  }

  ghost predicate FailuresAre(batches: seq<Batch>, rs: seq<Report>) {
    && (forall k: nat :: SignError(k) in rs <==> k < |batches| && batches[k].outcome.NotSigned?)
    && (forall k: nat :: BroadcastError(k) in rs <==> k < |batches| && batches[k].outcome.NotBroadcast?)
    && (forall r | r in rs :: !r.OfInput() && r.batch < |batches|)
    && InOrder(rs)
  }

  lemma {:induction false} OneMoreFailure(batches: seq<Batch>, b: Batch, rs: seq<Report>)
    requires FailuresAre(batches, rs)
    ensures FailuresAre(batches + [b], rs + FailureOf(b, |batches|))
  {
    match b.outcome {
      case NotSigned => InOrderMore(rs, SignError(|batches|));
      case NotBroadcast => InOrderMore(rs, BroadcastError(|batches|));
      case _ => assert rs + [] == rs;
    }
  }

  lemma {:induction false} FailuresInOrder(batches: seq<Batch>)
    ensures FailuresAre(batches, Failures(batches))
  {
    if batches != [] {
      var front, b := batches[..|batches| - 1], batches[|batches| - 1];
      FailuresInOrder(front);
      OneMoreFailure(front, b, Failures(front));
      assert batches == front + [b];
    }
  }

  lemma {:induction false} ResponsesInOrder(batches: seq<Batch>)
    ensures Increasing(Responses(batches))
    ensures forall k: nat :: k in Responses(batches) <==> k < |batches| && batches[k].outcome.Sent?
  {
    if batches != [] {
      var last := |batches| - 1;
      ResponsesInOrder(batches[..last]);
      if batches[last].outcome.Sent? {
        IncreasingMore(Responses(batches[..last]), last);
      } else {
        assert Responses(batches) == Responses(batches[..last]);
      }
    }
  }

  lemma {:induction false} StreamsHold(errs: seq<Report>, r: Report)
    ensures r in errs <==> if r.OfInput() then r in OfInputs(errs) else r in OfBatches(errs)
    ensures r in OfInputs(errs) ==> r.OfInput()
    ensures r in OfBatches(errs) ==> !r.OfInput()
  {
    if errs != [] {
      StreamsHold(errs[..|errs| - 1], r);
    }
  }

  /** What stands before the last of its kind comes before it in its own stream. */
  lemma {:induction false} LastInItsStream(stream: seq<Report>, s: Report, r: Report)
    requires InOrder(stream + [r]) && s in stream
    ensures Before(s, r)
  {
    var p :| 0 <= p < |stream| && stream[p] == s;
    assert (stream + [r])[p] == s && (stream + [r])[|stream|] == r;
  }

  lemma {:induction false} InOrderFront(rs: seq<Report>, r: Report)
    requires InOrder(rs + [r])
    ensures InOrder(rs)
  {
    forall p, q | 0 <= p < q < |rs| ensures Before(rs[p], rs[q]) {
      assert (rs + [r])[p] == rs[p] && (rs + [r])[q] == rs[q];
    }
  }

  lemma {:induction false} StreamsInOrder(errs: seq<Report>)
    requires InOrder(OfInputs(errs)) && InOrder(OfBatches(errs))
    ensures InOrder(errs)
  {
    if errs != [] {
      var front, r := errs[..|errs| - 1], errs[|errs| - 1];
      var inputs, batches := OfInputs(front), OfBatches(front);
      OneMoreReport(front, r);
      assert errs == front + [r];
      if r.OfInput() {
        InOrderFront(inputs, r);
        assert OfBatches(errs) == batches;
      } else {
        InOrderFront(batches, r);
        assert OfInputs(errs) == inputs;
      }
      StreamsInOrder(front);
      forall s | s in front ensures Before(s, r) {
        StreamsHold(front, s);
        if s.OfInput() && r.OfInput() {
          LastInItsStream(inputs, s, r);
        } else if !s.OfInput() && !r.OfInput() {
          LastInItsStream(batches, s, r);
        }
      }
      InOrderMore(front, r);
    }
  }

  lemma {:induction false} TellsAll(job: Job, batches: seq<Batch>, errs: seq<Report>, resps: seq<nat>)
    requires job.Valid() && OfInputs(errs) == Rejected(job, |job.attrs|) && OfBatches(errs) == Failures(batches)
    requires resps == Responses(batches)
    ensures Told(job, batches, errs, resps)
  {
    RejectedInOrder(job);
    FailuresInOrder(batches);
    ResponsesInOrder(batches);
    StreamsInOrder(errs);
    forall r ensures r in errs <==> if r.OfInput() then r in OfInputs(errs) else r in OfBatches(errs) {
      StreamsHold(errs, r);
    }
  }
}
