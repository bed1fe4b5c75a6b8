/** The account sequence on both sides: what a client holds in its `Sequence` field and what
    the chain holds for the account, under one serial sender. A `World` is everything the
    outside answers during one attempt to submit a transaction; the attempt's transaction
    is included or dropped before the next attempt. This module is the reference meaning
    of an attempt, on values, and what follows for whole runs of attempts. */
module Sequencing {
  import opened Options

  const WIDTH: nat := 0x1_0000_0000_0000_0000

  /** Go's uint64. */
  type uint64 = x: nat | x < WIDTH witness 0

  /** Incrementing a uint64 wraps around. */
  function Succ(x: uint64): uint64 {
    (x + 1) % WIDTH
  }

  function Plus(x: uint64, k: nat): uint64 {
    (x + k) % WIDTH
  }

  lemma {:induction false} SuccOfPlus(x: uint64, k: nat)
    ensures Succ(Plus(x, k)) == Plus(x, k + 1)
  {}

  type Entry = string

  datatype Msg = RegistryBulkUpdate(signer: string, entries: seq<Entry>) | OtherMsg(payload: string)

  datatype Tx = Tx(msgs: seq<Msg>, sequence: uint64, fee: int)

  /** A transaction in a block, with the code of its execution. */
  datatype Included = Included(tx: Tx, code: nat)

  datatype BroadcastResponse = NoTxResponse | TxHash(hash: string)

  datatype Poll = NotFound | Found(code: nat)

  /** `buildFails`, `simFails`, `signFails`: setting up the transaction, simulating it or
      signing it fails for a reason other than the sequence. `queryFails`: the account query
      of a reset fails. `polls[i]` is the answer to poll i, missing ones standing for an RPC
      error. */
  datatype World = World(
    buildFails: bool, simFails: bool, gas: int, queryFails: bool, signFails: bool,
    broadcastFails: bool, response: BroadcastResponse,
    included: bool, code: nat, polls: seq<Poll>, blockFails: bool)
  {
    /** A transaction is found only if it was included, with the code of its execution. */
    predicate Honest() {
      forall i | 0 <= i < |polls| :: polls[i].Found? ==> included && polls[i].code == code
    }
  }

  datatype Account = Account(hasSigner: bool, address: string)

  /** The two ends of the protocol. */
  datatype Ends = Ends(client: uint64, chain: uint64, ledger: seq<Included>)

  predicate InStep(e: Ends) {
    e.client == e.chain
  }

  datatype Result =
    | NoSigner
    | SignError
    | BroadcastError
    | EmptyResponse
    | WaitError
    | TxFailed(code: nat)
    | Success

  const MAX_POLLS: nat := 10

  /** The first transaction found in the first k polls. */
  function Polled(polls: seq<Poll>, k: nat): Option<nat> {
    if k == 0 then None
    else if Polled(polls, k - 1).Some? then Polled(polls, k - 1)
    else if k <= |polls| && polls[k - 1].Found? then Some(polls[k - 1].code)
    else None
  }

  predicate FirstFound(polls: seq<Poll>, k: nat, i: nat) {
    && i < k && i < |polls| && polls[i].Found?
    && forall j | 0 <= j < i :: !polls[j].Found?
  }

  lemma {:induction false} PolledIsFound(polls: seq<Poll>, k: nat)
    ensures Polled(polls, k).Some? ==>
              exists i: nat :: FirstFound(polls, k, i) && polls[i].code == Polled(polls, k).value
    ensures Polled(polls, k).None? ==> forall i | 0 <= i < k && i < |polls| :: !polls[i].Found?
  {
    if k > 0 {
      PolledIsFound(polls, k - 1);
      if Polled(polls, k - 1).Some? {
        var i: nat :| FirstFound(polls, k - 1, i) && polls[i].code == Polled(polls, k - 1).value;
        assert FirstFound(polls, k, i);
      } else if k <= |polls| && polls[k - 1].Found? {
        assert FirstFound(polls, k, k - 1);
      }
    }
  }

  lemma {:induction false} PolledStays(polls: seq<Poll>, j: nat, k: nat)
    requires j <= k && Polled(polls, j).Some?
    ensures Polled(polls, k) == Polled(polls, j)
  {
    if j < k {
      PolledStays(polls, j, k - 1);
    }
  }

  // ---------- One attempt ----------

  /** Simulation goes through: it rejects every sequence but the chain's. */
  predicate Simulated(e: Ends, w: World) {
    !w.buildFails && e.client == e.chain && !w.simFails
  }

  /** Simulation is reached and fails. */
  predicate SimulationFails(e: Ends, w: World) {
    !w.buildFails && !(e.client == e.chain && !w.simFails)
  }

  /** The transaction ends up in a block. */
  predicate Committed(e: Ends, a: Account, w: World) {
    a.hasSigner && Simulated(e, w) && !w.signFails && w.included
  }

  /** The attempt draws the next sequence; a failed simulation re-reads it from the chain. */
  function ClientAfter(e: Ends, a: Account, w: World): uint64 {
    if !a.hasSigner then e.client
    else if SimulationFails(e, w) && a.address != "" && !w.queryFails then e.chain
    else Succ(e.client)
  }

  /** The attempt's transaction, as it stands in a block. */
  function InBlock(e: Ends, msgs: seq<Msg>, additionalFee: int, w: World): Included {
    Included(Tx(msgs, e.client, w.gas + additionalFee), w.code)
  }

  function Attempt(e: Ends, a: Account, msgs: seq<Msg>, additionalFee: int, w: World): Ends {
    Ends(ClientAfter(e, a, w),
         if Committed(e, a, w) then Succ(e.chain) else e.chain,
         if Committed(e, a, w) then e.ledger + [InBlock(e, msgs, additionalFee, w)] else e.ledger)
  }

  function ResultOf(e: Ends, a: Account, w: World): Result {
    if !a.hasSigner then NoSigner
    else if !Simulated(e, w) || w.signFails then SignError
    else if w.broadcastFails then BroadcastError
    else if w.response.NoTxResponse? || w.response.hash == "" then EmptyResponse
    else match Polled(w.polls, MAX_POLLS)
         case None => WaitError
         case Some(0) => Success
         case Some(code) => TxFailed(code)
  }

  // ---------- What a result means ----------

  /** Some of the first ten polls finds the transaction, the first of them with this code. */
  ghost predicate FoundInTen(w: World, code: nat) {
    exists i: nat :: FirstFound(w.polls, 10, i) && w.polls[i].code == code
  }

  ghost predicate NotFoundInTen(w: World) {
    forall i | 0 <= i < 10 && i < |w.polls| :: !w.polls[i].Found?
  }

  /** The transaction is built, simulated under the chain's sequence, and signed. */
  predicate Signs(e: Ends, w: World) {
    !w.buildFails && e.client == e.chain && !w.simFails && !w.signFails
  }

  /** The broadcast is answered with a hash to wait for. */
  predicate Answered(w: World) {
    !w.broadcastFails && w.response.TxHash? && w.response.hash != ""
  }

  /** Exactly when each result is returned. */
  ghost predicate Explains(signer: bool, signs: bool, w: World, r: Result) {
    && (r == NoSigner <==> !signer)
    && (r == SignError <==> signer && !signs)
    && (r == BroadcastError <==> signer && signs && w.broadcastFails)
    && (r == EmptyResponse <==> signer && signs && !w.broadcastFails && !Answered(w))
    && (r == WaitError <==> signer && signs && Answered(w) && NotFoundInTen(w))
    && (r == Success <==> signer && signs && Answered(w) && FoundInTen(w, 0))
    && (forall code: nat :: r == TxFailed(code) <==>
          signer && signs && Answered(w) && FoundInTen(w, code) && code != 0)
  }

  /** Polling as many times as the client does finds what ten polls find. */
  lemma {:induction false} PollsAreTen(w: World)
    ensures match Polled(w.polls, MAX_POLLS)
            case Some(code) => FoundInTen(w, code) && forall c: nat :: FoundInTen(w, c) ==> c == code
            case None => NotFoundInTen(w) && forall c: nat :: !FoundInTen(w, c)
  {
    PolledIsFound(w.polls, MAX_POLLS);
  }

  lemma {:induction false} ResultIsExplained(e: Ends, a: Account, w: World)
    ensures Explains(a.hasSigner, Signs(e, w), w, ResultOf(e, a, w))
  {
    PollsAreTen(w);
    if NotFoundInTen(w) {
      assert forall c: nat :: !FoundInTen(w, c);
    }
  }

  /** Success means that the transaction is in a block, under the client's sequence, and
      that its execution succeeded; and then both ends stay in step. */
  lemma {:induction false} SuccessMeansCommitted(e: Ends, a: Account, msgs: seq<Msg>, fee: int, w: World)
    requires w.Honest() && ResultOf(e, a, w).Success?
    ensures Committed(e, a, w) && w.code == 0 && InStep(e)
    ensures var e' := Attempt(e, a, msgs, fee, w);
            e' == Ends(Succ(e.client), Succ(e.chain), e.ledger + [InBlock(e, msgs, fee, w)])
  {
    PolledIsFound(w.polls, MAX_POLLS);
    var i: nat :| FirstFound(w.polls, MAX_POLLS, i) && w.polls[i].code == 0;
    assert w.polls[i].Found?;
  }

  // ---------- Runs of attempts ----------

  datatype Request = Request(msgs: seq<Msg>, fee: int, world: World)

  function After(e: Ends, a: Account, run: seq<Request>): Ends {
    if run == [] then e
    else
      var last := |run| - 1;
      Attempt(After(e, a, run[..last]), a, run[last].msgs, run[last].fee, run[last].world)
  }

  /** What happened over a run: attempts whose sequence the chain rejected, attempts that
      consumed a sequence without being included and without a reset, and resets whose
      account query failed. */
  datatype Tally = Tally(rejected: nat, lost: nat, resetsFailed: nat)

  predicate IsRejected(e: Ends, a: Account, w: World) {
    a.hasSigner && !w.buildFails && e.client != e.chain
  }

  predicate IsLost(e: Ends, a: Account, w: World) {
    a.hasSigner && !SimulationFails(e, w) && !Committed(e, a, w)
  }

  predicate IsResetFailed(e: Ends, a: Account, w: World) {
    a.hasSigner && SimulationFails(e, w) && (a.address == "" || w.queryFails)
  }

  function TallyOf(e: Ends, a: Account, run: seq<Request>): Tally {
    if run == [] then Tally(0, 0, 0)
    else
      var last := |run| - 1;
      var here := After(e, a, run[..last]);
      var t := TallyOf(e, a, run[..last]);
      Tally(t.rejected + if IsRejected(here, a, run[last].world) then 1 else 0,
            t.lost + if IsLost(here, a, run[last].world) then 1 else 0,
            t.resetsFailed + if IsResetFailed(here, a, run[last].world) then 1 else 0)
  }

  lemma {:induction false} SuccMoves(x: uint64)
    ensures Succ(x) != x
  {}

  /** Only a lost attempt or a failed reset can put the ends out of step. */
  lemma {:induction false} AttemptRecovers(e: Ends, a: Account, r: Request)
    ensures var e' := Attempt(e, a, r.msgs, r.fee, r.world);
            a.hasSigner && !IsLost(e, a, r.world) && !IsResetFailed(e, a, r.world) ==> InStep(e')
  {}

  /** Recovery over whole runs. Every rejection is paid for by the initial state, by a lost
      attempt or by a failed reset, and each of those pays for one rejection at most. */
  lemma {:induction false} RejectionsAreBounded(e: Ends, a: Account, run: seq<Request>)
    ensures var t := TallyOf(e, a, run);
            t.rejected + (if InStep(After(e, a, run)) then 0 else 1)
              <= (if InStep(e) then 0 else 1) + t.lost + t.resetsFailed
  {
    if run != [] {
      var last := |run| - 1;
      RejectionsAreBounded(e, a, run[..last]);
      AttemptRecovers(After(e, a, run[..last]), a, run[last]);
    }
  }

  /** A world in which the signed transaction is dropped, and every query answers. */
  function Dropping(): World {
    World(false, false, 0, false, false, false, TxHash("hash"), false, 0, [], false)
  }

  /** A world in which the simulation fails, and so does the account query that follows. */
  function Unreachable(): World {
    World(false, true, 0, true, false, false, NoTxResponse, false, 0, [], false)
  }

  lemma {:induction false} OneMoreAttempt(e: Ends, a: Account, run: seq<Request>, r: Request)
    ensures var here := After(e, a, run);
            var t, t' := TallyOf(e, a, run), TallyOf(e, a, run + [r]);
            && After(e, a, run + [r]) == Attempt(here, a, r.msgs, r.fee, r.world)
            && t'.rejected == t.rejected + (if IsRejected(here, a, r.world) then 1 else 0)
            && t'.lost == t.lost + (if IsLost(here, a, r.world) then 1 else 0)
            && t'.resetsFailed == t.resetsFailed + (if IsResetFailed(here, a, r.world) then 1 else 0)
  {}

  /** In step, an attempt that goes wrong leaves the client one ahead; the next is rejected
      and reset. */
  lemma {:induction false} BreakAndRepair(
    e: Ends, a: Account, front: seq<Request>, w: World)
    returns (run: seq<Request>)
    requires a.hasSigner && a.address != "" && InStep(After(e, a, front))
    requires w == Dropping() || w == Unreachable()
    ensures var t := TallyOf(e, a, front);
            TallyOf(e, a, run) == if w == Dropping() then Tally(t.rejected + 1, t.lost + 1, t.resetsFailed)
                                  else Tally(t.rejected + 1, t.lost, t.resetsFailed + 1)
    ensures InStep(After(e, a, run))
  {
    OneMoreAttempt(e, a, front, Request([], 0, w));
    SuccMoves(After(e, a, front).client);
    run := front + [Request([], 0, w)];
    OneMoreAttempt(e, a, run, Request([], 0, Dropping()));
    run := run + [Request([], 0, Dropping())];
  }

  /** The bound is met from every state, for any number of losses and failed resets: each
      of them costs one later attempt its sequence, and that attempt's reset repairs it. */
  lemma {:induction false} BoundIsMet(e: Ends, a: Account, lost: nat, resetsFailed: nat) returns (run: seq<Request>)
    requires a.hasSigner && a.address != ""
    ensures var rejected := (if InStep(e) then 0 else 1) + lost + resetsFailed;
            TallyOf(e, a, run) == Tally(rejected, lost, resetsFailed) && InStep(After(e, a, run))
    decreases lost + resetsFailed
  {
    if lost > 0 {
      var front := BoundIsMet(e, a, lost - 1, resetsFailed);
      run := BreakAndRepair(e, a, front, Dropping());
    } else if resetsFailed > 0 {
      var front := BoundIsMet(e, a, lost, resetsFailed - 1);
      run := BreakAndRepair(e, a, front, Unreachable());
    } else if InStep(e) {
      run := [];
    } else {
      OneMoreAttempt(e, a, [], Request([], 0, Dropping()));
      run := [] + [Request([], 0, Dropping())];
    }
  }

  /** The transactions of a run that were included, in order. */
  function IncludedOf(e: Ends, a: Account, run: seq<Request>): seq<Included> {
    if run == [] then []
    else
      var last := |run| - 1;
      var here := After(e, a, run[..last]);
      var r := run[last];
      IncludedOf(e, a, run[..last]) +
      if Committed(here, a, r.world)
      then [InBlock(here, r.msgs, r.fee, r.world)] else []
  }

  lemma {:induction false} OneMoreTx(start: uint64, ledger: seq<Included>, txs: seq<Included>, txs': seq<Included>)
    requires forall i | 0 <= i < |txs| :: txs[i].tx.sequence == Plus(start, i)
    requires txs' == txs || (|txs'| == |txs| + 1 && txs <= txs' && txs'[|txs|].tx.sequence == Plus(start, |txs|))
    ensures forall i | 0 <= i < |txs'| :: txs'[i].tx.sequence == Plus(start, i)
    ensures ledger + txs' == ledger + txs + txs'[|txs|..]
  {}

  /** A step towards `LockStep`, true of the chain as modelled: the ledger grows by the
      included transactions, under consecutive sequences. */
  lemma {:induction false} LedgerIsConsecutive(e: Ends, a: Account, run: seq<Request>)
    ensures var e' := After(e, a, run);
            var txs := IncludedOf(e, a, run);
            && e'.ledger == e.ledger + txs
            && e'.chain == Plus(e.chain, |txs|)
            && forall i | 0 <= i < |txs| :: txs[i].tx.sequence == Plus(e.chain, i)
  {
    if run != [] {
      var front := run[..|run| - 1];
      LedgerIsConsecutive(e, a, front);
      SuccOfPlus(e.chain, |IncludedOf(e, a, front)|);
      OneMoreTx(e.chain, e.ledger, IncludedOf(e, a, front), IncludedOf(e, a, run));
    }
  }

  predicate AllSucceed(e: Ends, a: Account, run: seq<Request>) {
    forall i | 0 <= i < |run| ::
      run[i].world.Honest() && ResultOf(After(e, a, run[..i]), a, run[i].world).Success?
  }

  /** `inc` is request r executed successfully under the given sequence. */
  predicate Records(inc: Included, r: Request, sequence: uint64) {
    inc.code == 0 && inc.tx.msgs == r.msgs && inc.tx.sequence == sequence
  }

  predicate AllRecorded(txs: seq<Included>, run: seq<Request>, start: uint64) {
    |txs| == |run| && forall i | 0 <= i < |run| :: Records(txs[i], run[i], Plus(start, i))
  }

  lemma {:induction false} SuccessesBefore(e: Ends, a: Account, run: seq<Request>, k: nat)
    requires AllSucceed(e, a, run) && k <= |run|
    ensures AllSucceed(e, a, run[..k])
  {
    forall i | 0 <= i < k
      ensures run[..k][i].world.Honest() && ResultOf(After(e, a, run[..k][..i]), a, run[..k][i].world).Success?
    {
      assert run[..k][..i] == run[..i];
    }
  }

  lemma {:induction false} LastSuccess(e: Ends, a: Account, run: seq<Request>)
    requires AllSucceed(e, a, run) && run != []
    ensures var r := run[|run| - 1];
            var here := After(e, a, run[..|run| - 1]);
            var inc := InBlock(here, r.msgs, r.fee, r.world);
            && InStep(here) && Records(inc, r, here.client)
            && After(e, a, run) == Ends(Succ(here.client), Succ(here.chain), here.ledger + [inc])
            && IncludedOf(e, a, run) == IncludedOf(e, a, run[..|run| - 1]) + [inc]
  {
    var last := |run| - 1;
    var here := After(e, a, run[..last]);
    var r := run[last];
    assert r.world.Honest() && ResultOf(here, a, r.world).Success?;
    SuccessMeansCommitted(here, a, r.msgs, r.fee, r.world);
  }

  lemma {:induction false} StayInStep(e: Ends, a: Account, run: seq<Request>)
    requires AllSucceed(e, a, run) && InStep(e)
    ensures var e' := After(e, a, run);
            && e'.client == e'.chain == Plus(e.client, |run|)
            && e'.ledger == e.ledger + IncludedOf(e, a, run)
            && AllRecorded(IncludedOf(e, a, run), run, e.client)
  {
    if run != [] {
      var last := |run| - 1;
      SuccessesBefore(e, a, run, last);
      StayInStep(e, a, run[..last]);
      LastSuccess(e, a, run);
      SuccOfPlus(e.client, last);
    }
  }

  /** The k-th sequence from the start, wrapping around as 64 bits do. */
  predicate IsSequence(start: nat, k: nat, y: nat) {
    y == (start + k) % 0x1_0000_0000_0000_0000
  }

  lemma {:induction false} PlusIsSum(x: uint64, k: nat)
    ensures IsSequence(x, k, Plus(x, k))
  {}

  /** Lock step: over a run of successes the sequences used are s, s+1, s+2, ..., every
      request is in the ledger in order, and both ends agree after each. */
  lemma {:induction false} LockStep(e: Ends, a: Account, run: seq<Request>)
    requires AllSucceed(e, a, run) && InStep(e)
    ensures var e' := After(e, a, run);
            var txs := IncludedOf(e, a, run);
            && e'.client == e'.chain && IsSequence(e.client, |run|, e'.chain)
            && e'.ledger == e.ledger + txs && |txs| == |run|
            && forall i | 0 <= i < |run| ::
                 && txs[i].code == 0 && txs[i].tx.msgs == run[i].msgs
                 && IsSequence(e.client, i, txs[i].tx.sequence)
  {
    var txs := IncludedOf(e, a, run);
    StayInStep(e, a, run);
    PlusIsSum(e.client, |run|);
    forall i | 0 <= i < |run|
      ensures txs[i].code == 0 && txs[i].tx.msgs == run[i].msgs
      ensures IsSequence(e.client, i, txs[i].tx.sequence)
    {
      assert Records(txs[i], run[i], Plus(e.client, i));
      PlusIsSum(e.client, i);
    }
  }
}
