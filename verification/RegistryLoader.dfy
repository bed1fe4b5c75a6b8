/** The bulk loader: the entries go out in transactions of at most fifteen, each submitted
    only when the one before is in a block. Any error ends the program. */
module RegistryLoader {
  import opened Options
  import opened Sequencing
  import opened Clients

  const MAX_PER_TX: nat := 15

  datatype Exit =
    | NoEntries
    | UpdateFailed     // RegistryBulkUpdate returned an error
    | NilResponse      // the broadcast response has no TxResponse: nil dereference
    | WaitFailed
    | TxRejected       // found in a block, but its execution failed
    | Loaded

  function Upto(entries: seq<Entry>, k: nat): nat {
    if k * MAX_PER_TX <= |entries| then k * MAX_PER_TX else |entries|
  }

  /** The entries of batch k. */
  function Chunk(entries: seq<Entry>, k: nat): seq<Entry> {
    entries[Upto(entries, k)..Upto(entries, k + 1)]
  }

  function ChunksNeeded(entries: seq<Entry>): nat {
    (|entries| + MAX_PER_TX - 1) / MAX_PER_TX
  }

  /** Transaction k carries batch k and nothing else. */
  predicate Carries(inc: Included, signer: string, entries: seq<Entry>, k: nat) {
    inc.tx.msgs == [RegistryBulkUpdate(signer, Chunk(entries, k))]
  }

  /** The entries that transactions applied, in ledger order. */
  function EntriesOf(ledger: seq<Included>): seq<Entry> {
    if ledger == [] then []
    else
      var inc := ledger[|ledger| - 1];
      EntriesOf(ledger[..|ledger| - 1]) +
      if inc.code == 0 && |inc.tx.msgs| == 1 && inc.tx.msgs[0].RegistryBulkUpdate? then inc.tx.msgs[0].entries else []
  }

  predicate Prefix(grown: seq<Included>, signer: string, entries: seq<Entry>, done: nat) {
    done <= |grown| && forall k | 0 <= k < done :: grown[k].code == 0 && Carries(grown[k], signer, entries, k)
  }

  /** The first `done` batches, applied in order, are a prefix of the entries: the first
      15 * done of them, or all. */
  lemma {:induction false} PrefixIsCommitted(grown: seq<Included>, signer: string, entries: seq<Entry>, done: nat)
    requires Prefix(grown, signer, entries, done)
    ensures EntriesOf(grown[..done]) == entries[..Upto(entries, done)]
  {
    if done > 0 {
      PrefixIsCommitted(grown, signer, entries, done - 1);
      assert grown[..done][..done - 1] == grown[..done - 1];
      assert entries[..Upto(entries, done)] == entries[..Upto(entries, done - 1)] + Chunk(entries, done - 1);
    }
  }

  /** Batches are neither empty nor too long, and all but the last are full. */
  lemma {:induction false} ChunkSizes(entries: seq<Entry>, k: nat)
    requires k < ChunksNeeded(entries)
    ensures 0 < |Chunk(entries, k)| <= MAX_PER_TX
    ensures k + 1 < ChunksNeeded(entries) ==> |Chunk(entries, k)| == MAX_PER_TX
    ensures Upto(entries, ChunksNeeded(entries)) == |entries|
  {}

  /** The outside answers favourably. */
  ghost predicate Favourable(w: World) {
    && !w.buildFails && !w.simFails && !w.signFails && !w.broadcastFails
    && w.response.TxHash? && w.response.hash != ""
    && w.included && w.code == 0 && FoundInTen(w, 0)
  }

  /** Exactly when the loop body ends the program, and how. */
  ghost predicate ExitsAs(signs: bool, w: World, exit: Option<Exit>) {
    var sent := signs && !w.broadcastFails;
    var hashed := sent && w.response.TxHash?;
    && (exit == Some(UpdateFailed) <==> !sent)
    && (exit == Some(NilResponse) <==> sent && !hashed)
    && (exit == Some(WaitFailed) <==> hashed && (w.response.hash == "" || NotFoundInTen(w)))
    && (exit == Some(TxRejected) <==>
          hashed && w.response.hash != "" && exists code: nat :: FoundInTen(w, code) && code != 0)
    && (exit == None <==> hashed && w.response.hash != "" && FoundInTen(w, 0))
  }

  /** The loop body: submit one batch and wait for it. Without an exit the batch is in a
      block and applied, and both ends are in step. */
  method SubmitBatch(client: ProvenanceClient, chain: Chain, batch: seq<Entry>, w: World) returns (exit: Option<Exit>)
    requires client.hasSigner && w.Honest()
    modifies client, chain
    ensures client.EndsWith(chain)
         == Attempt(old(client.EndsWith(chain)), client.Who(), [RegistryBulkUpdate(client.address, batch)], 0, w)
    ensures exit.None? ==> Committed(old(client.EndsWith(chain)), client.Who(), w) && w.code == 0
                           && InStep(client.EndsWith(chain))
    ensures exit != Some(NoEntries) && exit != Some(Loaded)
    ensures ExitsAs(old(Signs(client.EndsWith(chain), w)), w, exit)
    ensures Favourable(w) && InStep(old(client.EndsWith(chain))) ==> exit.None?
  {
    ghost var before := client.EndsWith(chain);
    PollsAreTen(w);
    var response := client.RegistryBulkUpdate(chain, batch, w);
    if response.None? {
      return Some(UpdateFailed);
    }
    if response.value.NoTxResponse? {
      return Some(NilResponse);
    }
    var code := client.WaitOnTx(response.value.hash, w);
    if code.None? {
      return Some(WaitFailed);
    }
    if code.value != 0 {
      return Some(TxRejected);
    }
    SuccessMeansCommitted(before, client.Who(), [RegistryBulkUpdate(client.address, batch)], 0, w);
    return None;
  }

  /** The transactions from k on carry fifteen entries each, or all that are left. */
  ghost predicate CarriesFifteen(inc: Included, signer: string, entries: seq<Entry>, k: nat) {
    && 15 * k < |entries|
    && inc.tx.msgs == [RegistryBulkUpdate(signer,
                         if 15 * k + 15 <= |entries| then entries[15 * k..15 * k + 15] else entries[15 * k..])]
  }

  /** The first `done` transactions are executed and carry the first 15 * done entries, or
      all; there is one more at most, and it carries what comes next. */
  ghost predicate LoadsPrefix(grown: seq<Included>, signer: string, entries: seq<Entry>, done: nat) {
    && done <= |grown| <= done + 1
    && (forall k | 0 <= k < |grown| :: CarriesFifteen(grown[k], signer, entries, k))
    && (forall k | 0 <= k < done :: grown[k].code == 0)
  }

  /** What the ledger has gained: `done` applied batches and at most one transaction more,
      carrying the next batch. */
  predicate Gained(ledger: seq<Included>, base: seq<Included>, signer: string, entries: seq<Entry>, done: nat) {
    && base <= ledger
    && var grown := ledger[|base|..];
    && Prefix(grown, signer, entries, done)
    && |grown| <= done + 1
    && (|grown| == done + 1 ==> done < ChunksNeeded(entries) && Carries(grown[done], signer, entries, done))
  }

  /** The state of the ledger whenever the loader stops. */
  ghost predicate Loads(ledger: seq<Included>, base: seq<Included>, signer: string, entries: seq<Entry>, done: nat) {
    && base <= ledger
    && LoadsPrefix(ledger[|base|..], signer, entries, done)
    && done <= |ledger[|base|..]|
    && EntriesOf(ledger[|base|..][..done]) == if 15 * done <= |entries| then entries[..15 * done] else entries
  }

  lemma {:induction false} GainedLoads(
    ledger: seq<Included>, base: seq<Included>, signer: string, entries: seq<Entry>, done: nat)
    requires Gained(ledger, base, signer, entries, done) && done <= ChunksNeeded(entries)
    ensures Loads(ledger, base, signer, entries, done)
  {
    var grown := ledger[|base|..];
    PrefixIsCommitted(grown, signer, entries, done);
    assert entries[..|entries|] == entries;
    forall k | 0 <= k < |grown| ensures CarriesFifteen(grown[k], signer, entries, k) {
      assert Carries(grown[k], signer, entries, k);
      if 15 * k + 15 > |entries| {
        assert Chunk(entries, k) == entries[15 * k..];
      }
    }
  }

  lemma {:induction false} GainsByBatch(
    base: seq<Included>, before: Ends, a: Account, entries: seq<Entry>, done: nat, w: World)
    requires Gained(before.ledger, base, a.address, entries, done) && |before.ledger| == |base| + done
    requires done < ChunksNeeded(entries)
    ensures var after := Attempt(before, a, [RegistryBulkUpdate(a.address, Chunk(entries, done))], 0, w).ledger;
            && Gained(after, base, a.address, entries, done)
            && (Committed(before, a, w) && w.code == 0 ==>
                  Gained(after, base, a.address, entries, done + 1) && |after| == |base| + done + 1)
  {}

  /** At every exit the entries known to be on the chain are those of the first `done`
      batches, a prefix of the input. At most one further transaction has got into a block;
      it carries the next batch, and the loader has stopped there. `worlds[k]` answers for
      batch k. */
  method Load(client: ProvenanceClient, chain: Chain, entries: seq<Entry>, worlds: seq<World>)
    returns (exit: Exit, done: nat)
    requires client.hasSigner
    requires |worlds| >= ChunksNeeded(entries) && forall k | 0 <= k < |worlds| :: worlds[k].Honest()
    modifies client, chain
    ensures Gained(chain.ledger, old(chain.ledger), client.address, entries, done)
    ensures exit.NoEntries? <==> entries == []
    ensures Loads(chain.ledger, old(chain.ledger), client.address, entries, done)
    ensures exit.Loaded? <==> entries != [] && done == (|entries| + 14) / 15
    ensures exit.Loaded? ==> |chain.ledger| == |old(chain.ledger)| + done
    ensures (old(InStep(client.EndsWith(chain))) && entries != []
             && forall k | 0 <= k < |worlds| :: Favourable(worlds[k])) ==> exit.Loaded?
  {
    ghost var base := chain.ledger;
    ghost var smooth := InStep(client.EndsWith(chain)) && forall k | 0 <= k < |worlds| :: Favourable(worlds[k]);
    done := 0;
    if |entries| == 0 {
      return NoEntries, 0;
    }
    var i := 0;
    while i < |entries|
      invariant i == done * MAX_PER_TX
      invariant done <= ChunksNeeded(entries)
      invariant Gained(chain.ledger, base, client.address, entries, done) && |chain.ledger| == |base| + done
      invariant smooth ==> InStep(client.EndsWith(chain))
      decreases |entries| - i
    {
      var end := i + MAX_PER_TX;
      if end > |entries| {
        end := |entries|;
      }
      var batch := entries[i..end];
      assert batch == Chunk(entries, done);
      GainsByBatch(base, client.EndsWith(chain), client.Who(), entries, done, worlds[done]);
      var stop := SubmitBatch(client, chain, batch, worlds[done]);
      if stop.Some? {
        GainedLoads(chain.ledger, base, client.address, entries, done);
        return stop.value, done;
      }
      done := done + 1;
      i := i + MAX_PER_TX;
    }
    GainedLoads(chain.ledger, base, client.address, entries, done);
    return Loaded, done;
  }
}
