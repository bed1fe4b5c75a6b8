/** The clients that submit transactions, in the source's own form: objects that update
    their sequence step by step against a chain. Each method is tied to the reference
    meaning of an attempt in `Sequencing`. */
module Clients {
  import opened Options
  import opened Sequencing

  /** The account on the chain. It advances when a transaction is put in a block, which
      happens only under the current sequence. */
  class Chain {
    var sequence: uint64
    var ledger: seq<Included>

    constructor (sequence: uint64)
      ensures this.sequence == sequence && ledger == []
    {
      this.sequence := sequence;
      ledger := [];
    }

    predicate Simulates(tx: Tx, w: World)
      reads this
    {
      tx.sequence == sequence && !w.simFails
    }

    method Deliver(tx: Tx, w: World)
      modifies this
      ensures if w.included && tx.sequence == old(sequence)
              then sequence == Succ(old(sequence)) && ledger == old(ledger) + [Included(tx, w.code)]
              else sequence == old(sequence) && ledger == old(ledger)
      ensures ledger != old(ledger) ==> sequence == if tx.sequence == 0xFFFF_FFFF_FFFF_FFFF then 0 else tx.sequence + 1
    {
      if w.included && tx.sequence == sequence {
        ledger := ledger + [Included(tx, w.code)];
        sequence := Succ(sequence);
      }
    }
  }

  class ProvenanceClient {
    const address: string
    const hasSigner: bool
    var sequence: uint64

    constructor (address: string, hasSigner: bool, sequence: uint64)
      ensures this.address == address && this.hasSigner == hasSigner && this.sequence == sequence
    {
      this.address := address;
      this.hasSigner := hasSigner;
      this.sequence := sequence;
    }

    ghost function Who(): Account {
      Account(hasSigner, address)
    }

    ghost function EndsWith(chain: Chain): Ends
      reads this, chain
    {
      Ends(sequence, chain.sequence, chain.ledger)
    }

    method NextSequence() returns (current: uint64)
      modifies this
      ensures current == old(sequence) && sequence == Succ(current)
      ensures sequence == if current == 0xFFFF_FFFF_FFFF_FFFF then 0 else current + 1
    {
      current := sequence;
      sequence := Succ(sequence);
    }

    /** On success the client agrees with the chain, else nothing changes. */
    method ResetSequence(chain: Chain, w: World) returns (read: Option<uint64>)
      modifies this
      ensures read == if address == "" || w.queryFails then None else Some(chain.sequence)
      ensures sequence == if read.Some? then chain.sequence else old(sequence)
    {
      if address == "" {
        return None;
      }
      if w.queryFails {
        return None;
      }
      sequence := chain.sequence;
      return Some(chain.sequence);
    }

    /** Simulate, price and sign; a failed simulation resets the sequence. */
    method SignTx(chain: Chain, msgs: seq<Msg>, drawn: uint64, additionalFee: int, w: World)
      returns (signed: Option<Tx>)
      modifies this
      ensures signed == if !w.buildFails && drawn == chain.sequence && !w.simFails && !w.signFails
                        then Some(Tx(msgs, drawn, w.gas + additionalFee)) else None
      ensures sequence == if !w.buildFails && !(drawn == chain.sequence && !w.simFails)
                             && address != "" && !w.queryFails
                          then chain.sequence else old(sequence)
    {
      if w.buildFails {
        return None;
      }
      var unsigned := Tx(msgs, drawn, 0);
      if !chain.Simulates(unsigned, w) {
        var _ := ResetSequence(chain, w);
        return None;
      }
      var priced := unsigned.(fee := w.gas + additionalFee);
      if w.signFails {
        return None;
      }
      return Some(priced);
    }

    /** The RPC may fail whether or not the transaction then gets into a block. */
    method BroadcastTx(chain: Chain, tx: Tx, w: World) returns (response: Option<BroadcastResponse>)
      modifies chain
      ensures if w.included && tx.sequence == old(chain.sequence)
              then chain.sequence == Succ(old(chain.sequence))
                   && chain.ledger == old(chain.ledger) + [Included(tx, w.code)]
              else chain.sequence == old(chain.sequence) && chain.ledger == old(chain.ledger)
      ensures response == if w.broadcastFails then None else Some(w.response)
    {
      chain.Deliver(tx, w);
      if w.broadcastFails {
        return None;
      }
      return Some(w.response);
    }

    /** Up to ten polls; an RPC error or an empty answer is polled again. */
    method WaitOnTx(hash: string, w: World) returns (code: Option<nat>)
      ensures code == if hash == "" then None else Polled(w.polls, MAX_POLLS)
      ensures hash != "" && code.Some? ==> FoundInTen(w, code.value)
      ensures hash != "" && code.None? ==> NotFoundInTen(w)
    {
      PollsAreTen(w);
      if hash == "" {
        return None;
      }
      for i := 0 to MAX_POLLS
        invariant Polled(w.polls, i) == None
      {
        if i < |w.polls| && w.polls[i].Found? {
          PolledStays(w.polls, i + 1, MAX_POLLS);
          return Some(w.polls[i].code);
        }
      }
      return None;
    }

    method RegistryBulkUpdate(chain: Chain, entries: seq<Entry>, w: World) returns (response: Option<BroadcastResponse>)
      requires hasSigner
      modifies this, chain
      ensures EndsWith(chain) == Attempt(old(EndsWith(chain)), Who(), [Msg.RegistryBulkUpdate(address, entries)], 0, w)
      ensures response == if old(Signs(EndsWith(chain), w)) && !w.broadcastFails then Some(w.response) else None
    {
      var drawn := NextSequence();
      var signed := SignTx(chain, [Msg.RegistryBulkUpdate(address, entries)], drawn, 0, w);
      if signed.None? {
        return None;
      }
      response := BroadcastTx(chain, signed.value, w);
    }
  }

  /** The base contract client; `prov` may be missing. */
  class BaseClient {
    const prov: ProvenanceClient?

    constructor (prov: ProvenanceClient?)
      ensures this.prov == prov
    {
      this.prov := prov;
    }

    predicate RequireSigner() {
      prov != null && prov.hasSigner
    }

    method BroadcastMsgs(chain: Chain, msgs: seq<Msg>, w: World) returns (result: Result)
      modifies prov, chain
      ensures prov == null ==>
                result == NoSigner && chain.sequence == old(chain.sequence) && chain.ledger == old(chain.ledger)
      ensures prov != null ==>
                && prov.EndsWith(chain) == Attempt(old(prov.EndsWith(chain)), prov.Who(), msgs, 0, w)
                && result == ResultOf(old(prov.EndsWith(chain)), prov.Who(), w)
                && Explains(prov.hasSigner, old(Signs(prov.EndsWith(chain), w)), w, result)
    {
      if prov != null {
        ResultIsExplained(prov.EndsWith(chain), prov.Who(), w);
      }
      if !RequireSigner() {
        return NoSigner;
      }
      var drawn := prov.NextSequence();
      var signed := prov.SignTx(chain, msgs, drawn, 0, w);
      if signed.None? {
        return SignError;
      }
      var response := prov.BroadcastTx(chain, signed.value, w);
      if response.None? {
        return BroadcastError;
      }
      if response.value.NoTxResponse? || response.value.hash == "" {
        return EmptyResponse;
      }
      var code := prov.WaitOnTx(response.value.hash, w);
      if code.None? {
        return WaitError;
      }
      if code.value != 0 {
        return TxFailed(code.value);
      }
      return Success;
    }
  }

  datatype PoolResult = Executed | ExecutedWithoutBlock | NotExecuted(why: Result)

  /** Exactly when each result is returned: as for a base client, but that success is told
      apart by whether the block can be fetched. */
  ghost predicate ExplainsPool(signer: bool, signs: bool, w: World, r: PoolResult) {
    && (r == Executed <==> signer && signs && Answered(w) && FoundInTen(w, 0) && !w.blockFails)
    && (r == ExecutedWithoutBlock <==> signer && signs && Answered(w) && FoundInTen(w, 0) && w.blockFails)
    && (r.NotExecuted? ==> Explains(signer, signs, w, r.why) && r.why != Success)
  }

  /** The pool client embeds a base client and repeats its submission with a block fetch. */
  class PoolClient {
    const base: BaseClient

    constructor (base: BaseClient)
      ensures this.base == base
    {
      this.base := base;
    }

    /** Both ends change exactly as under BroadcastMsgs, and the call succeeds exactly when
        BroadcastMsgs would and the block can then be fetched. */
    method BroadcastAndWait(chain: Chain, msgs: seq<Msg>, w: World) returns (result: PoolResult)
      modifies base.prov, chain
      ensures base.prov == null ==>
                && result == NotExecuted(NoSigner)
                && chain.sequence == old(chain.sequence) && chain.ledger == old(chain.ledger)
      ensures base.prov != null ==>
                var before := old(base.prov.EndsWith(chain));
                && base.prov.EndsWith(chain) == Attempt(before, base.prov.Who(), msgs, 0, w)
                && result == match ResultOf(before, base.prov.Who(), w)
                             case Success => if w.blockFails then ExecutedWithoutBlock else Executed
                             case why => NotExecuted(why)
      ensures base.prov != null ==>
                ExplainsPool(base.prov.hasSigner, old(Signs(base.prov.EndsWith(chain), w)), w, result)
    {
      if base.prov != null {
        ResultIsExplained(base.prov.EndsWith(chain), base.prov.Who(), w);
      }
      if !base.RequireSigner() {
        return NotExecuted(NoSigner);
      }
      var prov := base.prov;
      var drawn := prov.NextSequence();
      var signed := prov.SignTx(chain, msgs, drawn, 0, w);
      if signed.None? {
        return NotExecuted(SignError);
      }
      var response := prov.BroadcastTx(chain, signed.value, w);
      if response.None? {
        return NotExecuted(BroadcastError);
      }
      if response.value.NoTxResponse? || response.value.hash == "" {
        return NotExecuted(EmptyResponse);
      }
      var code := prov.WaitOnTx(response.value.hash, w);
      if code.None? {
        return NotExecuted(WaitError);
      }
      if code.value != 0 {
        return NotExecuted(TxFailed(code.value));
      }
      if w.blockFails {
        return ExecutedWithoutBlock;
      }
      return Executed;
    }
  }
}
