/** What a CW20 receive call did: the four parsers tried in turn on the transaction's events
    and the block that holds it. */
module ReceiveOutcome {
  import opened Options
  import opened TxEvents
  import opened Events

  datatype Header = Header(height: int, time: int)

  /** A block response; its header and its transaction data may be missing. */
  datatype Block = Block(header: Option<Header>, txs: Option<seq<string>>)

  const CONTRACT_ADDRESS: string := "_contract_address"
  const WITHDRAW: string := "withdraw"
  const WITHDRAW_EXACT: string := "withdraw_exact"
  const TRANSFER: string := "transfer"
  const TRANSFER_EXACT: string := "transfer_exact"

  function UpperChar(c: char): char {
    if 'a' <= c <= 'z' then (c as int - 32) as char else c
  }

  function Upper(s: string): string {
    if s == "" then "" else [UpperChar(s[0])] + Upper(s[1..])
  }

  /** Unicode white space. */
  predicate IsSpace(c: char) {
    var n := c as int;
    || 9 <= n <= 13 || n == 0x20 || n == 0x85 || n == 0xA0 || n == 0x1680
    || 0x2000 <= n <= 0x200A || n == 0x2028 || n == 0x2029 || n == 0x202F || n == 0x205F || n == 0x3000
  }

  function TrimSpace(s: string): string {
    if s != "" && IsSpace(s[0]) then TrimSpace(s[1..])
    else if s != "" && IsSpace(s[|s| - 1]) then TrimSpace(s[..|s| - 1])
    else s
  }

  // ---------- Trimming and comparing, character by character ----------

  /** The white space of Unicode. */
  const WHITE: string :=
    "\t\n\U{0B}\U{0C}\r \U{85}\U{A0}\U{1680}\U{2000}\U{2001}\U{2002}\U{2003}\U{2004}\U{2005}" +
    "\U{2006}\U{2007}\U{2008}\U{2009}\U{200A}\U{2028}\U{2029}\U{202F}\U{205F}\U{3000}"

  predicate AllWhite(s: string) {
    forall i | 0 <= i < |s| :: s[i] in WHITE
  }

  predicate Around(s: string, l: string, t: string, r: string) {
    && s == l + t + r && AllWhite(l) && AllWhite(r)
    && (t != "" ==> t[0] !in WHITE && t[|t| - 1] !in WHITE)
  }

  /** What is left of s without the white space around it. */
  ghost predicate Trimmed(s: string, t: string) {
    exists l, r :: Around(s, l, t, r)
  }

  predicate SameLetter(c: char, d: char) {
    || c == d
    || ('a' <= c <= 'z' && d as int == c as int - 32)
    || ('A' <= c <= 'Z' && d as int == c as int + 32)
  }

  /** Equal up to the case of ASCII letters. */
  predicate SameHash(s: string, t: string) {
    |s| == |t| && forall i | 0 <= i < |s| :: SameLetter(s[i], t[i])
  }

  /** Transaction n is the first whose hash is the one asked for. */
  ghost predicate FirstWithHash(txs: seq<string>, hash: string, digest: string -> string, n: nat) {
    exists t ::
      && Trimmed(hash, t) && n < |txs| && SameHash(digest(txs[n]), t)
      && forall k | 0 <= k < n :: !SameHash(digest(txs[k]), t)
  }

  ghost predicate NoneHasHash(txs: seq<string>, hash: string, digest: string -> string) {
    forall t, n | Trimmed(hash, t) && 0 <= n < |txs| :: !SameHash(digest(txs[n]), t)
  }

  lemma {:induction false} SpaceIsWhite(c: char)
    ensures IsSpace(c) <==> c in WHITE
  {}

  predicate AllSpace(s: string) {
    forall i | 0 <= i < |s| :: IsSpace(s[i])
  }

  predicate AroundSpace(s: string, l: string, t: string, r: string) {
    && s == l + t + r && AllSpace(l) && AllSpace(r)
    && (t != "" ==> !IsSpace(t[0]) && !IsSpace(t[|t| - 1]))
  }

  lemma {:induction false} AllSpaceIsWhite(s: string)
    ensures AllSpace(s) <==> AllWhite(s)
  {
    forall i | 0 <= i < |s| ensures IsSpace(s[i]) <==> s[i] in WHITE {
      SpaceIsWhite(s[i]);
    }
  }

  lemma {:induction false} SpaceAround(s: string, l: string, t: string, r: string)
    ensures AroundSpace(s, l, t, r) <==> Around(s, l, t, r)
  {
    AllSpaceIsWhite(l);
    AllSpaceIsWhite(r);
    if t != "" {
      SpaceIsWhite(t[0]);
      SpaceIsWhite(t[|t| - 1]);
    }
  }

  lemma {:induction false} TrimSplits(s: string) returns (l: string, r: string)
    ensures AroundSpace(s, l, TrimSpace(s), r)
  {
    l, r := "", "";
    if s != "" && IsSpace(s[0]) {
      l, r := TrimSplits(s[1..]);
      assert s == [s[0]] + s[1..];
      l := [s[0]] + l;
    } else if s != "" && IsSpace(s[|s| - 1]) {
      var last := |s| - 1;
      l, r := TrimSplits(s[..last]);
      assert s == s[..last] + [s[last]];
      r := r + [s[last]];
    }
  }

  lemma {:induction false} TrimIsTrimmed(s: string)
    ensures Trimmed(s, TrimSpace(s))
  {
    var l, r := TrimSplits(s);
    SpaceAround(s, l, TrimSpace(s), r);
  }

  lemma {:induction false} TrimIsUnique(s: string, l: string, t: string, r: string)
    requires AroundSpace(s, l, t, r)
    ensures t == TrimSpace(s)
    decreases |s|
  {
    if s != "" {
      if l != "" {
        assert s[1..] == l[1..] + t + r;
        TrimIsUnique(s[1..], l[1..], t, r);
      } else if t == "" {
        assert s[1..] == "" + t + r[1..];
        TrimIsUnique(s[1..], "", t, r[1..]);
      } else if r != "" {
        assert s[..|s| - 1] == "" + t + r[..|r| - 1];
        TrimIsUnique(s[..|s| - 1], "", t, r[..|r| - 1]);
      }
    }
  }

  lemma {:induction false} UpperAt(s: string)
    ensures |Upper(s)| == |s| && forall i | 0 <= i < |s| :: Upper(s)[i] == UpperChar(s[i])
  {
    if s != "" {
      UpperAt(s[1..]);
    }
  }

  lemma {:induction false} SameUpperChar(c: char, d: char)
    ensures UpperChar(c) == UpperChar(d) <==> SameLetter(c, d)
  {}

  /** Upper-casing both sides compares them without case. */
  lemma {:induction false} SameUpper(s: string, t: string)
    ensures Upper(s) == Upper(t) <==> SameHash(s, t)
  {
    UpperAt(s);
    UpperAt(t);
    if |s| == |t| {
      forall i | 0 <= i < |s| ensures Upper(s)[i] == Upper(t)[i] <==> SameLetter(s[i], t[i]) {
        SameUpperChar(s[i], t[i]);
      }
      if SameHash(s, t) {
        assert Upper(s) == Upper(t);
      } else {
        var i :| 0 <= i < |s| && !SameLetter(s[i], t[i]);
        assert Upper(s)[i] != Upper(t)[i];
      }
    }
  }

  // ---------- The transaction in its block ----------

  /** The first transaction of the block with the hash; `digest` is the hexadecimal hash of
      a raw transaction. */
  function TxIndexFrom(txs: seq<string>, want: string, digest: string -> string, k: nat): (r: Option<nat>)
    requires k <= |txs|
    ensures r.Some? ==> k <= r.value < |txs| && Upper(digest(txs[r.value])) == want
                        && forall i | k <= i < r.value :: Upper(digest(txs[i])) != want
    ensures r.None? ==> forall i | k <= i < |txs| :: Upper(digest(txs[i])) != want
    decreases |txs| - k
  {
    if k == |txs| then None
    else if Upper(digest(txs[k])) == want then Some(k)
    else TxIndexFrom(txs, want, digest, k + 1)
  }

  function TxIndex(block: Option<Block>, hash: string, digest: string -> string): Option<nat> {
    if block.None? || block.value.txs.None? then None
    else TxIndexFrom(block.value.txs.value, Upper(TrimSpace(hash)), digest, 0)
  }

  /** What the search for the hash finds, character by character. */
  lemma {:induction false} IndexIsFirst(txs: seq<string>, hash: string, digest: string -> string)
    ensures match TxIndexFrom(txs, Upper(TrimSpace(hash)), digest, 0)
            case Some(n) => FirstWithHash(txs, hash, digest, n)
            case None => NoneHasHash(txs, hash, digest)
  {
    var t := TrimSpace(hash);
    TrimIsTrimmed(hash);
    forall n | 0 <= n < |txs|
      ensures Upper(digest(txs[n])) == Upper(t) <==> SameHash(digest(txs[n]), t)
    {
      SameUpper(digest(txs[n]), t);
    }
    forall t' | Trimmed(hash, t') ensures t' == t {
      var l, r :| Around(hash, l, t', r);
      SpaceAround(hash, l, t', r);
      TrimIsUnique(hash, l, t', r);
    }
  }

  method TxIndexInBlock(block: Option<Block>, hash: string, digest: string -> string) returns (index: Option<nat>)
    ensures index == TxIndex(block, hash, digest)
    ensures index.Some? ==> block.Some? && block.value.txs.Some?
                            && FirstWithHash(block.value.txs.value, hash, digest, index.value)
    ensures index.None? ==> block.None? || block.value.txs.None? || NoneHasHash(block.value.txs.value, hash, digest)
  {
    if block.None? || block.value.txs.None? {
      return None;
    }
    var txs := block.value.txs.value;
    var want := Upper(TrimSpace(hash));
    IndexIsFirst(txs, hash, digest);
    for i := 0 to |txs|
      invariant TxIndexFrom(txs, want, digest, i) == TxIndexFrom(txs, want, digest, 0)
    {
      if Upper(digest(txs[i])) == want {
        return Some(i);
      }
    }
    return None;
  }

  /** Where an event stands: the transaction in its block and the event in its transaction. */
  datatype Place = Place(height: int, time: int, txHash: string, txIndex: nat, eventIndex: nat, contract: string)

  function Locate(tx: Option<TxResponse>, block: Option<Block>, digest: string -> string, action: string)
    : Option<(Place, map<string, string>)>
  {
    if tx.None? || block.None? || block.value.header.None? then None
    else
      var t, h := tx.value, block.value.header.value;
      match FirstAction(AllEvents(t), action, 0)
      case None => None
      case Some(i) =>
        match TxIndex(block, t.hash, digest)
        case None => None
        case Some(n) =>
          var attrs := MapOf(AllEvents(t)[i].attrs);
          Some((Place(h.height, h.time, t.hash, n, i, At(attrs, CONTRACT_ADDRESS)), attrs))
  }

  datatype Outcome =
    | Withdrawn(place: Place, lender: string, amount: string, scaledAmount: string)
    | WithdrawnExact(place: Place, lender: string, amount: string, scaledAmount: string)
    | Transferred(place: Place, lender: string, recipient: string, amount: string, scaledAmount: string)
    | TransferredExact(place: Place, lender: string, recipient: string, amount: string, scaledAmount: string)

  function ParseWithdraw(tx: Option<TxResponse>, block: Option<Block>, digest: string -> string): Option<Outcome> {
    match Locate(tx, block, digest, WITHDRAW)
    case None => None
    case Some((p, m)) => Some(Withdrawn(p, At(m, "lender"), At(m, "amount"), At(m, "scaled_amount")))
  }

  function ParseWithdrawExact(tx: Option<TxResponse>, block: Option<Block>, digest: string -> string): Option<Outcome> {
    match Locate(tx, block, digest, WITHDRAW_EXACT)
    case None => None
    case Some((p, m)) => Some(WithdrawnExact(p, At(m, "lender"), At(m, "amount"), At(m, "scaled_amount")))
  }

  function ParseTransfer(tx: Option<TxResponse>, block: Option<Block>, digest: string -> string): Option<Outcome> {
    match Locate(tx, block, digest, TRANSFER)
    case None => None
    case Some((p, m)) =>
      Some(Transferred(p, At(m, "lender"), At(m, "recipient"), At(m, "amount"), At(m, "scaled_amount")))
  }

  function ParseTransferExact(tx: Option<TxResponse>, block: Option<Block>, digest: string -> string): Option<Outcome> {
    match Locate(tx, block, digest, TRANSFER_EXACT)
    case None => None
    case Some((p, m)) =>
      Some(TransferredExact(p, At(m, "lender"), At(m, "recipient"), At(m, "amount"), At(m, "scaled_amount")))
  }

  /** None is the source's error. */
  function ParseCw20Receive(tx: Option<TxResponse>, block: Option<Block>, digest: string -> string): Option<Outcome> {
    if tx.None? then None
    else if ParseWithdraw(tx, block, digest).Some? then ParseWithdraw(tx, block, digest)
    else if ParseWithdrawExact(tx, block, digest).Some? then ParseWithdrawExact(tx, block, digest)
    else if ParseTransfer(tx, block, digest).Some? then ParseTransfer(tx, block, digest)
    else ParseTransferExact(tx, block, digest)
  }

  /** Some event, of the transaction's own or of its logs, gives "action" that value. */
  ghost predicate Occurs(tx: TxResponse, action: string) {
    exists i: nat, ev :: Stands(tx, i, ev) && Gives(ev, "action", action)
  }

  /** The block has a header and contains the transaction. */
  ghost predicate Holds(block: Option<Block>, tx: TxResponse, digest: string -> string) {
    && block.Some? && block.value.header.Some? && block.value.txs.Some?
    && exists n: nat :: FirstWithHash(block.value.txs.value, tx.hash, digest, n)
  }

  lemma {:induction false} BlockHolds(block: Option<Block>, tx: TxResponse, digest: string -> string)
    ensures Holds(block, tx, digest)
            <==> block.Some? && block.value.header.Some? && TxIndex(block, tx.hash, digest).Some?
  {
    if block.Some? && block.value.txs.Some? {
      IndexIsFirst(block.value.txs.value, tx.hash, digest);
    }
  }

  lemma {:induction false} LocateSucceeds(
    tx: TxResponse, block: Option<Block>, digest: string -> string, action: string)
    ensures Locate(Some(tx), block, digest, action).Some? <==> Holds(block, tx, digest) && Occurs(tx, action)
  {
    BlockHolds(block, tx, digest);
    FirstActionActs(tx, action);
  }

  /** The kind of the outcome depends only on which actions occur, whatever the order of
      the events; without a block that holds the transaction there is no outcome. */
  lemma {:induction false} OutcomeKind(tx: TxResponse, block: Option<Block>, digest: string -> string)
    ensures var r := ParseCw20Receive(Some(tx), block, digest);
            && (r.None? <==> !Holds(block, tx, digest)
                             || !(Occurs(tx, "withdraw") || Occurs(tx, "withdraw_exact")
                                  || Occurs(tx, "transfer") || Occurs(tx, "transfer_exact")))
            && (r.Some? ==>
                  && (r.value.Withdrawn? <==> Occurs(tx, "withdraw"))
                  && (r.value.WithdrawnExact? <==> Occurs(tx, "withdraw_exact") && !Occurs(tx, "withdraw"))
                  && (r.value.Transferred? <==>
                        Occurs(tx, "transfer") && !Occurs(tx, "withdraw_exact") && !Occurs(tx, "withdraw")))
  {
    LocateSucceeds(tx, block, digest, "withdraw");
    LocateSucceeds(tx, block, digest, "withdraw_exact");
    LocateSucceeds(tx, block, digest, "transfer");
    LocateSucceeds(tx, block, digest, "transfer_exact");
  }

  function ActionOf(o: Outcome): string {
    match o
    case Withdrawn(_, _, _, _) => "withdraw"
    case WithdrawnExact(_, _, _, _) => "withdraw_exact"
    case Transferred(_, _, _, _, _) => "transfer"
    case TransferredExact(_, _, _, _, _) => "transfer_exact"
  }

  /** The parts of an outcome that come from the event's attributes. */
  ghost predicate Reads(o: Outcome, ev: Event) {
    && Gives(ev, "_contract_address", o.place.contract)
    && Gives(ev, "lender", o.lender) && Gives(ev, "amount", o.amount)
    && Gives(ev, "scaled_amount", o.scaledAmount)
    && (o.Transferred? || o.TransferredExact? ==> Gives(ev, "recipient", o.recipient))
  }

  /** A place gives the block's header, the first transaction with the hash, and the least
      index of an event with the action. */
  ghost predicate Placed(
    p: Place, tx: TxResponse, block: Block, digest: string -> string, action: string, ev: Event)
  {
    && FirstToAct(tx, action, p.eventIndex, ev)
    && p.txHash == tx.hash
    && block.header == Some(Header(p.height, p.time))
    && block.txs.Some? && FirstWithHash(block.txs.value, tx.hash, digest, p.txIndex)
  }

  lemma {:induction false} LocatePlaces(tx: TxResponse, block: Option<Block>, digest: string -> string, action: string)
    returns (ev: Event)
    requires Locate(Some(tx), block, digest, action).Some?
    ensures var (p, m) := Locate(Some(tx), block, digest, action).value;
            block.Some? && Placed(p, tx, block.value, digest, action, ev) && m == MapOf(ev.attrs)
            && p.contract == At(m, CONTRACT_ADDRESS)
  {
    FirstActionActs(tx, action);
    IndexIsFirst(block.value.txs.value, tx.hash, digest);
    ev := AllEvents(tx)[Locate(Some(tx), block, digest, action).value.0.eventIndex];
  }

  /** An outcome stands at the place of its action and carries that event's attributes. */
  lemma {:induction false} OutcomePlace(tx: TxResponse, block: Option<Block>, digest: string -> string)
    ensures var r := ParseCw20Receive(Some(tx), block, digest);
            r.Some? ==>
              && block.Some?
              && exists ev :: Placed(r.value.place, tx, block.value, digest, ActionOf(r.value), ev)
                              && Reads(r.value, ev)
  {
    var r := ParseCw20Receive(Some(tx), block, digest);
    if r.Some? {
      var ev := LocatePlaces(tx, block, digest, ActionOf(r.value));
      AtIsGiven(ev, "_contract_address", r.value.place.contract);
      AtIsGiven(ev, "lender", r.value.lender);
      AtIsGiven(ev, "amount", r.value.amount);
      AtIsGiven(ev, "scaled_amount", r.value.scaledAmount);
      if r.value.Transferred? || r.value.TransferredExact? {
        AtIsGiven(ev, "recipient", r.value.recipient);
      }
    }
  }
}
