/** The producer half of a paginated stream: the goroutine that walks a key cursor page by
    page, the bounded data channel and the one-slot error channel. The five stream
    functions are this one algorithm; they differ in the item type and in `limit`.

    A page key is modelled by the position it stands for, the nil key being position 0. */
module PagedStream {

  datatype Error = Cancelled | Rpc(code: nat)

  /** `items` is the server's full list, `limit` both the page limit and the capacity of
      the data channel. The server never sends a page longer than `limit`, sends an empty
      page only when nothing is left, and a next key exactly when something is left;
      with `fullPages` it fills every page it can. */
  datatype Config<T> = Config(items: seq<T>, limit: nat, fullPages: bool, mayFail: bool, mayCancel: bool) {
    ghost predicate Valid() { limit > 0 }

    ghost predicate Reliable() { !mayFail && !mayCancel }
  }

  datatype Pc =
    | Fetching                 // about to call the RPC, or waiting for it
    | Failed(error: Error)     // the RPC returned an error, ctx.Err() not yet consulted
    | Paging                   // in the loop over the items of a page
    | Reporting(error: Error)  // about to send on the error channel
    | ClosingErr               // first deferred close
    | ClosingData              // second deferred close
    | Exited

  /** `cursor` is the position the last response's next key stands for, `page` what is left
      to send of that response. */
  datatype Producer<T> = Producer(
    pc: Pc,
    cancelled: bool,
    cursor: nat,
    page: seq<T>,
    data: seq<T>,
    dataClosed: bool,
    err: seq<Error>,
    errClosed: bool,
    requests: nat)

  function Start<T>(): Producer<T> {
    Producer(Fetching, false, 0, [], [], false, [], false, 0)
  }

  ghost predicate FetchPage<T(!new)>(c: Config<T>, p: Producer<T>, p': Producer<T>) {
    var n := |c.items|;
    && p.pc == Fetching
    && p.cursor <= p'.cursor <= n
    && p'.cursor - p.cursor <= c.limit
    && (p.cursor < n ==> p.cursor < p'.cursor)
    && (c.fullPages ==> p'.cursor == n || p'.cursor == p.cursor + c.limit)
    && p' == p.(pc := Paging, page := c.items[p.cursor..p'.cursor], cursor := p'.cursor, requests := p.requests + 1)
  }

  /** The RPC fails by itself, or because its context is cancelled. */
  ghost predicate FetchFails<T(!new)>(c: Config<T>, p: Producer<T>, p': Producer<T>) {
    && p.pc == Fetching
    && p'.pc.Failed? && p'.pc.error.Rpc?
    && (c.mayFail || p.cancelled)
    && p' == p.(pc := p'.pc, requests := p.requests + 1)
  }

  ghost predicate ConsultContext<T(!new)>(p: Producer<T>, p': Producer<T>) {
    && p.pc.Failed?
    && p' == p.(pc := Reporting(if p.cancelled then Cancelled else p.pc.error))
  }

  ghost predicate SendItem<T(!new)>(c: Config<T>, p: Producer<T>, p': Producer<T>) {
    && p.pc == Paging && p.page != []
    && |p.data| < c.limit
    && p' == p.(data := p.data + [p.page[0]], page := p.page[1..])
  }

  ghost predicate AbandonPage<T(!new)>(p: Producer<T>, p': Producer<T>) {
    && p.pc == Paging && p.page != []
    && p.cancelled
    && p' == p.(pc := Reporting(Cancelled))
  }

  /** The page is sent: stop on an empty next key, else ask for the next page. */
  ghost predicate EndPage<T(!new)>(c: Config<T>, p: Producer<T>, p': Producer<T>) {
    && p.pc == Paging && p.page == []
    && p' == p.(pc := if p.cursor < |c.items| then Fetching else ClosingErr)
  }

  /** A send on the error channel waits for its one slot. */
  ghost predicate Report<T(!new)>(p: Producer<T>, p': Producer<T>) {
    && p.pc.Reporting?
    && |p.err| < 1
    && p' == p.(err := p.err + [p.pc.error], pc := ClosingErr)
  }

  ghost predicate CloseErr<T(!new)>(p: Producer<T>, p': Producer<T>) {
    p.pc == ClosingErr && p' == p.(errClosed := true, pc := ClosingData)
  }

  ghost predicate CloseData<T(!new)>(p: Producer<T>, p': Producer<T>) {
    p.pc == ClosingData && p' == p.(dataClosed := true, pc := Exited)
  }

  /** One atomic step of the goroutine. A select offers both of its enabled cases. */
  ghost predicate ProducerStep<T(!new)>(c: Config<T>, p: Producer<T>, p': Producer<T>) {
    || FetchPage(c, p, p')
    || FetchFails(c, p, p')
    || ConsultContext(p, p')
    || SendItem(c, p, p')
    || AbandonPage(p, p')
    || EndPage(c, p, p')
    || Report(p, p')
    || CloseErr(p, p')
    || CloseData(p, p')
  }

  /** The caller's context is cancelled, at any moment. */
  ghost predicate CancelContext<T(!new)>(c: Config<T>, p: Producer<T>, p': Producer<T>) {
    c.mayCancel && !p.cancelled && p' == p.(cancelled := true)
  }

  /** A reader takes the head of the data channel. */
  ghost predicate TakeItem<T(!new)>(p: Producer<T>, p': Producer<T>) {
    p.data != [] && p' == p.(data := p.data[1..])
  }

  /** A reader takes the value of the error channel. */
  ghost predicate TakeError<T(!new)>(p: Producer<T>, p': Producer<T>) {
    p.err != [] && p' == p.(err := p.err[1..])
  }

  // ---------- What every step keeps ----------

  /** Nothing is lost, repeated or reordered: what the reader has, what is in the channel,
      what is left of the page and what the cursor has not reached make up the list. */
  ghost predicate Accounted<T(!new)>(c: Config<T>, p: Producer<T>, received: seq<T>) {
    && p.cursor <= |c.items|
    && received + (p.data + p.page) + c.items[p.cursor..] == c.items
  }

  /** Everything the server has went into the data channel. */
  ghost predicate AllSent<T(!new)>(c: Config<T>, p: Producer<T>) {
    p.page == [] && p.cursor == |c.items|
  }

  ghost predicate BeforeClosing(pc: Pc) {
    pc.Fetching? || pc.Failed? || pc.Paging? || pc.Reporting?
  }

  /** An error on the error channel is the context's, and then the context is cancelled,
      or the RPC's, and then the RPC can fail by itself. */
  ghost predicate Caused<T(!new)>(c: Config<T>, p: Producer<T>, e: Error) {
    match e
    case Cancelled => p.cancelled
    case Rpc(_) => c.mayFail
  }

  /** How the control point, the channels and the closed flags hang together. `taken` says
      that a reader has taken an error from the error channel. */
  ghost predicate Consistent<T(!new)>(c: Config<T>, p: Producer<T>, taken: bool) {
    var n := |c.items|;
    && (p.errClosed <==> p.pc == ClosingData || p.pc == Exited)
    && (p.dataClosed <==> p.pc == Exited)
    && |p.err| <= 1
    && (BeforeClosing(p.pc) ==> p.err == [] && !taken)
    && (taken ==> p.err == [])
    && (p.pc.Fetching? || p.pc.Failed? ==> p.page == [] && (p.cursor < n || n == 0))
    && p.cursor <= n
    && (p.pc.Failed? ==> p.pc.error.Rpc? && (c.mayFail || p.cancelled))
    && (p.pc.Reporting? ==> Caused(c, p, p.pc.error))
    && (p.err != [] ==> Caused(c, p, p.err[0]))
    && (p.pc.Reporting? || p.err != [] ==> !AllSent(c, p) || n == 0)
    && (!BeforeClosing(p.pc) && p.err == [] && !taken ==> AllSent(c, p))
    && (p.cancelled ==> c.mayCancel)
  }

  ghost predicate Bounded<T(!new)>(c: Config<T>, p: Producer<T>) {
    |p.data| <= c.limit && |p.page| <= c.limit
  }

  ghost predicate Inv<T(!new)>(c: Config<T>, p: Producer<T>, received: seq<T>, taken: bool) {
    && c.Valid()
    && Accounted(c, p, received)
    && Consistent(c, p, taken)
    && Bounded(c, p)
  }

  lemma {:induction false} StartInv<T(!new)>(c: Config<T>)
    requires c.Valid()
    ensures Inv(c, Start(), [], false)
  {}

  lemma {:induction false} ProducerKeepsAccounted<T(!new)>(
    c: Config<T>, p: Producer<T>, p': Producer<T>, received: seq<T>)
    requires Accounted(c, p, received) && ProducerStep(c, p, p')
    requires p.pc.Fetching? ==> p.page == []
    ensures Accounted(c, p', received)
  {
    if FetchPage(c, p, p') {
      assert c.items[p.cursor..] == p'.page + c.items[p'.cursor..];
      assert p.data + p.page == p.data;
      assert received + p.data + (p'.page + c.items[p'.cursor..])
          == received + (p.data + p'.page) + c.items[p'.cursor..];
    } else if SendItem(c, p, p') {
      assert p'.data + p'.page == p.data + p.page;
    } else {
      assert p'.data == p.data && p'.page == p.page && p'.cursor == p.cursor;
    }
  }

  lemma {:induction false} ProducerKeepsConsistent<T(!new)>(c: Config<T>, p: Producer<T>, p': Producer<T>, taken: bool)
    requires Consistent(c, p, taken) && Bounded(c, p) && ProducerStep(c, p, p')
    ensures Consistent(c, p', taken) && Bounded(c, p')
  {}

  lemma {:induction false} ProducerKeepsInv<T(!new)>(
    c: Config<T>, p: Producer<T>, p': Producer<T>, received: seq<T>, taken: bool)
    requires Inv(c, p, received, taken) && ProducerStep(c, p, p')
    ensures Inv(c, p', received, taken)
  {
    ProducerKeepsAccounted(c, p, p', received);
    ProducerKeepsConsistent(c, p, p', taken);
  }

  /** A producer that moves has not exited; once past its last report it only closes. */
  lemma {:induction false} ProducerStepIsForward<T(!new)>(c: Config<T>, p: Producer<T>, p': Producer<T>)
    requires ProducerStep(c, p, p')
    ensures p.pc != Exited && p'.cancelled == p.cancelled && (p.errClosed ==> p'.errClosed)
    ensures !BeforeClosing(p.pc) ==> !BeforeClosing(p'.pc) && p'.err == p.err
  {}

  lemma {:induction false} TakeItemKeepsInv<T(!new)>(
    c: Config<T>, p: Producer<T>, p': Producer<T>, received: seq<T>, taken: bool)
    requires Inv(c, p, received, taken) && TakeItem(p, p')
    ensures Inv(c, p', received + [p.data[0]], taken)
  {}

  /** A reader that finds the data channel closed and drained has a prefix of the list, and
      the whole of it exactly when no error is left unread (or there was nothing to list). */
  lemma {:induction false} DrainedIsComplete<T(!new)>(c: Config<T>, p: Producer<T>, received: seq<T>)
    requires Inv(c, p, received, false) && p.data == [] && p.dataClosed
    ensures received <= c.items
    ensures received == c.items <==> p.err == [] || c.items == []
  {}

  // ---------- Progress ----------

  ghost function Rank<T(!new)>(c: Config<T>, p: Producer<T>): nat {
    match p.pc
    case Fetching => if p.cursor < |c.items| then 8 else 10
    case Paging => 9
    case Failed(_) => 7
    case Reporting(_) => 5
    case ClosingErr => 3
    case ClosingData => 2
    case Exited => 0
  }

  /** Falls with every step of the producer, of its reader and of the context. An item
      still on the server weighs 4: one page, one send and one receive, and a spare. */
  ghost function Work<T(!new)>(c: Config<T>, p: Producer<T>): nat
    requires p.cursor <= |c.items|
  {
    4 * (|c.items| - p.cursor) + 2 * |p.page| + |p.data| + |p.err| + Rank(c, p) + if p.cancelled then 0 else 1
  }

  lemma {:induction false} ProducerStepLowersWork<T(!new)>(
    c: Config<T>, p: Producer<T>, p': Producer<T>, received: seq<T>, taken: bool)
    requires Inv(c, p, received, taken) && ProducerStep(c, p, p')
    ensures p'.cursor <= |c.items| && Work(c, p') < Work(c, p)
  {}

  /** Nothing has gone wrong and the data channel is open. */
  ghost predicate Undisturbed<T(!new)>(p: Producer<T>) {
    !p.cancelled && p.err == [] && (p.pc.Fetching? || p.pc.Paging? || p.pc.ClosingErr? || p.pc.ClosingData?)
  }

  /** The server can answer with a full page. */
  lemma {:induction false} CanFetch<T(!new)>(c: Config<T>, p: Producer<T>) returns (p': Producer<T>)
    requires c.Valid() && p.pc.Fetching? && p.cursor <= |c.items|
    ensures FetchPage(c, p, p') && p' == p.(pc := Paging, page := p'.page, cursor := p'.cursor, requests := p'.requests)
  {
    var n := |c.items|;
    var k := if p.cursor + c.limit < n then p.cursor + c.limit else n;
    p' := p.(pc := Paging, page := c.items[p.cursor..k], cursor := k, requests := p.requests + 1);
  }

  lemma {:induction false} CanSend<T(!new)>(c: Config<T>, p: Producer<T>) returns (p': Producer<T>)
    requires p.pc == Paging && p.page != [] && |p.data| < c.limit
    ensures SendItem(c, p, p') && p' == p.(data := p'.data, page := p'.page)
  {
    p' := p.(data := p.data + [p.page[0]], page := p.page[1..]);
  }

  /** The producer can move unless it has exited or waits for room in the data channel. */
  lemma {:induction false} ProducerCanMove<T(!new)>(c: Config<T>, p: Producer<T>, received: seq<T>, taken: bool)
    returns (p': Producer<T>)
    requires Inv(c, p, received, taken) && p.pc != Exited
    requires |p.data| < c.limit || p.cancelled || p.pc != Paging
    ensures ProducerStep(c, p, p')
    ensures Undisturbed(p) && p.pc != ClosingData ==> Undisturbed(p')
  {
    match p.pc
    case Fetching =>
      p' := CanFetch(c, p);
    case Failed(e) =>
      p' := p.(pc := Reporting(if p.cancelled then Cancelled else e));
      assert ConsultContext(p, p');
    case Paging =>
      if p.page == [] {
        p' := p.(pc := if p.cursor < |c.items| then Fetching else ClosingErr);
        assert EndPage(c, p, p');
      } else if p.cancelled {
        p' := p.(pc := Reporting(Cancelled));
        assert AbandonPage(p, p');
      } else {
        p' := CanSend(c, p);
      }
    case Reporting(e) =>
      p' := p.(err := p.err + [e], pc := ClosingErr);
      assert Report(p, p');
    case ClosingErr =>
      p' := p.(errClosed := true, pc := ClosingData);
      assert CloseErr(p, p');
    case ClosingData =>
      p' := p.(dataClosed := true, pc := Exited);
      assert CloseData(p, p');
  }

  // ---------- Cost ----------

  /** The requests a list of n items takes in full pages of `limit`. */
  function PagesNeeded(n: nat, limit: nat): nat
    requires limit > 0
  {
    if n <= limit then 1 else 1 + PagesNeeded(n - limit, limit)
  }

  /** PagesNeeded is the larger of 1 and n / limit rounded up. */
  lemma {:induction false} PagesNeededIsCeiling(n: nat, limit: nat)
    requires limit > 0
    ensures var k := PagesNeeded(n, limit);
            k >= 1 && n <= k * limit && (k > 1 ==> (k - 1) * limit < n)
  {
    if n > limit {
      PagesNeededIsCeiling(n - limit, limit);
      var k := PagesNeeded(n - limit, limit);
      assert (k + 1) * limit == k * limit + limit;
      assert k * limit == (k - 1) * limit + limit;
    }
  }

  /** While nothing has failed, the requests made and the requests still to come add up. */
  ghost predicate OnBudget<T(!new)>(c: Config<T>, p: Producer<T>, taken: bool)
    requires c.Valid() && p.cursor <= |c.items|
  {
    var left := |c.items| - p.cursor;
    && (c.items == [] ==> p.requests == if p.pc.Fetching? then 0 else 1)
    && (c.fullPages && !p.pc.Failed? && !p.pc.Reporting? && p.err == [] && !taken ==>
      p.requests + (if p.pc.Fetching? || left > 0 then PagesNeeded(left, c.limit) else 0)
        == PagesNeeded(|c.items|, c.limit))
  }

  lemma {:induction false} FetchKeepsBudget<T(!new)>(c: Config<T>, p: Producer<T>, p': Producer<T>, taken: bool)
    requires c.Valid() && p.cursor <= |c.items| && OnBudget(c, p, taken) && FetchPage(c, p, p')
    ensures p'.cursor <= |c.items| && OnBudget(c, p', taken)
  {}

  lemma {:induction false} EndKeepsBudget<T(!new)>(c: Config<T>, p: Producer<T>, p': Producer<T>, taken: bool)
    requires c.Valid() && p.cursor <= |c.items| && OnBudget(c, p, taken) && EndPage(c, p, p')
    ensures p'.cursor <= |c.items| && OnBudget(c, p', taken)
  {}

  lemma {:induction false} ProducerKeepsBudget<T(!new)>(
    c: Config<T>, p: Producer<T>, p': Producer<T>, received: seq<T>, taken: bool)
    requires Inv(c, p, received, taken) && ProducerStep(c, p, p') && OnBudget(c, p, taken)
    ensures p'.cursor <= |c.items| && OnBudget(c, p', taken)
  {
    if FetchPage(c, p, p') {
      FetchKeepsBudget(c, p, p', taken);
    } else if EndPage(c, p, p') {
      EndKeepsBudget(c, p, p', taken);
    }
  }
}
