/** AddAttributes does not wait for a transaction before it signs the next. The chain then
    knows two sequences for the account: the committed one, which an account query answers,
    and the one after the transactions still pending, against which it simulates. A failed
    simulation resets the client to the committed sequence. */
module Pipelining {
  import opened Sequencing

  /** `pending` counts the transactions accepted but not yet in a block. */
  datatype Line = Line(client: uint64, committed: uint64, pending: nat)

  /** The sequence the chain accepts next. */
  function Next(l: Line): uint64 {
    Plus(l.committed, l.pending)
  }

  predicate Aligned(l: Line) {
    l.client == Next(l)
  }

  /** What happens: a batch is submitted, a block takes in the oldest pending transactions,
      or the chain drops the youngest. `buildFails`, `simFails`: setting up or simulating
      the transaction fails for a reason other than the sequence; `notSent`: signing or
      broadcast fails and the chain gets nothing. */
  datatype Event =
    | Submit(buildFails: bool, simFails: bool, queryFails: bool, notSent: bool)
    | Block(count: nat)
    | Drop(count: nat)

  predicate Rejected(l: Line, ev: Event) {
    ev.Submit? && !ev.buildFails && !Aligned(l)
  }

  /** Simulation fails, and the client goes back to the committed sequence. */
  predicate Resets(l: Line, ev: Event) {
    ev.Submit? && !ev.buildFails && (!Aligned(l) || ev.simFails) && !ev.queryFails
  }

  predicate ResetFails(l: Line, ev: Event) {
    ev.Submit? && !ev.buildFails && (!Aligned(l) || ev.simFails) && ev.queryFails
  }

  /** The sequence is drawn and not used, and nothing is reset. */
  predicate Lost(l: Line, ev: Event) {
    ev.Submit? && (ev.buildFails || (Aligned(l) && !ev.simFails && ev.notSent))
  }

  function Capped(count: nat, pending: nat): nat {
    if count <= pending then count else pending
  }

  function Happen(l: Line, ev: Event): Line {
    match ev
    case Submit(_, _, _, _) =>
      if Resets(l, ev) then l.(client := l.committed)
      else if ResetFails(l, ev) || Lost(l, ev) then l.(client := Succ(l.client))
      else l.(client := Succ(l.client), pending := l.pending + 1)
    case Block(count) =>
      var n := Capped(count, l.pending);
      l.(committed := Plus(l.committed, n), pending := l.pending - n)
    case Drop(count) => l.(pending := l.pending - Capped(count, l.pending))
  }

  function After(l: Line, run: seq<Event>): Line {
    if run == [] then l else Happen(After(l, run[..|run| - 1]), run[|run| - 1])
  }

  function Count(l: Line, run: seq<Event>, what: (Line, Event) -> bool): nat {
    if run == [] then 0
    else
      var front := run[..|run| - 1];
      Count(l, front, what) + if what(After(l, front), run[|run| - 1]) then 1 else 0
  }

  /** A reset while transactions are pending. */
  predicate ResetsEarly(l: Line, ev: Event) {
    Resets(l, ev) && l.pending > 0
  }

  predicate Drops(l: Line, ev: Event) {
    ev.Drop? && Capped(ev.count, l.pending) > 0
  }

  lemma {:induction false} PlusPlus(x: uint64, m: nat, n: nat)
    ensures Plus(Plus(x, m), n) == Plus(x, m + n)
  {}

  /** A reset brings the client back in line exactly when no transaction is pending (up to
      a full round of the sequence): the recovery is not what its comment promises. */
  lemma {:induction false} ResetRecoversIffNonePending(l: Line, ev: Event)
    requires Resets(l, ev)
    ensures Aligned(Happen(l, ev)) <==> l.pending % WIDTH == 0
  {}

  /** Only a lost sequence, a failed reset, an early reset or a dropped transaction can put
      the client out of line. */
  lemma {:induction false} OnlyTheseMisalign(l: Line, ev: Event)
    requires Aligned(l) || Resets(l, ev)
    requires !Lost(l, ev) && !ResetFails(l, ev) && !ResetsEarly(l, ev) && !Drops(l, ev)
    ensures Aligned(Happen(l, ev))
  {
    match ev
    case Submit(_, _, _, _) =>
      SuccOfPlus(l.committed, l.pending);
    case Block(count) =>
      PlusPlus(l.committed, Capped(count, l.pending), l.pending - Capped(count, l.pending));
    case Drop(_) =>
  }

  /** A rejection is paid for by the start or by one of those four. */
  lemma {:induction false} RejectionsAreBounded(l: Line, run: seq<Event>)
    ensures Count(l, run, Rejected) + (if Aligned(After(l, run)) then 0 else 1)
         <= (if Aligned(l) then 0 else 1) + Count(l, run, Lost) + Count(l, run, ResetFails)
            + Count(l, run, ResetsEarly) + Count(l, run, Drops)
  {
    if run != [] {
      var front := run[..|run| - 1];
      var here, ev := After(l, front), run[|run| - 1];
      RejectionsAreBounded(l, front);
      if (Aligned(here) || Resets(here, ev))
         && !Lost(here, ev) && !ResetFails(here, ev) && !ResetsEarly(here, ev) && !Drops(here, ev) {
        OnlyTheseMisalign(here, ev);
      }
    }
  }

  lemma {:induction false} OneMore(l: Line, run: seq<Event>, ev: Event, what: (Line, Event) -> bool)
    ensures After(l, run + [ev]) == Happen(After(l, run), ev)
    ensures Count(l, run + [ev], what) == Count(l, run, what) + if what(After(l, run), ev) then 1 else 0
  {
    assert (run + [ev])[..|run|] == run;
  }

  /** The faults of a run other than an early reset. */
  predicate Faulty(l: Line, ev: Event) {
    Lost(l, ev) || ResetFails(l, ev) || Drops(l, ev)
  }

  const SEND: Event := Submit(false, false, false, false)

  /** While the block is awaited one failed simulation costs any number of rejections, with
      every account query answered and no transaction lost. */
  lemma {:induction false} OneFailureCostsAnyNumber(l: Line, k: nat) returns (run: seq<Event>)
    requires Aligned(l) && l.pending == 0
    ensures Count(l, run, Rejected) == k && Count(l, run, Faulty) == 0
    ensures After(l, run) == Line(l.committed, l.committed, 1)
  {
    if k == 0 {
      var fail := Submit(false, true, false, false);
      OneMore(l, [], SEND, Rejected);
      OneMore(l, [], SEND, Faulty);
      OneMore(l, [SEND], fail, Rejected);
      OneMore(l, [SEND], fail, Faulty);
      run := [] + [SEND] + [fail];
    } else {
      var front := OneFailureCostsAnyNumber(l, k - 1);
      SuccMoves(l.committed);
      OneMore(l, front, SEND, Rejected);
      OneMore(l, front, SEND, Faulty);
      run := front + [SEND];
    }
  }

  /** Once a block has taken in all that is pending, the next failed simulation repairs the
      client. */
  lemma {:induction false} BlockThenResetRecovers(l: Line, count: nat, ev: Event)
    requires count >= l.pending && Resets(Happen(l, Block(count)), ev)
    ensures Aligned(Happen(Happen(l, Block(count)), ev))
  {}

  /** A sender that waits for a block after each submission is the one of `Sequencing`. */
  lemma {:induction false} WaitingIsAnAttempt(l: Line, ledger: seq<Included>, a: Account, r: Request)
    requires l.pending == 0 && a.hasSigner && a.address != ""
    ensures var w := r.world;
            var ev := Submit(w.buildFails, w.simFails, w.queryFails, w.signFails || !w.included);
            var e' := Attempt(Ends(l.client, l.committed, ledger), a, r.msgs, r.fee, w);
            Happen(Happen(l, ev), Block(1)) == Line(e'.client, e'.chain, 0)
  {
    assert Next(l) == l.committed;
    assert Succ(l.committed) == Plus(l.committed, 1);
  }
}
