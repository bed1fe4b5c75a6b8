/** The sequence allocator under any number of concurrent callers: NextSequence reads and
    increments the field under the mutex, ResetSequence queries the chain without holding
    it and writes the answer under it. The query itself takes the mutex for a moment, to
    get its client, which is why the reset must not hold it. */
module Allocator {
  import opened Options
  import opened Sequencing
  import opened Runs

  datatype Pc =
    | Idle
    | NextLocked
    | NextRead(value: uint64)
    | NextBumped(value: uint64)   // about to unlock and return
    | ResetStarted
    | ClientLocked                // AuthClient holds the mutex
    | Querying
    | Queried(value: uint64)
    | ResetLocked(value: uint64)
    | ResetWritten                // about to unlock and return

  /** The values returned between one write by a reset and the next, in order. */
  datatype Epoch = Epoch(written: uint64, drawn: seq<uint64>)

  datatype State = State(sequence: uint64, lock: Option<nat>, pcs: map<nat, Pc>, epochs: seq<Epoch>)

  ghost predicate IsInitial(s: State) {
    s.lock == None && (forall t | t in s.pcs :: s.pcs[t] == Idle) && s.epochs == [Epoch(s.sequence, [])]
  }

  function At(s: State, t: nat, pc: Pc): State {
    s.(pcs := s.pcs[t := pc])
  }

  function Drawing(epochs: seq<Epoch>, v: uint64): seq<Epoch>
    requires epochs != []
  {
    var last := |epochs| - 1;
    epochs[last := epochs[last].(drawn := epochs[last].drawn + [v])]
  }

  /** One atomic step of thread t. */
  ghost predicate StepOf(s: State, s': State, t: nat) {
    && t in s.pcs
    && match s.pcs[t]
       case Idle =>
         || (s.lock == None && s' == At(s, t, NextLocked).(lock := Some(t)))
         || s' == At(s, t, ResetStarted)
       case NextLocked => s' == At(s, t, NextRead(s.sequence))
       case NextRead(v) => s' == At(s, t, NextBumped(v)).(sequence := Succ(s.sequence))
       case NextBumped(v) =>
         s.epochs != [] && s' == At(s, t, Idle).(lock := None, epochs := Drawing(s.epochs, v))
       case ResetStarted => s.lock == None && s' == At(s, t, ClientLocked).(lock := Some(t))
       case ClientLocked => s' == At(s, t, Querying).(lock := None)
       case Querying => s' == At(s, t, Idle) || exists v: uint64 :: s' == At(s, t, Queried(v))
       case Queried(v) => s.lock == None && s' == At(s, t, ResetLocked(v)).(lock := Some(t))
       case ResetLocked(v) =>
         s' == At(s, t, ResetWritten).(sequence := v, epochs := s.epochs + [Epoch(v, [])])
       case ResetWritten => s' == At(s, t, Idle).(lock := None)
  }

  ghost predicate Step(s: State, s': State) {
    exists t :: StepOf(s, s', t)
  }

  ghost function Protocol(): System<State> {
    System((s: State) => IsInitial(s), (s: State, s': State) => Step(s, s'))
  }

  predicate Holds(pc: Pc) {
    match pc
    case NextLocked => true
    case NextRead(_) => true
    case NextBumped(_) => true
    case ClientLocked => true
    case ResetLocked(_) => true
    case ResetWritten => true
    case _ => false
  }

  /** The values of an epoch are consecutive from the value written. */
  ghost predicate Consecutive(e: Epoch) {
    forall i | 0 <= i < |e.drawn| :: e.drawn[i] == Plus(e.written, i)
  }

  ghost predicate Exclusive(s: State) {
    && (forall t | t in s.pcs :: Holds(s.pcs[t]) <==> s.lock == Some(t))
    && (s.lock.Some? ==> s.lock.value in s.pcs)
  }

  /** One while a caller has incremented the field and not yet returned. */
  function Ahead(s: State): nat {
    if s.lock.Some? && s.lock.value in s.pcs && s.pcs[s.lock.value].NextBumped? then 1 else 0
  }

  ghost predicate Ordered(s: State) {
    && s.epochs != []
    && (forall k | 0 <= k < |s.epochs| :: Consecutive(s.epochs[k]))
    && var now := s.epochs[|s.epochs| - 1];
    && s.sequence == Plus(now.written, |now.drawn| + Ahead(s))
    && (forall t | t in s.pcs && s.pcs[t].NextRead? :: s.pcs[t].value == s.sequence)
    && (forall t | t in s.pcs && s.pcs[t].NextBumped? :: s.pcs[t].value == Plus(now.written, |now.drawn|))
  }

  ghost predicate Safe(s: State) {
    Exclusive(s) && Ordered(s)
  }

  ghost function Invariant(): State -> bool {
    (s: State) => Safe(s)
  }

  lemma {:induction false} StepKeepsExclusive(s: State, s': State, t: nat)
    requires Exclusive(s) && StepOf(s, s', t)
    ensures Exclusive(s')
  {}

  lemma {:induction false} AloneInside(s: State, t: nat)
    requires Exclusive(s) && t in s.pcs && Holds(s.pcs[t])
    ensures forall u | u in s.pcs && u != t :: !Holds(s.pcs[u])
  {}

  lemma {:induction false} ConsecutiveMore(e: Epoch, v: uint64)
    requires Consecutive(e) && v == Plus(e.written, |e.drawn|)
    ensures Consecutive(Epoch(e.written, e.drawn + [v]))
  {}

  lemma {:induction false} BumpKeepsOrdered(s: State, s': State, t: nat)
    requires Exclusive(s) && Ordered(s) && StepOf(s, s', t) && s.pcs[t].NextRead?
    ensures Ordered(s')
  {
    AloneInside(s, t);
    var now := s.epochs[|s.epochs| - 1];
    SuccOfPlus(now.written, |now.drawn|);
  }

  lemma {:induction false} ReturnKeepsOrdered(s: State, s': State, t: nat)
    requires Exclusive(s) && Ordered(s) && StepOf(s, s', t) && s.pcs[t].NextBumped?
    ensures Ordered(s')
  {
    AloneInside(s, t);
    ConsecutiveMore(s.epochs[|s.epochs| - 1], s.pcs[t].value);
  }

  lemma {:induction false} WriteKeepsOrdered(s: State, s': State, t: nat)
    requires Exclusive(s) && Ordered(s) && StepOf(s, s', t) && s.pcs[t].ResetLocked?
    ensures Ordered(s')
  {
    AloneInside(s, t);
    assert Consecutive(Epoch(s.pcs[t].value, []));
  }

  lemma {:induction false} ReadKeepsOrdered(s: State, s': State, t: nat)
    requires Exclusive(s) && Ordered(s) && StepOf(s, s', t) && s.pcs[t].NextLocked?
    ensures Ordered(s')
  {
    AloneInside(s, t);
    assert Ahead(s) == 0 && Ahead(s') == 0;
  }

  lemma {:induction false} OthersLeaveTheField(s: State, s': State, t: nat)
    requires Exclusive(s) && StepOf(s, s', t)
    requires !s.pcs[t].NextLocked? && !s.pcs[t].NextRead? && !s.pcs[t].NextBumped? && !s.pcs[t].ResetLocked?
    ensures s'.sequence == s.sequence && s'.epochs == s.epochs && Ahead(s') == Ahead(s)
    ensures forall u | u in s'.pcs && u != t :: u in s.pcs && s'.pcs[u] == s.pcs[u]
    ensures t in s'.pcs && !s'.pcs[t].NextRead? && !s'.pcs[t].NextBumped?
  {}

  lemma {:induction false} OthersKeepOrdered(s: State, s': State, t: nat)
    requires Exclusive(s) && Ordered(s) && StepOf(s, s', t)
    requires !s.pcs[t].NextLocked? && !s.pcs[t].NextRead? && !s.pcs[t].NextBumped? && !s.pcs[t].ResetLocked?
    ensures Ordered(s')
  {
    OthersLeaveTheField(s, s', t);
  }

  lemma {:induction false} StepKeepsSafe(s: State, s': State, t: nat)
    requires Safe(s) && StepOf(s, s', t)
    ensures Safe(s')
  {
    StepKeepsExclusive(s, s', t);
    if s.pcs[t].NextLocked? {
      ReadKeepsOrdered(s, s', t);
    } else if s.pcs[t].NextRead? {
      BumpKeepsOrdered(s, s', t);
    } else if s.pcs[t].NextBumped? {
      ReturnKeepsOrdered(s, s', t);
    } else if s.pcs[t].ResetLocked? {
      WriteKeepsOrdered(s, s', t);
    } else {
      OthersKeepOrdered(s, s', t);
    }
  }

  lemma {:induction false} SomeStepKeepsSafe(s: State, s': State)
    requires Safe(s) && Step(s, s')
    ensures Safe(s')
  {
    var t :| StepOf(s, s', t);
    StepKeepsSafe(s, s', t);
  }

  lemma {:induction false} StartIsSafe(s: State)
    requires IsInitial(s)
    ensures Safe(s)
  {
    assert s.epochs[0].drawn == [];
  }

  lemma {:induction false} Sound()
    ensures Inductive(Protocol(), Invariant())
  {
    forall s | Protocol().init(s) ensures Safe(s) {
      StartIsSafe(s);
    }
    forall s, s' | Safe(s) && Protocol().step(s, s') ensures Safe(s') {
      SomeStepKeepsSafe(s, s');
    }
  }

  lemma {:induction false} PlusIsInjective(x: uint64, i: nat, j: nat)
    requires i < j < WIDTH
    ensures Plus(x, i) != Plus(x, j)
  {}

  // ---------- Main results ----------

  /** Whatever the callers and resets do, the values returned between two writes are
      consecutive from the value written, and so distinct (up to 2^64 of them); and at most
      one thread is between a lock and its unlock. */
  lemma {:induction false} EpochsAreConsecutive(run: seq<State>, k: nat)
    requires IsRun(Protocol(), run) && k < |Last(run).epochs|
    ensures var e := Last(run).epochs[k];
            && (forall i | 0 <= i < |e.drawn| :: IsSequence(e.written, i, e.drawn[i]))
            && (forall i, j | 0 <= i < j < |e.drawn| && j < 0x1_0000_0000_0000_0000 :: e.drawn[i] != e.drawn[j])
    ensures var pcs := Last(run).pcs;
            forall t, u | t in pcs && u in pcs && Holds(pcs[t]) && Holds(pcs[u]) :: t == u
  {
    Sound();
    InvariantOnRun(Protocol(), Invariant(), run);
    var e := Last(run).epochs[k];
    assert Consecutive(e);
    forall i | 0 <= i < |e.drawn| ensures IsSequence(e.written, i, e.drawn[i]) {
      PlusIsSum(e.written, i);
    }
    forall i, j | 0 <= i < j < |e.drawn| && j < WIDTH ensures e.drawn[i] != e.drawn[j] {
      PlusIsInjective(e.written, i, j);
    }
  }

  function Rank(pc: Pc): nat {
    match pc
    case NextLocked => 3
    case NextRead(_) => 2
    case ResetLocked(_) => 2
    case _ => 1
  }

  ghost function Held(): State -> nat {
    (s: State) => if s.lock.Some? && s.lock.value in s.pcs then Rank(s.pcs[s.lock.value]) else 0
  }

  lemma {:induction false} HolderCanMove(s: State) returns (s': State)
    requires Safe(s) && s.lock.Some?
    ensures StepOf(s, s', s.lock.value) && Held()(s') < Held()(s)
  {
    var t := s.lock.value;
    match s.pcs[t]
    case NextLocked => s' := At(s, t, NextRead(s.sequence));
    case NextRead(v) => s' := At(s, t, NextBumped(v)).(sequence := Succ(s.sequence));
    case NextBumped(v) => s' := At(s, t, Idle).(lock := None, epochs := Drawing(s.epochs, v));
    case ClientLocked => s' := At(s, t, Querying).(lock := None);
    case ResetLocked(v) => s' := At(s, t, ResetWritten).(sequence := v, epochs := s.epochs + [Epoch(v, [])]);
    case ResetWritten => s' := At(s, t, Idle).(lock := None);
  }

  /** The mutex is always released: no caller waits for it for ever because of a holder
      that waits itself. */
  lemma {:induction false} LockIsReleased(run: seq<State>) returns (path: seq<State>)
    requires IsRun(Protocol(), run)
    ensures IsPath(Protocol(), path) && path[0] == Last(run) && Last(path).lock == None
  {
    Sound();
    InvariantOnRun(Protocol(), Invariant(), run);
    var free := (s: State) => s.lock == None;
    forall s | Invariant()(s) && !free(s)
      ensures exists s' :: Protocol().step(s, s') && Held()(s') < Held()(s)
    {
      var s' := HolderCanMove(s);
      assert Step(s, s');
      assert Protocol().step(s, s');
    }
    path := ReachesFinal(Protocol(), Invariant(), Held(), free, Last(run));
  }
}
