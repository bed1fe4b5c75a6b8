/** Authorization grants: a cursor loop that collects every page, and the filters over what
    it collects. A grant may be nil. The server is what it answers to each key, a key being
    the position it stands for. */
module Grants {
  import opened Options
  import opened PagedStream
  import opened Sequences

  const PAGE_LIMIT: nat := 100

  datatype NextKey = NilPagination | NoKey | Key(position: nat)

  datatype Response<T> = Failed(message: string) | Page(items: seq<T>, next: NextKey)

  datatype Fetched<T> = Error(message: string) | Items(items: seq<T>)

  /** The server answers each key with the next items, at most a page of them and at least
      one while any are left, and with a next key exactly when more are left; or it fails. */
  ghost predicate Answers<T(!new)>(respond: nat -> Response<T>, items: seq<T>) {
    forall k | 0 <= k <= |items| ::
      match respond(k)
      case Failed(_) => true
      case Page(xs, next) =>
        && |xs| <= PAGE_LIMIT && k + |xs| <= |items|
        && xs == items[k..k + |xs|]
        && (k < |items| ==> xs != [])
        && if k + |xs| < |items| then next == Key(k + |xs|) else !next.Key?
  }

  ghost predicate FillsPages<T(!new)>(respond: nat -> Response<T>, items: seq<T>) {
    forall k | 0 <= k <= |items| && respond(k).Page? ::
      |respond(k).items| == if k + PAGE_LIMIT <= |items| then PAGE_LIMIT else |items| - k
  }

  /** The first failure a walk from position k meets. */
  ghost function FailureFrom<T(!new)>(respond: nat -> Response<T>, items: seq<T>, k: nat): Option<string>
    requires Answers(respond, items) && k <= |items|
    decreases |items| - k
  {
    match respond(k)
    case Failed(message) => Some(message)
    case Page(xs, next) => if next.Key? then FailureFrom(respond, items, next.position) else None
  }

  /** The whole list, every item once and in order, or the first failure met; and with
      full pages no more requests than the list needs. */
  method AllGrants<T(!new)>(respond: nat -> Response<T>, ghost items: seq<T>) returns (out: Fetched<T>, requests: nat)
    requires Answers(respond, items)
    ensures out == match FailureFrom(respond, items, 0)
                   case Some(message) => Error(message)
                   case None => Items(items)
    ensures out.Items? && FillsPages(respond, items) ==> requests == PagesNeeded(|items|, PAGE_LIMIT)
    ensures out.Items? && FillsPages(respond, items) ==>
              requests >= 1 && |items| <= 100 * requests && (requests > 1 ==> 100 * (requests - 1) < |items|)
  {
    PagesNeededIsCeiling(|items|, PAGE_LIMIT);
    var key := 0;
    var collected: seq<T> := [];
    requests := 0;
    while true
      invariant key <= |items| && (key == |items| ==> items == [])
      invariant collected == items[..key]
      invariant FailureFrom(respond, items, key) == FailureFrom(respond, items, 0)
      invariant FillsPages(respond, items) ==>
                  requests + PagesNeeded(|items| - key, PAGE_LIMIT) == PagesNeeded(|items|, PAGE_LIMIT)
      decreases |items| - key
    {
      var response := respond(key);
      requests := requests + 1;
      match response {
        case Failed(message) =>
          return Error(message), requests;
        case Page(xs, next) =>
          collected := collected + xs;
          assert collected == items[..key + |xs|];
          if !next.Key? {
            assert items[..|items|] == items;
            return Items(collected), requests;
          }
          key := next.position;
      }
    }
  }

  // ---------- Filters ----------

  datatype ContractGrant = ContractGrant(contract: string, terms: string)

  datatype Authorization = OtherAuthorization | ContractExecution(grants: seq<ContractGrant>)

  datatype Grant = Grant(expiration: Option<int>, authorization: Authorization)

  /** A grant without an expiration, or none at all, does not expire; one expires only
      after its expiration time. */
  predicate StillValid(g: Option<Grant>, now: int) {
    g.None? || g.value.expiration.None? || g.value.expiration.value >= now
  }

  /** The valid ones, in order. */
  function ValidOf(grants: seq<Option<Grant>>, now: int): seq<Option<Grant>> {
    if grants == [] then []
    else
      var last := |grants| - 1;
      ValidOf(grants[..last], now) + if StillValid(grants[last], now) then [grants[last]] else []
  }

  function ForContract(grants: seq<ContractGrant>, contract: string): seq<ContractGrant> {
    if grants == [] then []
    else
      var last := |grants| - 1;
      ForContract(grants[..last], contract) + if grants[last].contract == contract then [grants[last]] else []
  }

  /** The execution entries one grant gives for a contract: none if it is nil, expired or
      of another type. */
  function EntriesFor(g: Option<Grant>, contract: string, now: int): seq<ContractGrant> {
    if g.Some? && StillValid(g, now) && g.value.authorization.ContractExecution?
    then ForContract(g.value.authorization.grants, contract) else []
  }

  function ExecutionOf(grants: seq<Option<Grant>>, contract: string, now: int): seq<ContractGrant> {
    if grants == [] then []
    else
      var last := |grants| - 1;
      ExecutionOf(grants[..last], contract, now) + EntriesFor(grants[last], contract, now)
  }

  lemma {:induction false} ValidOfIsExact(grants: seq<Option<Grant>>, now: int, g: Option<Grant>)
    ensures multiset(ValidOf(grants, now))[g] == if StillValid(g, now) then multiset(grants)[g] else 0
  {
    if grants != [] {
      var last := |grants| - 1;
      var front := ValidOf(grants[..last], now);
      ValidOfIsExact(grants[..last], now, g);
      assert grants == grants[..last] + [grants[last]];
      CountOfBoth(grants[..last], [grants[last]], g);
      CountOfBoth(front, [grants[last]], g);
    }
  }

  lemma {:induction false} ForContractIsEmpty(grants: seq<ContractGrant>, contract: string)
    ensures ForContract(grants, contract) == [] <==> forall cg | cg in grants :: cg.contract != contract
  {
    if grants != [] {
      var last := |grants| - 1;
      ForContractIsEmpty(grants[..last], contract);
      assert grants == grants[..last] + [grants[last]];
    }
  }

  /** The grant is present, unexpired, and lets its grantee execute the contract. */
  predicate GivesExecution(g: Option<Grant>, contract: string, now: int) {
    && g.Some? && StillValid(g, now)
    && g.value.authorization.ContractExecution?
    && exists cg | cg in g.value.authorization.grants :: cg.contract == contract
  }

  lemma {:induction false} EntriesForIsEmpty(g: Option<Grant>, contract: string, now: int)
    ensures EntriesFor(g, contract, now) == [] <==> !GivesExecution(g, contract, now)
  {
    if g.Some? && g.value.authorization.ContractExecution? {
      ForContractIsEmpty(g.value.authorization.grants, contract);
    }
  }

  lemma {:induction false} ExecutionOfIsEmpty(grants: seq<Option<Grant>>, contract: string, now: int)
    ensures ExecutionOf(grants, contract, now) == [] <==> forall g | g in grants :: !GivesExecution(g, contract, now)
  {
    if grants != [] {
      var last := |grants| - 1;
      ExecutionOfIsEmpty(grants[..last], contract, now);
      assert grants == grants[..last] + [grants[last]];
      EntriesForIsEmpty(grants[last], contract, now);
    }
  }

  // ---------- Which grants and entries are kept, position by position ----------

  predicate Unexpired(g: Option<Grant>, now: int) {
    g.Some? && g.value.expiration.Some? ==> now <= g.value.expiration.value
  }

  /** The list keeps exactly the unexpired grants, in their order. */
  ghost predicate Keeps(grants: seq<Option<Grant>>, now: int, kept: seq<Option<Grant>>, idx: seq<nat>) {
    && Increasing(idx) && (forall i: nat :: i in idx <==> i < |grants| && Unexpired(grants[i], now))
    && |kept| == |idx| && forall k | 0 <= k < |idx| :: idx[k] < |grants| && kept[k] == grants[idx[k]]
  }

  lemma {:induction false} KeepsMore(
    grants: seq<Option<Grant>>, g: Option<Grant>, now: int, kept: seq<Option<Grant>>, idx: seq<nat>)
    returns (idx': seq<nat>)
    requires Keeps(grants, now, kept, idx)
    ensures Keeps(grants + [g], now, kept + if Unexpired(g, now) then [g] else [], idx')
  {
    idx' := idx;
    if Unexpired(g, now) {
      IncreasingMore(idx, |grants|);
      idx' := idx + [|grants|];
    } else {
      assert kept + [] == kept;
    }
  }

  lemma {:induction false} ValidOfKeeps(grants: seq<Option<Grant>>, now: int) returns (idx: seq<nat>)
    ensures Keeps(grants, now, ValidOf(grants, now), idx)
  {
    idx := [];
    if grants != [] {
      var front, g := grants[..|grants| - 1], grants[|grants| - 1];
      idx := ValidOfKeeps(front, now);
      idx := KeepsMore(front, g, now, ValidOf(front, now), idx);
      assert grants == front + [g];
    }
  }

  /** Entry j of grant i is an execution entry for the contract, and the grant is present
      and unexpired. */
  ghost predicate EntryAt(grants: seq<Option<Grant>>, contract: string, now: int, i: nat, j: nat) {
    && i < |grants| && grants[i].Some? && Unexpired(grants[i], now)
    && grants[i].value.authorization.ContractExecution?
    && j < |grants[i].value.authorization.grants|
    && grants[i].value.authorization.grants[j].contract == contract
  }

  ghost predicate Lexicographic(at: seq<(nat, nat)>) {
    forall k, l | 0 <= k < l < |at| :: at[k].0 < at[l].0 || (at[k].0 == at[l].0 && at[k].1 < at[l].1)
  }

  /** The places of the entries for the contract, grant by grant and in their order. */
  ghost predicate Located(grants: seq<Option<Grant>>, contract: string, now: int, at: seq<(nat, nat)>) {
    && Lexicographic(at)
    && forall i: nat, j: nat :: (i, j) in at <==> EntryAt(grants, contract, now, i, j)
  }

  ghost predicate StandsAt(grants: seq<Option<Grant>>, place: (nat, nat), entry: ContractGrant) {
    && place.0 < |grants| && grants[place.0].Some?
    && grants[place.0].value.authorization.ContractExecution?
    && place.1 < |grants[place.0].value.authorization.grants|
    && entry == grants[place.0].value.authorization.grants[place.1]
  }

  ghost predicate Copied(grants: seq<Option<Grant>>, entries: seq<ContractGrant>, at: seq<(nat, nat)>) {
    |entries| == |at| && forall k | 0 <= k < |at| :: StandsAt(grants, at[k], entries[k])
  }

  /** The entries are exactly those for the contract, each once and in order. */
  ghost predicate Collects(
    grants: seq<Option<Grant>>, contract: string, now: int, entries: seq<ContractGrant>, at: seq<(nat, nat)>)
  {
    Located(grants, contract, now, at) && Copied(grants, entries, at)
  }

  ghost predicate Picks(candidates: seq<ContractGrant>, contract: string, picked: seq<ContractGrant>, js: seq<nat>) {
    && Increasing(js) && (forall j: nat :: j in js <==> j < |candidates| && candidates[j].contract == contract)
    && |picked| == |js| && forall k | 0 <= k < |js| :: js[k] < |candidates| && picked[k] == candidates[js[k]]
  }

  lemma {:induction false} PicksMore(
    candidates: seq<ContractGrant>, c: ContractGrant, contract: string, picked: seq<ContractGrant>, js: seq<nat>)
    returns (js': seq<nat>)
    requires Picks(candidates, contract, picked, js)
    ensures Picks(candidates + [c], contract, picked + if c.contract == contract then [c] else [], js')
  {
    js' := js;
    if c.contract == contract {
      IncreasingMore(js, |candidates|);
      js' := js + [|candidates|];
    } else {
      assert picked + [] == picked;
    }
  }

  lemma {:induction false} ForContractPicks(candidates: seq<ContractGrant>, contract: string) returns (js: seq<nat>)
    ensures Picks(candidates, contract, ForContract(candidates, contract), js)
  {
    js := [];
    if candidates != [] {
      var front, c := candidates[..|candidates| - 1], candidates[|candidates| - 1];
      js := ForContractPicks(front, contract);
      js := PicksMore(front, c, contract, ForContract(front, contract), js);
      assert candidates == front + [c];
    }
  }

  lemma {:induction false} PairsOf(n: nat, js: seq<nat>) returns (pairs: seq<(nat, nat)>)
    requires Increasing(js)
    ensures Lexicographic(pairs) && |pairs| == |js| && forall k | 0 <= k < |js| :: pairs[k] == (n, js[k])
    ensures forall i: nat, j: nat :: (i, j) in pairs <==> i == n && j in js
  {
    pairs := seq(|js|, k requires 0 <= k < |js| => (n, js[k]));
    forall j | j in js ensures (n, j) in pairs {
      var k :| 0 <= k < |js| && js[k] == j;
      assert pairs[k] == (n, j);
    }
  }

  lemma {:induction false} LexicographicBoth(xs: seq<(nat, nat)>, ys: seq<(nat, nat)>)
    requires Lexicographic(xs) && Lexicographic(ys)
    requires forall k, l | 0 <= k < |xs| && 0 <= l < |ys| :: xs[k].0 < ys[l].0
    ensures Lexicographic(xs + ys)
  {}

  lemma {:induction false} LocatedMore(
    grants: seq<Option<Grant>>, g: Option<Grant>, contract: string, now: int,
    at: seq<(nat, nat)>, picked: seq<ContractGrant>, js: seq<nat>, pairs: seq<(nat, nat)>)
    requires Located(grants, contract, now, at) && Lexicographic(pairs)
    requires g.Some? && Unexpired(g, now) && g.value.authorization.ContractExecution?
    requires Picks(g.value.authorization.grants, contract, picked, js)
    requires forall i: nat, j: nat :: (i, j) in pairs <==> i == |grants| && j in js
    ensures Located(grants + [g], contract, now, at + pairs)
  {
    forall k, l | 0 <= k < |at| && 0 <= l < |pairs| ensures at[k].0 < pairs[l].0 {
      assert at[k] == (at[k].0, at[k].1) && at[k] in at;
      assert pairs[l] == (pairs[l].0, pairs[l].1) && pairs[l] in pairs;
      assert EntryAt(grants, contract, now, at[k].0, at[k].1);
    }
    LexicographicBoth(at, pairs);
    forall i: nat, j: nat ensures (i, j) in at + pairs <==> EntryAt(grants + [g], contract, now, i, j) {
      assert (i, j) in at + pairs <==> (i, j) in at || (i, j) in pairs;
      if i < |grants| {
        assert EntryAt(grants + [g], contract, now, i, j) <==> EntryAt(grants, contract, now, i, j);
      }
    }
  }

  lemma {:induction false} CopiedMore(
    grants: seq<Option<Grant>>, g: Option<Grant>, entries: seq<ContractGrant>, at: seq<(nat, nat)>,
    contract: string, picked: seq<ContractGrant>, js: seq<nat>, pairs: seq<(nat, nat)>)
    requires Copied(grants, entries, at)
    requires g.Some? && g.value.authorization.ContractExecution?
    requires Picks(g.value.authorization.grants, contract, picked, js)
    requires |pairs| == |js| && forall k | 0 <= k < |js| :: pairs[k] == (|grants|, js[k])
    ensures Copied(grants + [g], entries + picked, at + pairs)
  {
    forall k | 0 <= k < |at| ensures StandsAt(grants + [g], at[k], entries[k]) {
      assert StandsAt(grants, at[k], entries[k]);
    }
    forall k | 0 <= k < |js| ensures StandsAt(grants + [g], pairs[k], picked[k]) {
      assert (grants + [g])[|grants|] == g;
    }
  }

  /** The entries of one more grant come after all before. */
  lemma {:induction false} EntriesMore(
    grants: seq<Option<Grant>>, g: Option<Grant>, contract: string, now: int,
    entries: seq<ContractGrant>, at: seq<(nat, nat)>, picked: seq<ContractGrant>, js: seq<nat>)
    returns (at': seq<(nat, nat)>)
    requires Collects(grants, contract, now, entries, at)
    requires g.Some? && Unexpired(g, now) && g.value.authorization.ContractExecution?
    requires Picks(g.value.authorization.grants, contract, picked, js)
    ensures Collects(grants + [g], contract, now, entries + picked, at')
  {
    var pairs := PairsOf(|grants|, js);
    LocatedMore(grants, g, contract, now, at, picked, js, pairs);
    CopiedMore(grants, g, entries, at, contract, picked, js, pairs);
    at' := at + pairs;
  }

  lemma {:induction false} NoEntriesMore(
    grants: seq<Option<Grant>>, g: Option<Grant>, contract: string, now: int,
    entries: seq<ContractGrant>, at: seq<(nat, nat)>)
    requires Collects(grants, contract, now, entries, at)
    requires !(g.Some? && Unexpired(g, now) && g.value.authorization.ContractExecution?)
    ensures Collects(grants + [g], contract, now, entries, at)
  {
    forall i: nat, j: nat
      ensures EntryAt(grants + [g], contract, now, i, j) <==> EntryAt(grants, contract, now, i, j)
    {
    }
    forall k | 0 <= k < |at| ensures StandsAt(grants + [g], at[k], entries[k]) {
      assert StandsAt(grants, at[k], entries[k]);
    }
  }

  lemma {:induction false} CollectsMore(
    grants: seq<Option<Grant>>, g: Option<Grant>, contract: string, now: int,
    entries: seq<ContractGrant>, at: seq<(nat, nat)>)
    returns (at': seq<(nat, nat)>)
    requires Collects(grants, contract, now, entries, at)
    ensures Collects(grants + [g], contract, now, entries + EntriesFor(g, contract, now), at')
  {
    if g.Some? && StillValid(g, now) && g.value.authorization.ContractExecution? {
      var js := ForContractPicks(g.value.authorization.grants, contract);
      at' := EntriesMore(grants, g, contract, now, entries, at, EntriesFor(g, contract, now), js);
    } else {
      at' := at;
      NoEntriesMore(grants, g, contract, now, entries, at);
      assert entries + [] == entries;
    }
  }

  lemma {:induction false} ExecutionOfCollects(grants: seq<Option<Grant>>, contract: string, now: int)
    returns (at: seq<(nat, nat)>)
    ensures Collects(grants, contract, now, ExecutionOf(grants, contract, now), at)
  {
    at := [];
    if grants != [] {
      var front, g := grants[..|grants| - 1], grants[|grants| - 1];
      at := ExecutionOfCollects(front, contract, now);
      at := CollectsMore(front, g, contract, now, ExecutionOf(front, contract, now), at);
      assert grants == front + [g];
    }
  }

  /** Lower case, as far as it can make an ASCII letter. */
  function LowerChar(c: char): char {
    if 'A' <= c <= 'Z' then (c as int + 32) as char
    else if c as int == 0x130 then 'i'
    else if c as int == 0x212A then 'k'
    else c
  }

  function Lower(s: string): string {
    if s == "" then "" else [LowerChar(s[0])] + Lower(s[1..])
  }

  predicate Contains(s: string, t: string) {
    t <= s || (s != "" && Contains(s[1..], t))
  }

  predicate IsAuthzNotFound(message: string) {
    Contains(Lower(message), "authorization not found")
  }

  /** The character is the small letter or folds to it. */
  predicate FoldsTo(c: char, small: char) {
    || c == small
    || ('a' <= small <= 'z' && c as int == small as int - 32)
    || (small == 'i' && c == '\U{130}')
  }

  /** The message has the words at position p, in whatever case. */
  predicate FoldsAt(message: string, words: string, p: nat) {
    && p + |words| <= |message|
    && forall k | 0 <= k < |words| :: FoldsTo(message[p + k], words[k])
  }

  ghost predicate SaysNotFound(message: string) {
    exists p: nat :: FoldsAt(message, "authorization not found", p)
  }

  lemma {:induction false} LowerAt(s: string)
    ensures |Lower(s)| == |s| && forall i | 0 <= i < |s| :: Lower(s)[i] == LowerChar(s[i])
  {
    if s != "" {
      LowerAt(s[1..]);
    }
  }

  predicate OccursAt(s: string, t: string, p: nat) {
    p + |t| <= |s| && s[p..p + |t|] == t
  }

  lemma {:induction false} OccursLater(s: string, t: string, p: nat)
    requires s != ""
    ensures OccursAt(s, t, p + 1) <==> OccursAt(s[1..], t, p)
  {
    if p + |t| <= |s[1..]| {
      var here, there := s[p + 1..p + 1 + |t|], s[1..][p..p + |t|];
      forall k | 0 <= k < |t| ensures here[k] == there[k] {
        assert s[1..][p + k] == s[p + 1 + k];
      }
      assert here == there;
    }
  }

  lemma {:induction false} OccursFirst(s: string, t: string)
    ensures OccursAt(s, t, 0) <==> t <= s
  {}

  lemma {:induction false} ContainsAt(s: string, t: string)
    ensures Contains(s, t) <==> exists p: nat :: OccursAt(s, t, p)
  {
    OccursFirst(s, t);
    if !(t <= s) && s != "" {
      ContainsAt(s[1..], t);
      if Contains(s[1..], t) {
        var p: nat :| OccursAt(s[1..], t, p);
        OccursLater(s, t, p);
      }
      if p: nat :| OccursAt(s, t, p) {
        OccursLater(s, t, p - 1);
      }
    }
  }

  predicate IsSmall(c: char) {
    c == ' ' || ('a' <= c <= 'z' && c != 'k')
  }

  lemma {:induction false} SmallLetter(c: char, small: char)
    requires IsSmall(small)
    ensures LowerChar(c) == small <==> FoldsTo(c, small)
  {}

  lemma {:induction false} LoweredAt(message: string, words: string, p: nat)
    requires forall k | 0 <= k < |words| :: IsSmall(words[k])
    ensures OccursAt(Lower(message), words, p) <==> FoldsAt(message, words, p)
  {
    LowerAt(message);
    if p + |words| <= |message| {
      var part := Lower(message)[p..p + |words|];
      forall k | 0 <= k < |words| ensures part[k] == words[k] <==> FoldsTo(message[p + k], words[k]) {
        SmallLetter(message[p + k], words[k]);
      }
      if FoldsAt(message, words, p) {
        assert part == words;
      }
    }
  }

  lemma {:induction false} ContainsLowered(message: string, words: string)
    requires forall k | 0 <= k < |words| :: IsSmall(words[k])
    ensures Contains(Lower(message), words) <==> exists p: nat :: FoldsAt(message, words, p)
  {
    ContainsAt(Lower(message), words);
    forall p: nat ensures OccursAt(Lower(message), words, p) <==> FoldsAt(message, words, p) {
      LoweredAt(message, words, p);
    }
  }

  lemma {:induction false} NotFoundIsExact(message: string)
    ensures IsAuthzNotFound(message) <==> SaysNotFound(message)
  {
    ContainsLowered(message, "authorization not found");
  }

  /** A server that knows no authorization is no error, and gives no grants. */
  method ContractCommitmentGrants(respond: nat -> Response<Option<Grant>>, now: int, ghost items: seq<Option<Grant>>)
    returns (out: Fetched<Option<Grant>>)
    requires Answers(respond, items)
    ensures out == match FailureFrom(respond, items, 0)
                   case Some(message) => if IsAuthzNotFound(message) then Items([]) else Error(message)
                   case None => Items(ValidOf(items, now))
    ensures match FailureFrom(respond, items, 0)
            case Some(message) => out == Items([]) <==> SaysNotFound(message)
            case None => out.Items? && exists idx :: Keeps(items, now, out.items, idx)
  {
    if FailureFrom(respond, items, 0).Some? {
      NotFoundIsExact(FailureFrom(respond, items, 0).value);
    } else {
      var idx := ValidOfKeeps(items, now);
    }
    var fetched, _ := AllGrants(respond, items);
    if fetched.Error? {
      if IsAuthzNotFound(fetched.message) {
        return Items([]);
      }
      return Error(fetched.message);
    }
    var grants := fetched.items;
    var kept: seq<Option<Grant>> := [];
    for i := 0 to |grants|
      invariant kept == ValidOf(grants[..i], now)
    {
      assert grants[..i + 1][..i] == grants[..i];
      if StillValid(grants[i], now) {
        kept := kept + [grants[i]];
      }
    }
    assert grants[..|grants|] == grants;
    return Items(kept);
  }

  /** The inner loop: the entries of one authorization that name the contract. */
  method CollectFor(candidates: seq<ContractGrant>, contract: string) returns (entries: seq<ContractGrant>)
    ensures entries == ForContract(candidates, contract)
  {
    entries := [];
    for j := 0 to |candidates|
      invariant entries == ForContract(candidates[..j], contract)
    {
      assert candidates[..j + 1][..j] == candidates[..j];
      if candidates[j].contract == contract {
        entries := entries + [candidates[j]];
      }
    }
    assert candidates[..|candidates|] == candidates;
  }

  lemma {:induction false} OneMoreGrant(grants: seq<Option<Grant>>, i: nat, contract: string, now: int)
    requires i < |grants|
    ensures ExecutionOf(grants[..i + 1], contract, now)
         == ExecutionOf(grants[..i], contract, now) + EntriesFor(grants[i], contract, now)
  {
    assert grants[..i + 1][..i] == grants[..i];
  }

  /** The outer loop: nil, expired and other grants are skipped. */
  method ExecutionEntries(grants: seq<Option<Grant>>, contract: string, now: int)
    returns (entries: seq<ContractGrant>)
    ensures entries == ExecutionOf(grants, contract, now)
  {
    entries := [];
    for i := 0 to |grants|
      invariant entries == ExecutionOf(grants[..i], contract, now)
    {
      var g := grants[i];
      OneMoreGrant(grants, i, contract, now);
      if g.None? || !StillValid(g, now) {
        continue;
      }
      if !g.value.authorization.ContractExecution? {
        continue;
      }
      var more := CollectFor(g.value.authorization.grants, contract);
      entries := entries + more;
    }
    assert grants[..|grants|] == grants;
  }

  method ContractExecutionGrants(
    respond: nat -> Response<Option<Grant>>, contract: string, now: int, ghost items: seq<Option<Grant>>)
    returns (out: Fetched<ContractGrant>)
    requires Answers(respond, items)
    ensures out == match FailureFrom(respond, items, 0)
                   case Some(message) => Error(message)
                   case None => Items(ExecutionOf(items, contract, now))
    ensures out.Items? ==> exists at :: Collects(items, contract, now, out.items, at)
  {
    var at := ExecutionOfCollects(items, contract, now);
    var fetched, _ := AllGrants(respond, items);
    if fetched.Error? {
      return Error(fetched.message);
    }
    var entries := ExecutionEntries(fetched.items, contract, now);
    return Items(entries);
  }

  lemma {:induction false} NonEmptyHasEntry(grants: seq<Option<Grant>>, contract: string, now: int)
    ensures ExecutionOf(grants, contract, now) != [] <==> exists i: nat, j: nat :: EntryAt(grants, contract, now, i, j)
  {
    var at := ExecutionOfCollects(grants, contract, now);
    if at != [] {
      assert at[0] == (at[0].0, at[0].1) && at[0] in at;
    }
  }

  /** Some(b) is an answer, None an error of the query. */
  method HasContractExecutionGrant(
    respond: nat -> Response<Option<Grant>>, contract: string, now: int, ghost items: seq<Option<Grant>>)
    returns (has: Option<bool>)
    requires Answers(respond, items)
    ensures has.None? <==> FailureFrom(respond, items, 0).Some?
    ensures has.Some? ==> (has.value <==> exists g | g in items :: GivesExecution(g, contract, now))
    ensures has.Some? ==> (has.value <==> exists i: nat, j: nat :: EntryAt(items, contract, now, i, j))
  {
    var out := ContractExecutionGrants(respond, contract, now, items);
    if out.Error? {
      return None;
    }
    ExecutionOfIsEmpty(items, contract, now);
    NonEmptyHasEntry(items, contract, now);
    return Some(|out.items| > 0);
  }

  lemma {:induction false} ValidOfIsEmpty(grants: seq<Option<Grant>>, now: int)
    ensures ValidOf(grants, now) == [] <==> forall g | g in grants :: !StillValid(g, now)
  {
    if grants != [] {
      var last := |grants| - 1;
      ValidOfIsEmpty(grants[..last], now);
      assert grants == grants[..last] + [grants[last]];
    }
  }

  method HasContractCommitmentGrant(respond: nat -> Response<Option<Grant>>, now: int, ghost items: seq<Option<Grant>>)
    returns (has: Option<bool>)
    requires Answers(respond, items)
    ensures has == match FailureFrom(respond, items, 0)
                   case Some(message) => if IsAuthzNotFound(message) then Some(false) else None
                   case None => Some(exists g | g in items :: StillValid(g, now))
    ensures match FailureFrom(respond, items, 0)
            case Some(message) => has == if SaysNotFound(message) then Some(false) else None
            case None => has.Some? && (has.value <==> exists i | 0 <= i < |items| :: Unexpired(items[i], now))
  {
    if FailureFrom(respond, items, 0).Some? {
      NotFoundIsExact(FailureFrom(respond, items, 0).value);
    }
    var out := ContractCommitmentGrants(respond, now, items);
    if out.Error? {
      return None;
    }
    if FailureFrom(respond, items, 0).None? {
      ValidOfIsEmpty(items, now);
    }
    return Some(|out.items| > 0);
  }
}
