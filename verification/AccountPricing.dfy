/** What GetAccountValue is to compute: the NFTs among the balances of an account, their
    prices and the sum of those. Stated on plain sequences, without any concurrency. */
module AccountPricing {
  import opened Options
  import opened PagedStream
  import opened Sequences

  datatype Coin = Coin(denom: string, amount: int)

  datatype Nav = Nav(price: Coin, height: nat)

  datatype NFTAccount = NFTAccount(scopeId: string, price: Coin, height: nat)

  datatype AccountTotal = AccountTotal(total: Coin, nfts: seq<NFTAccount>)

  /** `navs` is what the chain answers for a scope id, `poolSize` how many tasks the pool
      takes before Submit blocks. */
  datatype Account = Account(stream: Config<Coin>, navs: map<string, Nav>, poolSize: nat) {
    ghost predicate Valid() { stream.Valid() && poolSize > 0 }
  }

  function Split(s: string, sep: char): (parts: seq<string>)
    ensures |parts| > 0
  {
    if s == "" then [""]
    else
      var rest := Split(s[1..], sep);
      if s[0] == sep then [""] + rest else [[s[0]] + rest[0]] + rest[1..]
  }

  /** The scope an NFT denom names: the denom starts with `nft` and has one slash. */
  function ScopeOf(denom: string): Option<string> {
    var parts := Split(denom, '/');
    if "nft" <= denom && |parts| == 2 then Some(parts[1]) else None
  }

  function ScopeIds(balances: seq<Coin>): seq<string> {
    if balances == [] then []
    else
      var last := |balances| - 1;
      ScopeIds(balances[..last]) +
      match ScopeOf(balances[last].denom)
      case Some(id) => [id]
      case None => []
  }

  /** A scope without a NAV counts as zero usd. */
  function AccountFor(a: Account, id: string): NFTAccount {
    if id in a.navs then NFTAccount(id, a.navs[id].price, a.navs[id].height)
    else NFTAccount(id, Coin("usd", 0), 0)
  }

  predicate InUsd(a: Account, id: string) {
    AccountFor(a, id).price.denom == "usd"
  }

  function PricedOne(a: Account, id: string): seq<NFTAccount> {
    if InUsd(a, id) then [AccountFor(a, id)] else []
  }

  /** The NFTs that count, in balance order. */
  function Priced(a: Account, ids: seq<string>): seq<NFTAccount> {
    if ids == [] then []
    else
      var last := |ids| - 1;
      Priced(a, ids[..last]) + PricedOne(a, ids[last])
  }

  function Sum(nfts: seq<NFTAccount>): int {
    if nfts == [] then 0 else Sum(nfts[..|nfts| - 1]) + nfts[|nfts| - 1].price.amount
  }

  function Without<T>(xs: seq<T>, i: nat): seq<T>
    requires i < |xs|
  {
    xs[..i] + xs[i + 1..]
  }

  lemma {:induction false} MultisetWithout<T>(xs: seq<T>, i: nat)
    requires i < |xs|
    ensures multiset(Without(xs, i)) == multiset(xs) - multiset{xs[i]}
  {
    assert xs == xs[..i] + [xs[i]] + xs[i + 1..];
  }

  lemma {:induction false} SumConcat(xs: seq<NFTAccount>, ys: seq<NFTAccount>)
    ensures Sum(xs + ys) == Sum(xs) + Sum(ys)
  {
    if ys == [] {
      assert xs + ys == xs;
    } else {
      assert (xs + ys)[..|xs + ys| - 1] == xs + ys[..|ys| - 1];
      SumConcat(xs, ys[..|ys| - 1]);
    }
  }

  lemma {:induction false} SumWithout(nfts: seq<NFTAccount>, i: nat)
    requires i < |nfts|
    ensures Sum(nfts) == Sum(Without(nfts, i)) + nfts[i].price.amount
  {
    var last := |nfts| - 1;
    if i == last {
      assert Without(nfts, i) == nfts[..last];
    } else {
      SumWithout(nfts[..last], i);
      var rest := Without(nfts, i);
      assert rest[..last - 1] == Without(nfts[..last], i) && rest[last - 1] == nfts[last];
      assert Sum(rest) == Sum(rest[..last - 1]) + nfts[last].price.amount;
      assert nfts[..last][i] == nfts[i];
    }
  }

  /** The order in which prices are added does not matter. */
  lemma {:induction false} SumOfPermutation(xs: seq<NFTAccount>, ys: seq<NFTAccount>)
    requires multiset(xs) == multiset(ys)
    ensures Sum(xs) == Sum(ys)
  {
    if xs == [] {
      assert |multiset(ys)| == |ys|;
    } else {
      var last := |xs| - 1;
      assert xs[last] in multiset(ys);
      var i: nat :| i < |ys| && ys[i] == xs[last];
      MultisetWithout(xs, last);
      MultisetWithout(ys, i);
      SumOfPermutation(Without(xs, last), Without(ys, i));
      SumWithout(xs, last);
      SumWithout(ys, i);
    }
  }

  lemma {:induction false} PricedConcat(a: Account, xs: seq<string>, ys: seq<string>)
    ensures Priced(a, xs + ys) == Priced(a, xs) + Priced(a, ys)
  {
    if ys == [] {
      assert xs + ys == xs;
    } else {
      assert (xs + ys)[..|xs + ys| - 1] == xs + ys[..|ys| - 1];
      PricedConcat(a, xs, ys[..|ys| - 1]);
    }
  }

  lemma {:induction false} ScopeIdsOneMore(balances: seq<Coin>, b: Coin)
    ensures ScopeIds(balances + [b]) ==
            ScopeIds(balances) + match ScopeOf(b.denom) case Some(id) => [id] case None => []
  {}

  lemma {:induction false} ScopeIdsConcat(xs: seq<Coin>, ys: seq<Coin>)
    ensures ScopeIds(xs + ys) == ScopeIds(xs) + ScopeIds(ys)
  {
    if ys == [] {
      assert xs + ys == xs;
    } else {
      assert (xs + ys)[..|xs + ys| - 1] == xs + ys[..|ys| - 1];
      ScopeIdsConcat(xs, ys[..|ys| - 1]);
    }
  }

  lemma {:induction false} PrefixIsUnpriced(a: Account, xs: seq<Coin>, ys: seq<Coin>)
    requires Priced(a, ScopeIds(xs + ys)) == []
    ensures Priced(a, ScopeIds(xs)) == []
  {
    ScopeIdsConcat(xs, ys);
    PricedConcat(a, ScopeIds(xs), ScopeIds(ys));
  }

  lemma {:induction false} MiddleTakenOut(xs: seq<NFTAccount>, ys: seq<NFTAccount>, zs: seq<NFTAccount>)
    ensures multiset(xs + (ys + zs)) == multiset(xs + zs) + multiset(ys)
  {}

  /** Whichever task runs first, it takes its own NFT out of what is to come. */
  lemma {:induction false} PricedWithout(a: Account, ids: seq<string>, i: nat)
    requires i < |ids|
    ensures multiset(Priced(a, ids)) == multiset(Priced(a, Without(ids, i))) + multiset(PricedOne(a, ids[i]))
  {
    var front, rest := ids[..i], ids[i + 1..];
    assert ids == front + ([ids[i]] + rest);
    assert Priced(a, [ids[i]]) == PricedOne(a, ids[i]);
    PricedConcat(a, front, [ids[i]] + rest);
    PricedConcat(a, [ids[i]], rest);
    PricedConcat(a, front, rest);
    MiddleTakenOut(Priced(a, front), PricedOne(a, ids[i]), Priced(a, rest));
  }

  lemma {:induction false} SumOfOne(nft: NFTAccount)
    ensures Sum([]) == 0 && Sum([nft]) == nft.price.amount
  {
    assert [nft][..0] == [];
  }

  // ---------- What a value lists, balance by balance ----------

  /** The denom names the scope: it starts with `nft` and is two parts around its one slash. */
  ghost predicate Names(denom: string, id: string) {
    "nft" <= denom && '/' !in id && exists pre :: '/' !in pre && denom == pre + "/" + id
  }

  /** The balance is of this NFT, priced in usd, or at zero if the scope has no NAV. */
  ghost predicate Prices(a: Account, b: Coin, nft: NFTAccount) {
    && Names(b.denom, nft.scopeId)
    && nft.price.denom == "usd"
    && if nft.scopeId in a.navs then nft.price == a.navs[nft.scopeId].price && nft.height == a.navs[nft.scopeId].height
       else nft.price.amount == 0 && nft.height == 0
  }

  ghost function Pricing(a: Account, balances: seq<Coin>, nft: NFTAccount): set<nat> {
    set i: nat | i < |balances| && Prices(a, balances[i], nft)
  }

  /** Each NFT is listed as often as a balance prices it, and the total is in usd. */
  ghost predicate Lists(a: Account, balances: seq<Coin>, v: AccountTotal) {
    && (forall nft :: multiset(v.nfts)[nft] == |Pricing(a, balances, nft)|)
    && v.total == Coin("usd", Sum(v.nfts))
  }

  ghost predicate NothingPriced(a: Account, balances: seq<Coin>) {
    forall i, nft | 0 <= i < |balances| :: !Prices(a, balances[i], nft)
  }

  lemma {:induction false} SplitWhole(s: string, sep: char)
    requires sep !in s
    ensures Split(s, sep) == [s]
  {
    if s != "" {
      SplitWhole(s[1..], sep);
      assert [s[0]] + s[1..] == s;
    }
  }

  lemma {:induction false} SplitAtFirst(pre: string, rest: string, sep: char)
    requires sep !in pre
    ensures Split(pre + [sep] + rest, sep) == [pre] + Split(rest, sep)
  {
    var s := pre + [sep] + rest;
    if pre == "" {
      assert s[1..] == rest;
    } else {
      SplitAtFirst(pre[1..], rest, sep);
      assert s[1..] == pre[1..] + [sep] + rest;
      assert [pre[0]] + pre[1..] == pre;
    }
  }

  /** The first part, and what follows the separator after it. */
  lemma {:induction false} SplitHead(s: string, sep: char) returns (rest: string)
    ensures var parts := Split(s, sep);
            && sep !in parts[0]
            && (|parts| == 1 ==> s == parts[0])
            && (|parts| > 1 ==> s == parts[0] + [sep] + rest && Split(rest, sep) == parts[1..])
  {
    rest := "";
    if s != "" {
      assert s == [s[0]] + s[1..];
      if s[0] == sep {
        rest := s[1..];
      } else {
        rest := SplitHead(s[1..], sep);
      }
    }
  }

  lemma {:induction false} ScopeOfIsExact(denom: string, id: string)
    ensures ScopeOf(denom) == Some(id) <==> Names(denom, id)
  {
    if ScopeOf(denom) == Some(id) {
      var parts := Split(denom, '/');
      var rest := SplitHead(denom, '/');
      var end := SplitHead(rest, '/');
      assert denom == parts[0] + "/" + id;
    }
    if Names(denom, id) {
      var pre :| '/' !in pre && denom == pre + "/" + id;
      SplitAtFirst(pre, id, '/');
      SplitWhole(id, '/');
    }
  }

  /** A balance of a scope is priced as the task for that scope prices it. */
  lemma {:induction false} TaskPrices(a: Account, b: Coin, id: string, nft: NFTAccount)
    requires ScopeOf(b.denom) == Some(id)
    ensures Prices(a, b, nft) <==> InUsd(a, id) && nft == AccountFor(a, id)
  {
    ScopeOfIsExact(b.denom, nft.scopeId);
  }

  lemma {:induction false} UnnamedIsUnpriced(a: Account, b: Coin, nft: NFTAccount)
    requires ScopeOf(b.denom) == None
    ensures !Prices(a, b, nft)
  {
    ScopeOfIsExact(b.denom, nft.scopeId);
  }

  /** A balance adds its NFT to what is priced, or nothing. */
  lemma {:induction false} OneMoreIsPriced(a: Account, balances: seq<Coin>, b: Coin, nft: NFTAccount)
    ensures multiset(Priced(a, ScopeIds(balances + [b])))[nft]
         == multiset(Priced(a, ScopeIds(balances)))[nft] + if Prices(a, b, nft) then 1 else 0
  {
    ScopeIdsOneMore(balances, b);
    var ids := ScopeIds(balances);
    match ScopeOf(b.denom) {
      case None =>
        UnnamedIsUnpriced(a, b, nft);
        assert ScopeIds(balances + [b]) == ids;
      case Some(id) =>
        TaskPrices(a, b, id, nft);
        PricedConcat(a, ids, [id]);
        assert Priced(a, [id]) == PricedOne(a, id);
        CountOfBoth(Priced(a, ids), PricedOne(a, id), nft);
    }
  }

  lemma {:induction false} PricingOneMore(a: Account, balances: seq<Coin>, b: Coin, nft: NFTAccount)
    ensures |Pricing(a, balances + [b], nft)| == |Pricing(a, balances, nft)| + if Prices(a, b, nft) then 1 else 0
  {
    var here := if Prices(a, b, nft) then {|balances|} else {};
    assert Pricing(a, balances + [b], nft) == Pricing(a, balances, nft) + here;
  }

  ghost predicate Counts(a: Account, balances: seq<Coin>, nft: NFTAccount) {
    multiset(Priced(a, ScopeIds(balances)))[nft] == |Pricing(a, balances, nft)|
  }

  lemma {:induction false} OneMoreCounts(a: Account, balances: seq<Coin>, b: Coin, nft: NFTAccount)
    requires Counts(a, balances, nft)
    ensures Counts(a, balances + [b], nft)
  {
    OneMoreIsPriced(a, balances, b, nft);
    PricingOneMore(a, balances, b, nft);
  }

  /** What is priced has each NFT as often as a balance prices it. */
  lemma {:induction false} PricedCounts(a: Account, balances: seq<Coin>, nft: NFTAccount)
    ensures Counts(a, balances, nft)
  {
    if balances != [] {
      var front, b := balances[..|balances| - 1], balances[|balances| - 1];
      PricedCounts(a, front, nft);
      OneMoreCounts(a, front, b, nft);
      assert balances == front + [b];
    }
  }

  lemma {:induction false} ExactLists(a: Account, balances: seq<Coin>, v: AccountTotal)
    requires multiset(v.nfts) == multiset(Priced(a, ScopeIds(balances)))
    requires v.total == Coin("usd", Sum(v.nfts))
    ensures Lists(a, balances, v)
  {
    forall nft ensures multiset(v.nfts)[nft] == |Pricing(a, balances, nft)| {
      PricedCounts(a, balances, nft);
      assert Counts(a, balances, nft);
    }
  }

  lemma {:induction false} NothingPricedIsEmpty(a: Account, balances: seq<Coin>)
    ensures Priced(a, ScopeIds(balances)) == [] <==> NothingPriced(a, balances)
  {
    var nfts := Priced(a, ScopeIds(balances));
    if nfts != [] {
      PricedCounts(a, balances, nfts[0]);
      assert nfts[0] in multiset(nfts);
      var i :| i in Pricing(a, balances, nfts[0]);
    }
    if !NothingPriced(a, balances) {
      var i: nat, nft :| i < |balances| && Prices(a, balances[i], nft);
      PricedCounts(a, balances, nft);
      assert i in Pricing(a, balances, nft);
    }
  }

  ghost function Positions<T>(xs: seq<T>, x: T): set<nat> {
    set i: nat | i < |xs| && xs[i] == x
  }

  lemma {:induction false} CountIsPositions<T>(xs: seq<T>, x: T)
    ensures multiset(xs)[x] == |Positions(xs, x)|
  {
    if xs != [] {
      var last := |xs| - 1;
      CountIsPositions(xs[..last], x);
      assert xs == xs[..last] + [xs[last]];
      assert Positions(xs, x) == Positions(xs[..last], x) + if xs[last] == x then {last} else {};
    }
  }

  lemma {:induction false} PlainName(id: string, named: string)
    requires '/' !in id
    ensures Names("nft/" + id, named) <==> named == id
  {
    assert "nft/" + id == "nft" + "/" + id;
    assert Names("nft/" + id, id);
    ScopeOfIsExact("nft/" + id, id);
    ScopeOfIsExact("nft/" + id, named);
  }

  /** When every balance is of the form nft/id and every NAV is in usd, each id is listed
      with its NAV, or with zero usd. */
  lemma {:induction false} PlainScopes(
    a: Account, ids: seq<string>, balances: seq<Coin>, nfts: seq<NFTAccount>, v: AccountTotal)
    requires Lists(a, balances, v) && |balances| == |ids| == |nfts|
    requires forall i | 0 <= i < |ids| :: '/' !in ids[i] && balances[i].denom == "nft/" + ids[i]
    requires forall id | id in a.navs :: a.navs[id].price.denom == "usd"
    requires forall i | 0 <= i < |ids| ::
               nfts[i] == if ids[i] in a.navs then NFTAccount(ids[i], a.navs[ids[i]].price, a.navs[ids[i]].height)
                          else NFTAccount(ids[i], Coin("usd", 0), 0)
    ensures multiset(v.nfts) == multiset(nfts)
  {
    forall nft ensures multiset(v.nfts)[nft] == multiset(nfts)[nft] {
      CountIsPositions(nfts, nft);
      forall i: nat | i < |ids| ensures Prices(a, balances[i], nft) <==> nfts[i] == nft {
        PlainName(ids[i], nft.scopeId);
      }
      assert Pricing(a, balances, nft) == Positions(nfts, nft);
      assert multiset(v.nfts)[nft] == |Pricing(a, balances, nft)|;
    }
  }
}
