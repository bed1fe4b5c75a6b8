/** The CW20 payloads as text: the member names, the nesting and the characters that reach
    the contract, without reference to any reader. */
module Cw20Text {
  import opened Options
  import opened Utf8
  import Base64
  import opened JsonText
  import opened Cw20Payload

  // ---------- Characters ----------

  /** Printed as it is. */
  predicate IsPlain(c: char) {
    && c as int >= 0x20 && c as int != 0x2028 && c as int != 0x2029
    && c != '\"' && c != '\\' && c != '<' && c != '>' && c != '&'
  }

  predicate AllPlain(s: string) {
    forall i | 0 <= i < |s| :: IsPlain(s[i])
  }

  lemma {:induction false} PlainIsKept(s: string)
    requires AllPlain(s)
    ensures Escape(s) == s
  {
    if s != "" {
      PlainIsKept(s[1..]);
      assert [s[0]] + s[1..] == s;
    }
  }

  /** The characters that are not printed as they are: section 7 of RFC 8259, and those that
      would be unsafe inside HTML or JavaScript. */
  lemma {:induction false} EscapedCharacters()
    ensures EscapeChar('\"') == ['\\', '\"'] && EscapeChar('\\') == ['\\', '\\']
    ensures EscapeChar('\n') == ['\\', 'n'] && EscapeChar('\r') == ['\\', 'r'] && EscapeChar('\t') == ['\\', 't']
    ensures EscapeChar('\U{8}') == ['\\', 'b'] && EscapeChar('\U{C}') == ['\\', 'f']
    ensures EscapeChar('<') == ['\\', 'u', '0', '0', '3', 'c'] && EscapeChar('>') == ['\\', 'u', '0', '0', '3', 'e']
    ensures EscapeChar('&') == ['\\', 'u', '0', '0', '2', '6']
    ensures EscapeChar('\U{1F}') == ['\\', 'u', '0', '0', '1', 'f']
    ensures EscapeChar('\U{2028}') == ['\\', 'u', '2', '0', '2', '8']
    ensures EscapeChar('\U{2029}') == ['\\', 'u', '2', '0', '2', '9']
  {}

  /** Decimal digits: the last is the remainder by ten, counted from the code of '0'. */
  lemma {:induction false} DigitsText(n: nat)
    ensures |Digits(n)| >= 1 && Digits(n)[|Digits(n)| - 1] as int == 48 + n % 10
    ensures Digits(n)[..|Digits(n)| - 1] == if n < 10 then "" else Digits(n / 10)
  {}

  lemma {:induction false} DecimalText(n: int)
    ensures n >= 0 ==> Decimal(Some(n)) == Digits(n)
    ensures n < 0 ==> Decimal(Some(n)) == "-" + Digits(-n)
    ensures Decimal(None) == "<nil>"
  {}

  // ---------- Objects ----------

  /** A string without anything to escape, between quotes. */
  lemma {:induction false} PlainQuote(s: string)
    requires AllPlain(s)
    ensures Quote(s) == "\"" + s + "\""
  {
    PlainIsKept(s);
  }

  function Joined(pairs: seq<string>): string {
    if pairs == [] then "" else if |pairs| == 1 then pairs[0] else pairs[0] + ("," + Joined(pairs[1..]))
  }

  /** Each member as its quoted key, a colon and its value. */
  function Pairs(ms: Members): seq<string> {
    match ms
    case NoMember => []
    case Member(k, v, rest) => [Quote(k) + (":" + Print(v))] + Pairs(rest)
  }

  lemma {:induction false} Glue(a: string, b: string, c: string, d: string, e: string)
    ensures a + b + c + d + e == a + (b + (c + d)) + e
  {}

  lemma {:induction false} GlueEnd(a: string, b: string, c: string, d: string, e: string)
    ensures a + b + (c + d + e) == a + (b + (c + d)) + e
  {}

  lemma {:induction false} JoinedMore(pair: string, others: seq<string>)
    requires others != []
    ensures Joined([pair] + others) == pair + ("," + Joined(others))
  {
    assert ([pair] + others)[1..] == others;
  }

  lemma {:induction false} MemberAndRest(open: string, k: string, v: Json, rest: Members)
    requires PrintRest(rest) == if rest.NoMember? then "}" else "," + Joined(Pairs(rest)) + "}"
    ensures open + Quote(k) + ":" + Print(v) + PrintRest(rest) == open + Joined(Pairs(Member(k, v, rest))) + "}"
  {
    var pair := Quote(k) + (":" + Print(v));
    Glue(open, Quote(k), ":", Print(v), PrintRest(rest));
    if rest.Member? {
      JoinedMore(pair, Pairs(rest));
      GlueEnd(open, pair, ",", Joined(Pairs(rest)), "}");
    }
  }

  lemma {:induction false} RestIsJoined(ms: Members)
    ensures PrintRest(ms) == if ms.NoMember? then "}" else "," + Joined(Pairs(ms)) + "}"
  {
    match ms
    case NoMember =>
    case Member(k, v, rest) =>
      RestIsJoined(rest);
      MemberAndRest(",", k, v, rest);
  }

  /** An object is the list of its members between braces, with commas between them. */
  lemma {:induction false} ObjectIsJoined(ms: Members)
    ensures Print(Obj(ms)) == "{" + Joined(Pairs(ms)) + "}"
  {
    match ms
    case NoMember =>
    case Member(k, v, rest) =>
      RestIsJoined(rest);
      MemberAndRest("{", k, v, rest);
  }

  // ---------- The payloads ----------

  /** The object built for a contract and a positive amount, and the hook inside it. */
  lemma {:induction false} SendObject(contract: string, amount: nat)
    requires contract != "" && amount > 0
    ensures var hook := Obj(Member("withdraw", Obj(Member("amount", Str(Digits(amount)), NoMember)), NoMember));
            var send := Member("amount", Str(Digits(amount)),
                        Member("contract", Str(contract),
                        Member("msg", Str(Base64.Encode(Utf8.Encode(Print(hook)))), NoMember)));
            BuildSend(contract, Some(amount)) == Some(Utf8.Encode(Print(Obj(Member("send", Obj(send), NoMember)))))
  {}

  /** The object of the receive call. */
  lemma {:induction false} ReceiveObject(sender: string, amount: Option<int>, m: ReceiveMsg)
    ensures var receive := Member("sender", Str(sender),
                           Member("amount", Str(Decimal(amount)),
                           Member("msg", Str(Base64.Encode(Utf8.Encode(Print(ToJson(m))))), NoMember)));
            var call := Obj(Member("receive", Obj(receive), NoMember));
            ExecReceive(NewReceiveRequest(sender, amount, m)) == Utf8.Encode(Print(call))
  {}

  /** The object has exactly these members, in this order, those without a value left out. */
  ghost predicate Has(ms: Members, fields: seq<(string, Option<Json>)>) {
    if fields == [] then ms == NoMember
    else if fields[0].1.None? then Has(ms, fields[1..])
    else ms.Member? && ms.key == fields[0].0 && ms.value == fields[0].1.value && Has(ms.rest, fields[1..])
  }

  lemma {:induction false} HasOptional(k: string, v: Option<Json>, rest: Members, fields: seq<(string, Option<Json>)>)
    requires Has(rest, fields)
    ensures Has(WithOptional(k, v, rest), [(k, v)] + fields)
  {
    assert ([(k, v)] + fields)[1..] == fields;
  }

  /** The message holds each payload that is present under its own key. */
  lemma {:induction false} MessageHas(m: ReceiveMsg)
    ensures ToJson(m).Obj? && Has(ToJson(m).members,
              [("withdraw", WithdrawField(m))] + ([("withdraw_exact", WithdrawExactField(m))]
              + ([("transfer", TransferField(m))] + ([("transfer_exact", TransferExactField(m))] + []))))
  {
    var m4 := WithOptional("transfer_exact", TransferExactField(m), NoMember);
    var m3 := WithOptional("transfer", TransferField(m), m4);
    var m2 := WithOptional("withdraw_exact", WithdrawExactField(m), m3);
    var f4 := [("transfer_exact", TransferExactField(m))] + [];
    var f3 := [("transfer", TransferField(m))] + f4;
    var f2 := [("withdraw_exact", WithdrawExactField(m))] + f3;
    HasOptional("transfer_exact", TransferExactField(m), NoMember, []);
    HasOptional("transfer", TransferField(m), m4, f4);
    HasOptional("withdraw_exact", WithdrawExactField(m), m3, f3);
    HasOptional("withdraw", WithdrawField(m), m2, f2);
  }

  /** The payloads, member by member. */
  lemma {:induction false} PayloadsHave(m: ReceiveMsg)
    ensures m.withdraw.Some? ==>
              WithdrawField(m) == Some(Obj(Member("amount", Str(m.withdraw.value.amount),
                match m.withdraw.value.commitFunds
                case Some(flag) => Member("commit_funds", Bool(flag), NoMember)
                case None => NoMember)))
    ensures m.withdrawExact.Some? ==>
              WithdrawExactField(m) == Some(Obj(
                match m.withdrawExact.value.commitFunds
                case Some(flag) => Member("commit_funds", Bool(flag), NoMember)
                case None => NoMember))
    ensures m.transfer.Some? ==>
              TransferField(m) == Some(Obj(Member("recipient", Str(m.transfer.value.recipient),
                                           Member("amount", Str(m.transfer.value.amount), NoMember))))
    ensures m.transferExact.Some? ==>
              TransferExactField(m) == Some(Obj(Member("recipient", Str(m.transferExact.value.recipient), NoMember)))
    ensures WithdrawField(m).Some? == m.withdraw.Some? && WithdrawExactField(m).Some? == m.withdrawExact.Some?
    ensures TransferField(m).Some? == m.transfer.Some? && TransferExactField(m).Some? == m.transferExact.Some?
  {}
}
