/** The nested CW20 payloads: a decimal inside JSON inside Base64 inside JSON inside bytes.
    For each builder there is the reader a contract would use, and a proof that reading
    gives back what was put in at every level. */
module Cw20Payload {
  import opened Options
  import opened Utf8
  import Base64
  import opened JsonText

  // ---------- Decimals ----------

  function Digits(n: nat): (s: string)
    ensures s != ""
  {
    (if n < 10 then "" else Digits(n / 10)) + [('0' as int + n % 10) as char]
  }

  /** big.Int's String; a nil pointer prints as a word. */
  function Decimal(amount: Option<int>): string {
    match amount
    case None => "<nil>"
    case Some(n) => if n < 0 then "-" + Digits(-n) else Digits(n)
  }

  function ParseNat(s: string): Option<nat> {
    if s == "" then None
    else
      var last := s[|s| - 1];
      if !('0' <= last <= '9') then None
      else if |s| == 1 then Some(last as int - '0' as int)
      else
        match ParseNat(s[..|s| - 1])
        case None => None
        case Some(n) => Some(n * 10 + (last as int - '0' as int))
  }

  function ParseDecimal(s: string): Option<int> {
    if s != "" && s[0] == '-' then
      match ParseNat(s[1..])
      case None => None
      case Some(n) =>
        var value: int := n;
        Some(-value)
    else
      match ParseNat(s)
      case None => None
      case Some(n) => Some(n)
  }

  lemma {:induction false} DigitsRoundTrip(n: nat)
    ensures ParseNat(Digits(n)) == Some(n)
    ensures '0' <= Digits(n)[0] <= '9' && (n > 0 ==> Digits(n)[0] != '0')
  {
    if n >= 10 {
      DigitsRoundTrip(n / 10);
      assert Digits(n)[..|Digits(n)| - 1] == Digits(n / 10);
    }
  }

  /** The text of an amount can be read back exactly when there is an amount. */
  lemma {:induction false} DecimalRoundTrip(amount: Option<int>)
    ensures ParseDecimal(Decimal(amount)) == amount
  {
    match amount {
      case None =>
        var s := "<nil>";
        assert s[|s| - 1] == '>';
      case Some(n) =>
        DigitsRoundTrip(if n < 0 then -n else n);
        if n < 0 {
          assert Decimal(amount)[1..] == Digits(-n);
        }
    }
  }

  // ---------- Objects ----------

  /** The value of a key; of repeated keys the last counts. */
  function Field(ms: Members, key: string): Option<Json> {
    match ms
    case NoMember => None
    case Member(k, v, rest) =>
      if Field(rest, key).Some? then Field(rest, key) else if k == key then Some(v) else None
  }

  function ObjectAt(ms: Members, key: string): Option<Members> {
    match Field(ms, key)
    case Some(Obj(inner)) => Some(inner)
    case _ => None
  }

  /** A missing string field is left empty, as json.Unmarshal leaves it. */
  function StringAt(ms: Members, key: string): string {
    match Field(ms, key)
    case Some(Str(s)) => s
    case _ => ""
  }

  function BoolAt(ms: Members, key: string): Option<bool> {
    match Field(ms, key)
    case Some(Bool(b)) => Some(b)
    case _ => None
  }

  /** An `omitempty` pointer field is present when it is not nil. */
  function WithOptional(key: string, value: Option<Json>, rest: Members): Members {
    match value
    case None => rest
    case Some(v) => Member(key, v, rest)
  }

  function Bytes(j: Json): seq<byte> {
    Utf8.Encode(Print(j))
  }

  function FromBytes(bs: seq<byte>): Option<Json> {
    match Utf8.Decode(bs)
    case None => None
    case Some(text) => ParseText(text)
  }

  lemma {:induction false} BytesRoundTrip(j: Json)
    ensures FromBytes(Bytes(j)) == Some(j)
  {
    Utf8.RoundTrip(Print(j));
    JsonText.RoundTrip(j);
  }

  function Pack(j: Json): string {
    Base64.Encode(Bytes(j))
  }

  function Unpack(s: string): Option<Json> {
    match Base64.Decode(s)
    case None => None
    case Some(bs) => FromBytes(bs)
  }

  lemma {:induction false} PackRoundTrip(j: Json)
    ensures Unpack(Pack(j)) == Some(j)
  {
    Base64.RoundTrip(Bytes(j));
    BytesRoundTrip(j);
  }

  lemma {:induction false} KeysDiffer()
    ensures "amount" != "contract" && "amount" != "msg" && "contract" != "msg"
    ensures "sender" != "amount" && "sender" != "msg"
    ensures "recipient" != "amount" && "amount" != "commit_funds"
    ensures "withdraw" != "withdraw_exact" && "withdraw" != "transfer" && "withdraw" != "transfer_exact"
    ensures "withdraw_exact" != "transfer" && "withdraw_exact" != "transfer_exact" && "transfer" != "transfer_exact"
  {}

  lemma {:induction false} OneField(k: string, v: Json)
    ensures Field(Member(k, v, NoMember), k) == Some(v)
  {}

  lemma {:induction false} TwoFields(k1: string, s1: string, k2: string, s2: string)
    requires k1 != k2
    ensures var ms := Member(k1, Str(s1), Member(k2, Str(s2), NoMember));
            StringAt(ms, k1) == s1 && StringAt(ms, k2) == s2
  {
    assert Field(Member(k2, Str(s2), NoMember), k1) == None;
    OneField(k2, Str(s2));
  }

  lemma {:induction false} ThreeFields(k1: string, s1: string, k2: string, s2: string, k3: string, s3: string)
    requires k1 != k2 && k1 != k3 && k2 != k3
    ensures var ms := Member(k1, Str(s1), Member(k2, Str(s2), Member(k3, Str(s3), NoMember)));
            StringAt(ms, k1) == s1 && StringAt(ms, k2) == s2 && StringAt(ms, k3) == s3
  {
    var rest := Member(k2, Str(s2), Member(k3, Str(s3), NoMember));
    TwoFields(k2, s2, k3, s3);
    assert Field(Member(k3, Str(s3), NoMember), k1) == None;
    assert Field(rest, k1) == None;
  }

  // ---------- CW20 send of a withdrawal ----------

  function WithdrawHook(amount: string): Json {
    Obj(Member("withdraw", Obj(Member("amount", Str(amount), NoMember)), NoMember))
  }

  /** Go writes the keys of a map in order. */
  function SendMembers(contract: string, text: string): Members {
    Member("amount", Str(text),
    Member("contract", Str(contract),
    Member("msg", Str(Pack(WithdrawHook(text))), NoMember)))
  }

  /** The execute message, or None where the source returns an error. */
  function BuildSend(contract: string, amount: Option<int>): Option<seq<byte>> {
    if contract == "" || amount.None? || amount.value <= 0 then None
    else
      var text := Decimal(amount);
      Some(Bytes(Obj(Member("send", Obj(SendMembers(contract, text)), NoMember))))
  }

  datatype Send = Send(contract: string, amount: Option<int>, hookAmount: Option<int>)

  /** What the receiving contracts read of the send: its fields, and the hook inside its
      message. */
  function ReadSendMembers(send: Members): Option<Send> {
    match Unpack(StringAt(send, "msg"))
    case Some(Obj(hook)) =>
      (match ObjectAt(hook, "withdraw")
       case None => None
       case Some(w) =>
         Some(Send(StringAt(send, "contract"), ParseDecimal(StringAt(send, "amount")),
                   ParseDecimal(StringAt(w, "amount")))))
    case _ => None
  }

  /** The object a one-member message carries under the given key. */
  function ReadCall(bs: seq<byte>, key: string): Option<Members> {
    match FromBytes(bs)
    case Some(Obj(outer)) => ObjectAt(outer, key)
    case _ => None
  }

  lemma {:induction false} CallRoundTrip(key: string, ms: Members)
    ensures ReadCall(Bytes(Obj(Member(key, Obj(ms), NoMember))), key) == Some(ms)
  {
    BytesRoundTrip(Obj(Member(key, Obj(ms), NoMember)));
    OneField(key, Obj(ms));
  }

  function ReadSend(bs: seq<byte>): Option<Send> {
    match ReadCall(bs, "send")
    case None => None
    case Some(send) => ReadSendMembers(send)
  }

  lemma {:induction false} SendFields(contract: string, text: string)
    ensures var ms := SendMembers(contract, text);
            && StringAt(ms, "contract") == contract && StringAt(ms, "amount") == text
            && StringAt(ms, "msg") == Pack(WithdrawHook(text))
  {
    KeysDiffer();
    ThreeFields("amount", text, "contract", contract, "msg", Pack(WithdrawHook(text)));
  }

  lemma {:induction false} HookIsRead(text: string)
    ensures var hook := WithdrawHook(text);
            && hook.Obj? && ObjectAt(hook.members, "withdraw").Some?
            && StringAt(ObjectAt(hook.members, "withdraw").value, "amount") == text
  {
    OneField("withdraw", Obj(Member("amount", Str(text), NoMember)));
    OneField("amount", Str(text));
  }

  lemma {:induction false} SendIsRead(contract: string, amount: Option<int>, text: string)
    requires text == Decimal(amount)
    ensures ReadSendMembers(SendMembers(contract, text)) == Some(Send(contract, amount, amount))
  {
    DecimalRoundTrip(amount);
    PackRoundTrip(WithdrawHook(text));
    SendFields(contract, text);
    HookIsRead(text);
  }

  /** A message is built exactly for a named contract and a positive amount, and then both
      levels carry that contract and that amount. */
  lemma {:induction false} SendRoundTrip(contract: string, amount: Option<int>)
    ensures BuildSend(contract, amount).Some? <==> contract != "" && amount.Some? && amount.value > 0
    ensures BuildSend(contract, amount).Some? ==>
              ReadSend(BuildSend(contract, amount).value) == Some(Send(contract, amount, amount))
  {
    SendIsRead(contract, amount, Decimal(amount));
    CallRoundTrip("send", SendMembers(contract, Decimal(amount)));
  }

  // ---------- CW20 receive ----------

  datatype Withdraw = Withdraw(amount: string, commitFunds: Option<bool>)

  datatype WithdrawExact = WithdrawExact(commitFunds: Option<bool>)

  datatype Transfer = Transfer(recipient: string, amount: string)

  datatype TransferExact = TransferExact(recipient: string)

  /** Any of the four payloads may be present. */
  datatype ReceiveMsg = ReceiveMsg(
    withdraw: Option<Withdraw>, withdrawExact: Option<WithdrawExact>,
    transfer: Option<Transfer>, transferExact: Option<TransferExact>)

  function OptionalBool(b: Option<bool>): Option<Json> {
    match b
    case None => None
    case Some(v) => Some(Bool(v))
  }

  function WithdrawJson(w: Withdraw): Json {
    Obj(Member("amount", Str(w.amount), WithOptional("commit_funds", OptionalBool(w.commitFunds), NoMember)))
  }

  function WithdrawExactJson(w: WithdrawExact): Json {
    Obj(WithOptional("commit_funds", OptionalBool(w.commitFunds), NoMember))
  }

  function TransferJson(t: Transfer): Json {
    Obj(Member("recipient", Str(t.recipient), Member("amount", Str(t.amount), NoMember)))
  }

  function TransferExactJson(t: TransferExact): Json {
    Obj(Member("recipient", Str(t.recipient), NoMember))
  }

  function WithdrawField(m: ReceiveMsg): Option<Json> {
    if m.withdraw.Some? then Some(WithdrawJson(m.withdraw.value)) else None
  }

  function WithdrawExactField(m: ReceiveMsg): Option<Json> {
    if m.withdrawExact.Some? then Some(WithdrawExactJson(m.withdrawExact.value)) else None
  }

  function TransferField(m: ReceiveMsg): Option<Json> {
    if m.transfer.Some? then Some(TransferJson(m.transfer.value)) else None
  }

  function TransferExactField(m: ReceiveMsg): Option<Json> {
    if m.transferExact.Some? then Some(TransferExactJson(m.transferExact.value)) else None
  }

  function ToJson(m: ReceiveMsg): Json {
    Obj(
      WithOptional("withdraw", WithdrawField(m),
      WithOptional("withdraw_exact", WithdrawExactField(m),
      WithOptional("transfer", TransferField(m),
      WithOptional("transfer_exact", TransferExactField(m), NoMember)))))
  }

  function ReadWithdraw(o: Option<Members>): Option<Withdraw> {
    match o
    case None => None
    case Some(ms) => Some(Withdraw(StringAt(ms, "amount"), BoolAt(ms, "commit_funds")))
  }

  function ReadWithdrawExact(o: Option<Members>): Option<WithdrawExact> {
    match o
    case None => None
    case Some(ms) => Some(WithdrawExact(BoolAt(ms, "commit_funds")))
  }

  function ReadTransfer(o: Option<Members>): Option<Transfer> {
    match o
    case None => None
    case Some(ms) => Some(Transfer(StringAt(ms, "recipient"), StringAt(ms, "amount")))
  }

  function ReadTransferExact(o: Option<Members>): Option<TransferExact> {
    match o
    case None => None
    case Some(ms) => Some(TransferExact(StringAt(ms, "recipient")))
  }

  function FromJson(ms: Members): ReceiveMsg {
    ReceiveMsg(
      ReadWithdraw(ObjectAt(ms, "withdraw")),
      ReadWithdrawExact(ObjectAt(ms, "withdraw_exact")),
      ReadTransfer(ObjectAt(ms, "transfer")),
      ReadTransferExact(ObjectAt(ms, "transfer_exact")))
  }

  datatype ReceiveRequest = ReceiveRequest(sender: string, amount: string, msg: string)

  function NewReceiveRequest(sender: string, amount: Option<int>, inner: ReceiveMsg): ReceiveRequest {
    ReceiveRequest(sender, Decimal(amount), Pack(ToJson(inner)))
  }

  function RequestMembers(r: ReceiveRequest): Members {
    Member("sender", Str(r.sender), Member("amount", Str(r.amount), Member("msg", Str(r.msg), NoMember)))
  }

  /** The execute message around a request. */
  function ExecReceive(r: ReceiveRequest): seq<byte> {
    Bytes(Obj(Member("receive", Obj(RequestMembers(r)), NoMember)))
  }

  datatype Receive = Receive(sender: string, amount: Option<int>, inner: ReceiveMsg)

  function ReadReceiveMembers(r: Members): Option<Receive> {
    match Unpack(StringAt(r, "msg"))
    case Some(Obj(inner)) =>
      Some(Receive(StringAt(r, "sender"), ParseDecimal(StringAt(r, "amount")), FromJson(inner)))
    case _ => None
  }

  function ReadReceive(bs: seq<byte>): Option<Receive> {
    match ReadCall(bs, "receive")
    case None => None
    case Some(r) => ReadReceiveMembers(r)
  }

  lemma {:induction false} FieldOfOptional(key: string, value: Option<Json>, rest: Members, asked: string)
    requires Field(rest, key).None?
    ensures Field(WithOptional(key, value, rest), asked) == if asked == key then value else Field(rest, asked)
  {}

  lemma {:induction false} WithdrawIsRead(w: Withdraw)
    ensures ReadWithdraw(Some(WithdrawJson(w).members)) == Some(w)
  {
    KeysDiffer();
    FieldOfOptional("commit_funds", OptionalBool(w.commitFunds), NoMember, "commit_funds");
    FieldOfOptional("commit_funds", OptionalBool(w.commitFunds), NoMember, "amount");
  }

  lemma {:induction false} WithdrawExactIsRead(w: WithdrawExact)
    ensures ReadWithdrawExact(Some(WithdrawExactJson(w).members)) == Some(w)
  {
    FieldOfOptional("commit_funds", OptionalBool(w.commitFunds), NoMember, "commit_funds");
  }

  lemma {:induction false} TransferIsRead(t: Transfer)
    ensures ReadTransfer(Some(TransferJson(t).members)) == Some(t)
  {
    KeysDiffer();
    TwoFields("recipient", t.recipient, "amount", t.amount);
  }

  lemma {:induction false} TransferExactIsRead(t: TransferExact)
    ensures ReadTransferExact(Some(TransferExactJson(t).members)) == Some(t)
  {
    OneField("recipient", Str(t.recipient));
  }

  lemma {:induction false} FieldsOfOptional(key: string, value: Option<Json>, rest: Members)
    requires Field(rest, key).None?
    ensures forall asked :: Field(WithOptional(key, value, rest), asked)
                            == if asked == key then value else Field(rest, asked)
  {}

  lemma {:induction false} MessageFields(m: ReceiveMsg, asked: string)
    ensures Field(ToJson(m).members, asked) ==
              if asked == "withdraw" then WithdrawField(m)
              else if asked == "withdraw_exact" then WithdrawExactField(m)
              else if asked == "transfer" then TransferField(m)
              else if asked == "transfer_exact" then TransferExactField(m)
              else None
  {
    KeysDiffer();
    var m4 := WithOptional("transfer_exact", TransferExactField(m), NoMember);
    var m3 := WithOptional("transfer", TransferField(m), m4);
    var m2 := WithOptional("withdraw_exact", WithdrawExactField(m), m3);
    FieldsOfOptional("transfer_exact", TransferExactField(m), NoMember);
    FieldsOfOptional("transfer", TransferField(m), m4);
    FieldsOfOptional("withdraw_exact", WithdrawExactField(m), m3);
    FieldOfOptional("withdraw", WithdrawField(m), m2, asked);
  }

  lemma {:induction false} MessageObjects(m: ReceiveMsg)
    ensures var ms := ToJson(m).members;
            && ObjectAt(ms, "withdraw")
               == (if m.withdraw.Some? then Some(WithdrawJson(m.withdraw.value).members) else None)
            && ObjectAt(ms, "withdraw_exact")
               == (if m.withdrawExact.Some? then Some(WithdrawExactJson(m.withdrawExact.value).members) else None)
            && ObjectAt(ms, "transfer")
               == (if m.transfer.Some? then Some(TransferJson(m.transfer.value).members) else None)
            && ObjectAt(ms, "transfer_exact")
               == (if m.transferExact.Some? then Some(TransferExactJson(m.transferExact.value).members) else None)
  {
    KeysDiffer();
    MessageFields(m, "withdraw");
    MessageFields(m, "withdraw_exact");
    MessageFields(m, "transfer");
    MessageFields(m, "transfer_exact");
  }

  /** Any combination of payloads survives, and an absent commit_funds stays apart from
      one that is false. */
  lemma {:induction false} MessageRoundTrip(m: ReceiveMsg)
    ensures FromJson(ToJson(m).members) == m
  {
    MessageObjects(m);
    if m.withdraw.Some? {
      WithdrawIsRead(m.withdraw.value);
    }
    if m.withdrawExact.Some? {
      WithdrawExactIsRead(m.withdrawExact.value);
    }
    if m.transfer.Some? {
      TransferIsRead(m.transfer.value);
    }
    if m.transferExact.Some? {
      TransferExactIsRead(m.transferExact.value);
    }
  }

  lemma {:induction false} RequestFields(r: ReceiveRequest)
    ensures var ms := RequestMembers(r);
            StringAt(ms, "sender") == r.sender && StringAt(ms, "amount") == r.amount && StringAt(ms, "msg") == r.msg
  {
    KeysDiffer();
    ThreeFields("sender", r.sender, "amount", r.amount, "msg", r.msg);
  }

  lemma {:induction false} RequestIsRead(sender: string, amount: Option<int>, inner: ReceiveMsg)
    ensures ReadReceiveMembers(RequestMembers(NewReceiveRequest(sender, amount, inner)))
         == Some(Receive(sender, amount, inner))
  {
    RequestFields(NewReceiveRequest(sender, amount, inner));
    DecimalRoundTrip(amount);
    PackRoundTrip(ToJson(inner));
    MessageRoundTrip(inner);
  }

  /** The receive call round trip, for every sender, message and amount; a nil amount is
      printed as a word and reads back as no amount. */
  lemma {:induction false} ReceiveRoundTrip(sender: string, amount: Option<int>, inner: ReceiveMsg)
    ensures ReadReceive(ExecReceive(NewReceiveRequest(sender, amount, inner))) == Some(Receive(sender, amount, inner))
  {
    var r := NewReceiveRequest(sender, amount, inner);
    CallRoundTrip("receive", RequestMembers(r));
    RequestIsRead(sender, amount, inner);
  }
}
