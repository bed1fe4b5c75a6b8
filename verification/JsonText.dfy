/** The fragment of JSON the payload builders emit: objects, strings and booleans. `Print`
    is Go's json.Marshal with its HTML-safe escapes, `Parse` reads any text of the fragment,
    with white space and every escape of section 7 of RFC 8259. */
module JsonText {
  import opened Options
  import opened Utf8

  datatype Json = Str(text: string) | Bool(value: bool) | Obj(members: Members)

  datatype Members = NoMember | Member(key: string, value: Json, rest: Members)

  // ---------- Printing ----------

  function HexDigit(d: nat): char
    requires d < 16
  {
    if d < 10 then ('0' as int + d) as char else ('a' as int + d - 10) as char
  }

  function UnicodeEscape(n: nat): string
    requires n < 0x10000
  {
    ['\\', 'u', HexDigit(n / 4096), HexDigit(n / 256 % 16), HexDigit(n / 16 % 16), HexDigit(n % 16)]
  }

  function EscapeChar(c: char): string {
    if c == '\"' || c == '\\' then ['\\', c]
    else if c as int == 8 then ['\\', 'b']
    else if c as int == 12 then ['\\', 'f']
    else if c == '\n' then ['\\', 'n']
    else if c == '\r' then ['\\', 'r']
    else if c == '\t' then ['\\', 't']
    else if c as int < 0x20 || c == '<' || c == '>' || c == '&' || c as int == 0x2028 || c as int == 0x2029
    then UnicodeEscape(c as int)
    else [c]
  }

  function Escape(s: string): string {
    if s == "" then "" else EscapeChar(s[0]) + Escape(s[1..])
  }

  function Quote(s: string): string {
    "\"" + Escape(s) + "\""
  }

  function Print(j: Json): string {
    match j
    case Str(s) => Quote(s)
    case Bool(b) => if b then "true" else "false"
    case Obj(NoMember) => "{}"
    case Obj(Member(k, v, rest)) => "{" + Quote(k) + ":" + Print(v) + PrintRest(rest)
  }

  function PrintRest(ms: Members): string {
    match ms
    case NoMember => "}"
    case Member(k, v, rest) => "," + Quote(k) + ":" + Print(v) + PrintRest(rest)
  }

  // ---------- Parsing ----------

  function HexValue(c: char): Option<nat> {
    if '0' <= c <= '9' then Some(c as int - '0' as int)
    else if 'a' <= c <= 'f' then Some(c as int - 'a' as int + 10)
    else if 'A' <= c <= 'F' then Some(c as int - 'A' as int + 10)
    else None
  }

  /** The number of four hexadecimal digits. */
  function Hex4(s: string): (r: Option<nat>)
    ensures r.Some? ==> r.value < 0x10000
  {
    if |s| < 4 then None
    else
      match (HexValue(s[0]), HexValue(s[1]), HexValue(s[2]), HexValue(s[3]))
      case (Some(a), Some(b), Some(c), Some(d)) =>
        if a < 16 && b < 16 && c < 16 && d < 16 then Some(a * 4096 + b * 256 + c * 16 + d) else None
      case _ => None
  }

  const REPLACEMENT: char := '\U{FFFD}'

  /** What a \u escape with number n stands for, given the text after its digits, and how
      much of that text it takes: a surrogate pair takes the second escape, a surrogate
      without its partner stands for U+FFFD. */
  function Unescape(n: nat, s: string): (r: (char, nat))
    requires n < 0x10000
    ensures r.1 <= |s|
  {
    if IsScalar(n) then (n as char, 0)
    else if n < 0xDC00 && |s| >= 6 && s[0] == '\\' && s[1] == 'u' then
      match Hex4(s[2..])
      case Some(low) =>
        if 0xDC00 <= low < 0xE000
        then ((0x10000 + (n - 0xD800) * 0x400 + (low - 0xDC00)) as char, 6) else (REPLACEMENT, 0)
      case None => (REPLACEMENT, 0)
    else (REPLACEMENT, 0)
  }

  function SimpleEscape(c: char): Option<char> {
    if c == '\"' || c == '\\' || c == '/' then Some(c)
    else if c == 'b' then Some(8 as char)
    else if c == 'f' then Some(12 as char)
    else if c == 'n' then Some('\n')
    else if c == 'r' then Some('\r')
    else if c == 't' then Some('\t')
    else None
  }

  function Prepend(c: char, r: Option<(string, string)>): Option<(string, string)> {
    match r
    case None => None
    case Some((text, rest)) => Some(([c] + text, rest))
  }

  /** The characters up to the closing quote, and the text after it. */
  function ParseChars(s: string): (r: Option<(string, string)>)
    ensures r.Some? ==> |r.value.1| < |s|
  {
    if s == "" then None
    else if s[0] == '\"' then Some(("", s[1..]))
    else if s[0] as int < 0x20 then None
    else if s[0] != '\\' then Prepend(s[0], ParseChars(s[1..]))
    else if |s| < 2 then None
    else if s[1] == 'u' then
      match Hex4(s[2..])
      case None => None
      case Some(n) =>
        var (c, k) := Unescape(n, s[6..]);
        Prepend(c, ParseChars(s[6 + k..]))
    else
      match SimpleEscape(s[1])
      case None => None
      case Some(c) => Prepend(c, ParseChars(s[2..]))
  }

  predicate IsSpace(c: char) {
    c == ' ' || c == '\t' || c == '\n' || c == '\r'
  }

  function SkipSpace(s: string): (r: string)
    ensures |r| <= |s|
  {
    if s != "" && IsSpace(s[0]) then SkipSpace(s[1..]) else s
  }

  function Parse(text: string): (r: Option<(Json, string)>)
    ensures r.Some? ==> |r.value.1| < |text|
    decreases |text|, 1
  {
    var s := SkipSpace(text);
    if s == "" then None
    else if s[0] == '\"' then
      (match ParseChars(s[1..])
       case None => None
       case Some((t, rest)) => Some((Str(t), rest)))
    else if "true" <= s then Some((Bool(true), s[4..]))
    else if "false" <= s then Some((Bool(false), s[5..]))
    else if s[0] == '{' then
      var t := SkipSpace(s[1..]);
      if t != "" && t[0] == '}' then Some((Obj(NoMember), t[1..]))
      else
        match ParseMembers(t)
        case None => None
        case Some((ms, rest)) => Some((Obj(ms), rest))
    else None
  }

  /** One or more members and the closing brace. */
  function ParseMembers(text: string): (r: Option<(Members, string)>)
    ensures r.Some? ==> |r.value.1| < |text|
    decreases |text|, 0
  {
    var s := SkipSpace(text);
    if s == "" || s[0] != '\"' then None
    else
      match ParseChars(s[1..])
      case None => None
      case Some((k, afterKey)) =>
        var colon := SkipSpace(afterKey);
        if colon == "" || colon[0] != ':' then None
        else
          match Parse(colon[1..])
          case None => None
          case Some((v, afterValue)) =>
            var t := SkipSpace(afterValue);
            if t == "" then None
            else if t[0] == '}' then Some((Member(k, v, NoMember), t[1..]))
            else if t[0] != ',' then None
            else
              match ParseMembers(t[1..])
              case None => None
              case Some((ms, rest)) => Some((Member(k, v, ms), rest))
  }

  /** A whole text: one value and nothing but white space after it. */
  function ParseText(text: string): Option<Json> {
    match Parse(text)
    case None => None
    case Some((j, rest)) => if SkipSpace(rest) == "" then Some(j) else None
  }

  // ---------- Round trip ----------

  lemma {:induction false} ValueOfHexDigit(d: nat)
    requires d < 16
    ensures HexValue(HexDigit(d)) == Some(d)
  {}

  lemma {:induction false} HexDigitsAddUp(n: nat)
    ensures n / 4096 * 4096 + n / 256 % 16 * 256 + n / 16 % 16 * 16 + n % 16 == n
  {
    var a := n / 16;
    var b := n / 256;
    assert a == b * 16 + a % 16;
    assert b == n / 4096 * 16 + b % 16;
  }

  lemma {:induction false} Hex4OfEscape(n: nat, rest: string)
    requires n < 0x10000
    ensures Hex4(UnicodeEscape(n)[2..] + rest) == Some(n)
  {
    var a, b, c, d := n / 4096, n / 256 % 16, n / 16 % 16, n % 16;
    ValueOfHexDigit(a);
    ValueOfHexDigit(b);
    ValueOfHexDigit(c);
    ValueOfHexDigit(d);
    assert UnicodeEscape(n)[2..] + rest == [HexDigit(a), HexDigit(b), HexDigit(c), HexDigit(d)] + rest;
    HexDigitsAddUp(n);
  }

  lemma {:induction false} ParseUnicodeEscape(c: char, rest: string)
    requires (c as int) < 0x10000
    ensures ParseChars(UnicodeEscape(c as int) + rest) == Prepend(c, ParseChars(rest))
  {
    var e := UnicodeEscape(c as int);
    var s := e + rest;
    Hex4OfEscape(c as int, rest);
    assert s[2..] == e[2..] + rest && s[6..] == rest && s[6 + 0..] == rest;
    assert IsScalar(c as int);
  }

  lemma {:induction false} ParseEscapedChar(c: char, rest: string)
    ensures ParseChars(EscapeChar(c) + rest) == Prepend(c, ParseChars(rest))
  {
    var e := EscapeChar(c);
    var s := e + rest;
    if |e| == 1 {
      assert s[1..] == rest;
    } else if |e| == 2 {
      assert s[2..] == rest;
    } else {
      ParseUnicodeEscape(c, rest);
    }
  }

  lemma {:induction false} ParseEscaped(s: string, rest: string)
    ensures ParseChars(Escape(s) + "\"" + rest) == Some((s, rest))
  {
    if s == "" {
      assert Escape(s) + "\"" + rest == "\"" + rest;
      assert ("\"" + rest)[1..] == rest;
    } else {
      var tail := Escape(s[1..]) + "\"" + rest;
      assert Escape(s) + "\"" + rest == EscapeChar(s[0]) + tail;
      ParseEscapedChar(s[0], tail);
      ParseEscaped(s[1..], rest);
      assert [s[0]] + s[1..] == s;
    }
  }

  lemma {:induction false} ParseQuoted(s: string, rest: string)
    ensures var text := Quote(s) + rest;
            text != "" && text[0] == '\"' && ParseChars(text[1..]) == Some((s, rest))
  {
    ParseEscaped(s, rest);
    assert (Quote(s) + rest)[1..] == Escape(s) + "\"" + rest;
  }

  lemma {:induction false} NoSpaceToSkip(s: string)
    requires s != "" && !IsSpace(s[0])
    ensures SkipSpace(s) == s
  {}

  lemma {:induction false} ParseBraced(t: string, ms: Members, rest: string)
    requires t != "" && t[0] == '\"' && ParseMembers(t) == Some((ms, rest))
    ensures Parse("{" + t) == Some((Obj(ms), rest))
  {
    var s := "{" + t;
    NoSpaceToSkip(s);
    NoSpaceToSkip(t);
    assert s[1..] == t && !("true" <= s) && !("false" <= s);
  }

  lemma {:induction false} ParseMember(k: string, v: Json, value: string, after: string)
    requires Parse(value + after) == Some((v, after)) && after != ""
    ensures after[0] == '}' ==>
              ParseMembers(Quote(k) + (":" + (value + after))) == Some((Member(k, v, NoMember), after[1..]))
    ensures after[0] == ',' ==>
              ParseMembers(Quote(k) + (":" + (value + after))) ==
              match ParseMembers(after[1..])
              case None => None
              case Some((ms, rest)) => Some((Member(k, v, ms), rest))
  {
    var afterKey := ":" + (value + after);
    ParseQuoted(k, afterKey);
    assert afterKey[1..] == value + after;
  }

  lemma {:induction false} Regroup(a: string, b: string, c: string, d: string, e: string, rest: string)
    ensures a + b + c + d + e + rest == a + (b + (c + (d + (e + rest))))
  {}

  /** The text of a member list, nested to the right. */
  lemma {:induction false} MembersText(k: string, v: Json, ms: Members, rest: string)
    ensures Print(Obj(Member(k, v, ms))) + rest
         == "{" + (Quote(k) + (":" + (Print(v) + (PrintRest(ms) + rest))))
  {
    Regroup("{", Quote(k), ":", Print(v), PrintRest(ms), rest);
  }

  lemma {:induction false} RestText(k: string, v: Json, ms: Members, rest: string)
    ensures var text := PrintRest(Member(k, v, ms)) + rest;
            text[0] == ',' && text[1..] == Quote(k) + (":" + (Print(v) + (PrintRest(ms) + rest)))
  {
    Regroup(",", Quote(k), ":", Print(v), PrintRest(ms), rest);
  }

  /** Printing is undone by parsing, whatever text follows. */
  lemma {:induction false} ParsePrinted(j: Json, rest: string)
    ensures Parse(Print(j) + rest) == Some((j, rest))
    decreases j, 1
  {
    var text := Print(j) + rest;
    match j {
      case Str(s) =>
        ParseQuoted(s, rest);
      case Bool(b) =>
        assert text[..if b then 4 else 5] == Print(j);
        assert text[|Print(j)|..] == rest;
      case Obj(NoMember) =>
        assert text[1..] == "}" + rest && ("}" + rest)[1..] == rest;
      case Obj(Member(k, v, ms)) =>
        ParsePrintedMembers(k, v, ms, rest);
        MembersText(k, v, ms, rest);
        var t := Quote(k) + (":" + (Print(v) + (PrintRest(ms) + rest)));
        ParseBraced(t, Member(k, v, ms), rest);
    }
  }

  lemma {:induction false} ParsePrintedMembers(k: string, v: Json, ms: Members, rest: string)
    ensures ParseMembers(Quote(k) + (":" + (Print(v) + (PrintRest(ms) + rest)))) == Some((Member(k, v, ms), rest))
    decreases Member(k, v, ms), 0
  {
    var after := PrintRest(ms) + rest;
    ParsePrinted(v, after);
    ParseMember(k, v, Print(v), after);
    match ms {
      case NoMember =>
        assert after[1..] == rest;
      case Member(k', v', ms') =>
        ParsePrintedMembers(k', v', ms', rest);
        RestText(k', v', ms', rest);
    }
  }

  lemma {:induction false} RoundTrip(j: Json)
    ensures ParseText(Print(j)) == Some(j)
  {
    ParsePrinted(j, "");
    assert Print(j) + "" == Print(j);
  }
}
