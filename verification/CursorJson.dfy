/**
 The compact JSON inside a page cursor: one flat object of integers, floats and strings, printed as
 `json.dumps(..., sort_keys=True, separators=(",", ":"))` prints it and read back.  A float is its
 token, since Python's `repr` and `float` are inverse.
 */
module CursorJson {
  import opened Wrappers

  datatype Value = Int(i: int) | Float(token: string) | Text(s: string)

  datatype Member = Member(key: string, value: Value)

  // ---------------------------------------------------------------- strings

  function HexDigit(n: int): char
    requires 0 <= n < 16
  {
    if n < 10 then '0' + n as char else 'a' + (n - 10) as char
  }

  function HexValue(c: char): Option<int> {
    if '0' <= c <= '9' then Some(c as int - '0' as int)
    else if 'a' <= c <= 'f' then Some(c as int - 'a' as int + 10)
    else if 'A' <= c <= 'F' then Some(c as int - 'A' as int + 10)
    else None
  }

  lemma HexRoundTrip(n: int)
    requires 0 <= n < 16
    ensures HexValue(HexDigit(n)) == Some(n)
  {
  }

  function Hex4(n: int): (r: string)
    requires 0 <= n < 0x10000
    ensures |r| == 4
  {
    var q1 := n / 16;
    var q2 := q1 / 16;
    [HexDigit(q2 / 16), HexDigit(q2 % 16), HexDigit(q1 % 16), HexDigit(n % 16)]
  }

  function JoinHex(a: int, b: int, c: int, d: int): int { ((a * 16 + b) * 16 + c) * 16 + d }

  /** The code unit four hex digits stand for. */
  function ReadHex4(text: string): Option<int> {
    if |text| < 4 then None
    else
      var a, b, c, d := HexValue(text[0]), HexValue(text[1]), HexValue(text[2]), HexValue(text[3]);
      if a.None? || b.None? || c.None? || d.None? then None else Some(JoinHex(a.value, b.value, c.value, d.value))
  }

  lemma ReadHex4Hex4(n: int, rest: string)
    requires 0 <= n < 0x10000
    ensures ReadHex4(Hex4(n) + rest) == Some(n)
  {
    var q1 := n / 16;
    var q2 := q1 / 16;
    HexRoundTrip(q2 / 16);
    HexRoundTrip(q2 % 16);
    HexRoundTrip(q1 % 16);
    HexRoundTrip(n % 16);
  }

  function Unit(n: int): (r: string)
    requires 0 <= n < 0x10000
    ensures |r| == 6 && r[0] == '\\'
  {
    "\\u" + Hex4(n)
  }

  predicate IsHigh(n: int) { 0xD800 <= n < 0xDC00 }
  predicate IsLow(n: int) { 0xDC00 <= n < 0xE000 }

  /** The surrogate pair of a character beyond the first plane. */
  function High(n: int): (r: int)
    requires 0x10000 <= n < 0x110000
    ensures IsHigh(r)
  {
    0xD800 + (n - 0x10000) / 0x400
  }

  function Low(n: int): (r: int)
    requires 0x10000 <= n < 0x110000
    ensures IsLow(r)
  {
    0xDC00 + (n - 0x10000) % 0x400
  }

  function Pair(high: int, low: int): (r: int)
    requires IsHigh(high) && IsLow(low)
    ensures 0x10000 <= r < 0x110000
  {
    0x10000 + (high - 0xD800) * 0x400 + (low - 0xDC00)
  }

  /** The letter after the backslash of a short escape. */
  function ShortEscape(c: char): Option<char> {
    if c == '"' || c == '\\' then Some(c)
    else if c == '\n' then Some('n')
    else if c == '\r' then Some('r')
    else if c == '\t' then Some('t')
    else if c == 8 as char then Some('b')
    else if c == 12 as char then Some('f')
    else None
  }

  function ReadShort(c: char): Option<char> {
    if c == '"' || c == '\\' || c == '/' then Some(c)
    else if c == 'n' then Some('\n')
    else if c == 'r' then Some('\r')
    else if c == 't' then Some('\t')
    else if c == 'b' then Some(8 as char)
    else if c == 'f' then Some(12 as char)
    else None
  }

  /** Everything but printable ASCII is escaped, beyond the first plane as a surrogate pair. */
  function EscapeChar(c: char): string {
    if ShortEscape(c).Some? then ['\\', ShortEscape(c).value]
    else if ' ' <= c <= '~' then [c]
    else if c as int < 0x10000 then Unit(c as int)
    else Unit(High(c as int)) + Unit(Low(c as int))
  }

  function Escape(s: string): string { if s == "" then "" else EscapeChar(s[0]) + Escape(s[1..]) }

  /** A "\uXXXX" escape at the start of the text. */
  function ReadUnit(text: string): Option<int> {
    if |text| < 6 || text[0] != '\\' || text[1] != 'u' then None else ReadHex4(text[2..])
  }

  lemma ReadUnitFrom(hex: string, rest: string)
    requires |hex| == 4
    ensures ReadUnit("\\u" + hex + rest) == ReadHex4(hex + rest) && ("\\u" + hex + rest)[6..] == rest
  {
    assert ("\\u" + hex + rest)[2..] == hex + rest;
  }

  lemma ReadUnitUnit(n: int, rest: string)
    requires 0 <= n < 0x10000
    ensures ReadUnit(Unit(n) + rest) == Some(n) && (Unit(n) + rest)[6..] == rest
  {
    ReadUnitFrom(Hex4(n), rest);
    ReadHex4Hex4(n, rest);
  }

  /** One character of a string body, and how much text it took; None ends the decoding. */
  function ReadChar(text: string): (r: Option<(char, nat)>)
    ensures r.Some? ==> 0 < r.value.1 <= |text|
  {
    if text == "" || text[0] == '"' || text[0] < ' ' then None
    else if text[0] != '\\' then Some((text[0], 1))
    else if |text| < 2 then None
    else if text[1] != 'u' then
      if ReadShort(text[1]).Some? then Some((ReadShort(text[1]).value, 2)) else None
    else match ReadUnit(text)
      case None => None
      case Some(n) =>
        if IsHigh(n) then
          match ReadUnit(text[6..])
          case None => None
          case Some(m) => if IsLow(m) then Some((Pair(n, m) as char, 12)) else None
        else if IsLow(n) || n < 0 || n >= 0x10000 then None
        else Some((n as char, 6))
  }

  /** A string body up to its closing quote, and the text after it. */
  function ReadString(text: string): (r: Option<(string, string)>)
    ensures r.Some? ==> |r.value.1| < |text|
    decreases |text|
  {
    if text == "" then None
    else if text[0] == '"' then Some(("", text[1..]))
    else match ReadChar(text)
      case None => None
      case Some((c, used)) =>
        match ReadString(text[used..])
        case None => None
        case Some((s, rest)) => Some(([c] + s, rest))
  }

  lemma PairSplit(n: int)
    requires 0x10000 <= n < 0x110000
    ensures Pair(High(n), Low(n)) == n
  {
  }

  lemma ReadPair(high: int, low: int, rest: string)
    requires IsHigh(high) && IsLow(low)
    ensures ReadChar(Unit(high) + Unit(low) + rest) == Some((Pair(high, low) as char, 12))
  {
    assert Unit(high) + Unit(low) + rest == Unit(high) + (Unit(low) + rest);
    ReadUnitUnit(high, Unit(low) + rest);
    ReadUnitUnit(low, rest);
  }

  lemma ReadShortEscape(c: char, letter: char, rest: string)
    requires ShortEscape(c) == Some(letter)
    ensures ReadChar(['\\', letter] + rest) == Some((c, 2))
  {
    assert (['\\', letter] + rest)[1] == letter;
  }

  lemma ReadUnitEscape(n: int, rest: string)
    requires 0 <= n < 0x10000 && !IsHigh(n) && !IsLow(n)
    ensures ReadChar(Unit(n) + rest) == Some((n as char, 6))
  {
    ReadUnitUnit(n, rest);
    assert (Unit(n) + rest)[1] == 'u';
  }

  lemma ReadEscaped(c: char, rest: string)
    ensures EscapeChar(c) != "" && EscapeChar(c)[0] != '"'
    ensures ReadChar(EscapeChar(c) + rest) == Some((c, |EscapeChar(c)|))
  {
    if ShortEscape(c).Some? {
      ReadShortEscape(c, ShortEscape(c).value, rest);
    } else if !(' ' <= c <= '~') {
      if c as int < 0x10000 {
        ReadUnitEscape(c as int, rest);
      } else {
        PairSplit(c as int);
        ReadPair(High(c as int), Low(c as int), rest);
      }
    }
  }

  lemma {:induction false} ReadEscapedString(s: string, rest: string)
    ensures ReadString(Escape(s) + "\"" + rest) == Some((s, rest))
  {
    if s == "" {
      assert Escape(s) + "\"" + rest == "\"" + rest;
    } else {
      var tail := Escape(s[1..]) + "\"" + rest;
      ReadEscaped(s[0], tail);
      ReadEscapedString(s[1..], rest);
      assert Escape(s) + "\"" + rest == EscapeChar(s[0]) + tail;
      assert (EscapeChar(s[0]) + tail)[|EscapeChar(s[0])|..] == tail;
      assert s == [s[0]] + s[1..];
    }
  }

  // ---------------------------------------------------------------- numbers

  predicate IsDigit(c: char) { '0' <= c <= '9' }

  predicate InNumber(c: char) { IsDigit(c) || c == '-' || c == '+' || c == '.' || c == 'e' || c == 'E' }

  function PrintNat(n: nat): string {
    if n < 10 then ['0' + n as char] else PrintNat(n / 10) + ['0' + (n % 10) as char]
  }

  function PrintInt(i: int): string { if i < 0 then "-" + PrintNat(-i) else PrintNat(i) }

  function ReadNat(t: string): int {
    if t == "" then 0 else 10 * ReadNat(t[..|t| - 1]) + (t[|t| - 1] as int - '0' as int)
  }

  function ReadInt(t: string): int { if t != "" && t[0] == '-' then -ReadNat(t[1..]) else ReadNat(t) }

  function DigitRun(t: string): (n: nat)
    ensures n <= |t|
  {
    if t == "" || !IsDigit(t[0]) then 0 else 1 + DigitRun(t[1..])
  }

  datatype Kind = NotANumber | IntToken | FloatToken

  predicate IsExponent(t: string) {
    && t != "" && (t[0] == 'e' || t[0] == 'E')
    && var digits := if |t| > 1 && (t[1] == '-' || t[1] == '+') then t[2..] else t[1..];
       digits != "" && DigitRun(digits) == |digits|
  }

  predicate IsFraction(t: string) {
    if t != "" && t[0] == '.' then
      var f := DigitRun(t[1..]);
      f > 0 && (1 + f == |t| || IsExponent(t[1 + f..]))
    else IsExponent(t)
  }

  /** The JSON number grammar. */
  function KindOf(token: string): Kind {
    var body := if token != "" && token[0] == '-' then token[1..] else token;
    var d := DigitRun(body);
    if d == 0 || (d > 1 && body[0] == '0') then NotANumber
    else if d == |body| then IntToken
    else if IsFraction(body[d..]) then FloatToken
    else NotANumber
  }

  lemma {:induction false} PrintedNat(n: nat)
    ensures PrintNat(n) != "" && (forall i :: 0 <= i < |PrintNat(n)| ==> IsDigit(PrintNat(n)[i]))
    ensures n > 0 ==> PrintNat(n)[0] != '0'
    ensures ReadNat(PrintNat(n)) == n
  {
    if n >= 10 {
      PrintedNat(n / 10);
      assert PrintNat(n)[..|PrintNat(n)| - 1] == PrintNat(n / 10);
    } else {
      assert PrintNat(n)[..0] == "";
    }
  }

  lemma {:induction false} AllDigits(t: string)
    requires forall i :: 0 <= i < |t| ==> IsDigit(t[i])
    ensures DigitRun(t) == |t|
  {
    if t != "" { AllDigits(t[1..]); }
  }

  lemma PrintedInt(i: int)
    ensures PrintInt(i) != "" && PrintInt(i)[0] != '"' && (forall k :: 0 <= k < |PrintInt(i)| ==> InNumber(PrintInt(i)[k]))
    ensures KindOf(PrintInt(i)) == IntToken && ReadInt(PrintInt(i)) == i
  {
    var n: nat := if i < 0 then -i else i;
    PrintedNat(n);
    AllDigits(PrintNat(n));
    if i < 0 { assert PrintInt(i)[1..] == PrintNat(n); }
    if |PrintNat(n)| > 1 { assert n >= 10; }
  }

  function NumberRun(t: string): (n: nat)
    ensures n <= |t|
  {
    if t == "" || !InNumber(t[0]) then 0 else 1 + NumberRun(t[1..])
  }

  lemma {:induction false} TokenEnds(token: string, rest: string)
    requires forall i :: 0 <= i < |token| ==> InNumber(token[i])
    requires rest == "" || !InNumber(rest[0])
    ensures NumberRun(token + rest) == |token|
  {
    if token != "" {
      TokenEnds(token[1..], rest);
      assert (token + rest)[1..] == token[1..] + rest;
    } else {
      assert token + rest == rest;
    }
  }

  // ---------------------------------------------------------------- objects

  function PrintText(s: string): string { "\"" + Escape(s) + "\"" }

  function PrintValue(v: Value): string {
    match v
    case Int(i) => PrintInt(i)
    case Float(token) => token
    case Text(s) => PrintText(s)
  }

  function ReadValue(text: string): (r: Option<(Value, string)>)
    ensures r.Some? ==> |r.value.1| <= |text|
  {
    if text != "" && text[0] == '"' then
      match ReadString(text[1..])
      case None => None
      case Some((s, rest)) => Some((Text(s), rest))
    else
      var n := NumberRun(text);
      match KindOf(text[..n])
      case NotANumber => None
      case IntToken => Some((Int(ReadInt(text[..n])), text[n..]))
      case FloatToken => Some((Float(text[..n]), text[n..]))
  }

  /** A float prints as a JSON number with a fraction or an exponent. */
  predicate Printable(v: Value) {
    v.Float? ==> KindOf(v.token).FloatToken? && forall i :: 0 <= i < |v.token| ==> InNumber(v.token[i])
  }

  lemma ReadPrintedText(s: string, rest: string)
    ensures PrintText(s) + rest != "" && (PrintText(s) + rest)[0] == '"'
    ensures ReadString((PrintText(s) + rest)[1..]) == Some((s, rest))
  {
    ReadEscapedString(s, rest);
    Unquote(Escape(s), rest);
  }

  lemma Unquote(body: string, rest: string)
    ensures ("\"" + body + "\"" + rest)[1..] == body + "\"" + rest
  {
  }

  lemma ReadPrintedValue(v: Value, rest: string)
    requires Printable(v) && rest != "" && !InNumber(rest[0])
    ensures ReadValue(PrintValue(v) + rest) == Some((v, rest))
  {
    match v {
      case Text(s) => ReadPrintedText(s, rest);
      case Int(i) =>
        PrintedInt(i);
        ReadToken(PrintInt(i), rest);
      case Float(token) =>
        assert token != "" && token[0] != '"';
        ReadToken(token, rest);
    }
  }

  lemma ReadToken(token: string, rest: string)
    requires token != "" && rest != "" && !InNumber(rest[0]) && forall i :: 0 <= i < |token| ==> InNumber(token[i])
    ensures (token + rest)[0] != '"' && NumberRun(token + rest) == |token|
    ensures (token + rest)[..|token|] == token && (token + rest)[|token|..] == rest
  {
    TokenEnds(token, rest);
  }

  function PrintMember(m: Member): string { PrintText(m.key) + ":" + PrintValue(m.value) }

  function PrintMembers(ms: seq<Member>): string
    requires ms != []
  {
    if |ms| == 1 then PrintMember(ms[0]) + "}" else PrintMember(ms[0]) + "," + PrintMembers(ms[1..])
  }

  function PrintObject(ms: seq<Member>): string { if ms == [] then "{}" else "{" + PrintMembers(ms) }

  function ReadMember(text: string): (r: Option<(Member, string)>)
    ensures r.Some? ==> |r.value.1| < |text|
  {
    if text == "" || text[0] != '"' then None
    else match ReadString(text[1..])
      case None => None
      case Some((key, rest)) =>
        if rest == "" || rest[0] != ':' then None
        else match ReadValue(rest[1..])
          case None => None
          case Some((v, after)) => Some((Member(key, v), after))
  }

  function ReadMembers(text: string): Option<seq<Member>>
    decreases |text|
  {
    match ReadMember(text)
    case None => None
    case Some((m, rest)) =>
      if rest == "}" then Some([m])
      else if rest == "" || rest[0] != ',' then None
      else match ReadMembers(rest[1..])
        case None => None
        case Some(ms) => Some([m] + ms)
  }

  function ReadObject(text: string): Option<seq<Member>> {
    if text == "{}" then Some([]) else if text == "" || text[0] != '{' then None else ReadMembers(text[1..])
  }

  lemma ReadPrintedMember(m: Member, rest: string)
    requires Printable(m.value) && rest != "" && !InNumber(rest[0])
    ensures ReadMember(PrintMember(m) + rest) == Some((m, rest))
  {
    var tail := ":" + (PrintValue(m.value) + rest);
    ReadPrintedText(m.key, tail);
    ReadPrintedValue(m.value, rest);
    MemberSplits(m, rest);
    assert tail[1..] == PrintValue(m.value) + rest;
  }

  lemma MemberSplits(m: Member, rest: string)
    ensures PrintMember(m) + rest == PrintText(m.key) + (":" + (PrintValue(m.value) + rest))
  {
  }

  lemma ReadOnWith(text: string, m: Member, rest: string, ms: seq<Member>)
    requires ReadMember(text) == Some((m, "," + rest)) && ReadMembers(rest) == Some(ms)
    ensures ReadMembers(text) == Some([m] + ms)
  {
    assert ("," + rest)[1..] == rest;
  }

  lemma {:induction false} ReadPrintedMembers(ms: seq<Member>)
    requires ms != [] && forall i :: 0 <= i < |ms| ==> Printable(ms[i].value)
    ensures ReadMembers(PrintMembers(ms)) == Some(ms)
  {
    if |ms| == 1 {
      ReadPrintedMember(ms[0], "}");
      assert ms == [ms[0]];
    } else {
      ReadPrintedMembers(ms[1..]);
      MembersSplit(ms);
      ReadPrintedMember(ms[0], "," + PrintMembers(ms[1..]));
      ReadOnWith(PrintMembers(ms), ms[0], PrintMembers(ms[1..]), ms[1..]);
      assert ms == [ms[0]] + ms[1..];
    }
  }

  lemma MembersSplit(ms: seq<Member>)
    requires |ms| > 1
    ensures PrintMembers(ms) == PrintMember(ms[0]) + ("," + PrintMembers(ms[1..]))
  {
  }

  lemma ReadPrintedObject(ms: seq<Member>)
    requires forall i :: 0 <= i < |ms| ==> Printable(ms[i].value)
    ensures ReadObject(PrintObject(ms)) == Some(ms)
  {
    if ms != [] {
      ReadPrintedMembers(ms);
      assert PrintObject(ms)[1..] == PrintMembers(ms);
      assert PrintMembers(ms)[0] == '"';
    }
  }
}
