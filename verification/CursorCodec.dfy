/** Page cursors (core/api/service.py, `_encode_cursor` and `_decode_cursor`). */
module CursorCodec {
  import opened Wrappers
  import opened PythonText
  import opened Base64Url
  import opened CursorJson

  /** What a client sends: nothing, a number, or a text. */
  datatype Cursor = Absent | Number(n: int) | Token(text: string)

  datatype Position = Start | Offset(n: nat) | After(fields: map<string, Value>)

  // ---------------------------------------------------------------- dictionaries

  /** The dictionary of a list of members; a repeated key keeps its last value. */
  function Dict(ms: seq<Member>): map<string, Value> {
    if ms == [] then map[] else Dict(ms[..|ms| - 1])[ms[|ms| - 1].key := ms[|ms| - 1].value]
  }

  function InsertByKey(ms: seq<Member>, m: Member): seq<Member> {
    if ms == [] || !TextLess(m.key, ms[|ms| - 1].key) then ms + [m] else InsertByKey(ms[..|ms| - 1], m) + [ms[|ms| - 1]]
  }

  /** `sort_keys=True`. */
  function SortByKey(ms: seq<Member>): seq<Member> {
    if ms == [] then [] else InsertByKey(SortByKey(ms[..|ms| - 1]), ms[|ms| - 1])
  }

  lemma DictOfLast(ms: seq<Member>, m: Member)
    ensures Dict(ms + [m]) == Dict(ms)[m.key := m.value]
  {
    assert (ms + [m])[..|ms|] == ms;
  }

  lemma {:induction false} InsertedMembers(ms: seq<Member>, m: Member)
    ensures forall x :: x in InsertByKey(ms, m) <==> x == m || x in ms
  {
    if ms != [] && TextLess(m.key, ms[|ms| - 1].key) {
      InsertedMembers(ms[..|ms| - 1], m);
      assert ms == ms[..|ms| - 1] + [ms[|ms| - 1]];
    }
  }

  lemma UpdatesCommute(m: map<string, Value>, a: Member, b: Member)
    requires a.key != b.key
    ensures m[a.key := a.value][b.key := b.value] == m[b.key := b.value][a.key := a.value]
  {
  }

  lemma {:induction false} InsertedDict(ms: seq<Member>, m: Member)
    requires m.key !in Dict(ms)
    ensures Dict(InsertByKey(ms, m)) == Dict(ms)[m.key := m.value]
  {
    if ms != [] && TextLess(m.key, ms[|ms| - 1].key) {
      var init, top := ms[..|ms| - 1], ms[|ms| - 1];
      InsertedDict(init, m);
      DictOfLast(InsertByKey(init, m), top);
      UpdatesCommute(Dict(init), m, top);
    } else {
      DictOfLast(ms, m);
    }
  }

  predicate DistinctKeys(ms: seq<Member>) {
    forall i, j :: 0 <= i < j < |ms| ==> ms[i].key != ms[j].key
  }

  lemma {:induction false} DictKeys(ms: seq<Member>, k: string)
    ensures k in Dict(ms) <==> exists i :: 0 <= i < |ms| && ms[i].key == k
  {
    if ms != [] { DictKeys(ms[..|ms| - 1], k); }
  }

  lemma {:induction false} SortedMembers(ms: seq<Member>)
    ensures forall x :: x in SortByKey(ms) <==> x in ms
  {
    if ms != [] {
      SortedMembers(ms[..|ms| - 1]);
      InsertedMembers(SortByKey(ms[..|ms| - 1]), ms[|ms| - 1]);
      assert ms == ms[..|ms| - 1] + [ms[|ms| - 1]];
    }
  }

  /** Sorting the keys of a dictionary does not change what it holds. */
  lemma {:induction false} SortedDict(ms: seq<Member>)
    requires DistinctKeys(ms)
    ensures Dict(SortByKey(ms)) == Dict(ms)
    ensures forall x :: x in SortByKey(ms) <==> x in ms
  {
    SortedMembers(ms);
    if ms != [] {
      var init, last := ms[..|ms| - 1], ms[|ms| - 1];
      SortedDict(init);
      DictKeys(init, last.key);
      InsertedDict(SortByKey(init), last);
    }
  }

  // ---------------------------------------------------------------- text and bytes

  predicate IsAscii(text: string) { forall i :: 0 <= i < |text| ==> text[i] as int < 128 }

  /** ASCII text is one byte a character in UTF-8. */
  function ToBytes(text: string): seq<byte>
    requires IsAscii(text)
  {
    seq(|text|, i requires 0 <= i < |text| => text[i] as int)
  }

  function FromBytes(bytes: seq<byte>): Option<string> {
    if exists i :: 0 <= i < |bytes| && bytes[i] >= 128 then None
    else Some(seq(|bytes|, i requires 0 <= i < |bytes| => bytes[i] as char))
  }

  lemma BytesRoundTrip(text: string)
    requires IsAscii(text)
    ensures FromBytes(ToBytes(text)) == Some(text)
  {
    assert FromBytes(ToBytes(text)).value == text;
  }

  lemma {:induction false} EscapedIsAscii(s: string)
    ensures IsAscii(Escape(s))
  {
    if s != "" {
      EscapedIsAscii(s[1..]);
      EscapeIsAscii(s[0]);
      AsciiAppends(EscapeChar(s[0]), Escape(s[1..]));
    }
  }

  lemma EscapeIsAscii(c: char)
    ensures IsAscii(EscapeChar(c))
  {
  }

  lemma AsciiAppends(a: string, b: string)
    requires IsAscii(a) && IsAscii(b)
    ensures IsAscii(a + b)
  {
  }

  lemma ValueIsAscii(v: Value)
    requires Printable(v)
    ensures IsAscii(PrintValue(v))
  {
    match v {
      case Int(i) => PrintedInt(i);
      case Float(token) =>
      case Text(s) => EscapedIsAscii(s);
    }
  }

  lemma {:induction false} MembersAreAscii(ms: seq<Member>)
    requires ms != [] && forall i :: 0 <= i < |ms| ==> Printable(ms[i].value)
    ensures IsAscii(PrintMembers(ms))
  {
    EscapedIsAscii(ms[0].key);
    ValueIsAscii(ms[0].value);
    assert IsAscii(PrintMember(ms[0]));
    if |ms| > 1 { MembersAreAscii(ms[1..]); }
  }

  // ---------------------------------------------------------------- the codec

  predicate Encodable(ms: seq<Member>) {
    DistinctKeys(ms) && forall m :: m in ms ==> Printable(m.value)
  }

  /** Members in the order the dictionary was written down. */
  function EncodeCursor(ms: seq<Member>): string
    requires Encodable(ms)
  {
    JsonIsAscii(ms);
    Encode(ToBytes(PrintObject(SortByKey(ms))))
  }

  lemma JsonIsAscii(ms: seq<Member>)
    requires Encodable(ms)
    ensures IsAscii(PrintObject(SortByKey(ms)))
    ensures forall i :: 0 <= i < |SortByKey(ms)| ==> Printable(SortByKey(ms)[i].value)
  {
    var sorted := SortByKey(ms);
    SortedPrintable(ms);
    if sorted != [] {
      MembersAreAscii(sorted);
      Prefixed(PrintMembers(sorted));
    }
  }

  lemma Prefixed(text: string)
    requires IsAscii(text)
    ensures IsAscii("{" + text)
  {
  }

  lemma SortedPrintable(ms: seq<Member>)
    requires Encodable(ms)
    ensures forall i :: 0 <= i < |SortByKey(ms)| ==> Printable(SortByKey(ms)[i].value)
  {
    SortedDict(ms);
    assert forall i :: 0 <= i < |SortByKey(ms)| ==> SortByKey(ms)[i] in ms;
  }

  predicate AllDigits(text: string) { text != "" && forall i :: 0 <= i < |text| ==> IsDigit(text[i]) }

  function Floor0(n: int): nat { if n < 0 then 0 else n }

  /** None is the "invalid cursor" answer; it also stands for texts the service never issues. */
  function DecodeCursor(cursor: Cursor): Option<Position> {
    match cursor
    case Absent => Some(Start)
    case Number(n) => if n == 0 then Some(Start) else Some(Offset(Floor0(n)))
    case Token(text) =>
      if text == "" || text == "0" then Some(Start)
      else if AllDigits(text) then Some(Offset(Floor0(ReadNat(text))))
      else match Decode(text)
        case None => None
        case Some(bytes) =>
          match FromBytes(bytes)
          case None => None
          case Some(json) =>
            match ReadObject(json)
            case None => None
            case Some(ms) => Some(After(Dict(ms)))
  }

  /** An issued cursor is never mistaken for an offset, and decodes to the position it was issued for. */
  lemma CursorRoundTrip(ms: seq<Member>)
    requires Encodable(ms)
    ensures EncodeCursor(ms) != "" && EncodeCursor(ms)[0] == 'e' && !AllDigits(EncodeCursor(ms))
    ensures DecodeCursor(Token(EncodeCursor(ms))) == Some(After(Dict(ms)))
  {
    JsonIsAscii(ms);
    var json := PrintObject(SortByKey(ms));
    BraceIsE(ToBytes(json));
    DecodeEncode(ToBytes(json));
    BytesRoundTrip(json);
    ReadPrintedObject(SortByKey(ms));
    SortedDict(ms);
  }

  /** A number, or its decimal text, is an offset; nothing, an empty text and zero are the beginning, and
      so is every number below. */
  lemma OffsetsDecode(n: int)
    ensures DecodeCursor(Absent) == Some(Start) && DecodeCursor(Token("")) == Some(Start)
    ensures n > 0 ==> DecodeCursor(Number(n)) == Some(Offset(n)) && DecodeCursor(Token(PrintInt(n))) == Some(Offset(n))
    ensures n == 0 ==> DecodeCursor(Number(n)) == Some(Start) && DecodeCursor(Token(PrintInt(n))) == Some(Start)
    ensures n < 0 ==> DecodeCursor(Number(n)) == Some(Offset(0))
  {
    if n >= 0 { PrintedNat(n); }
    if n > 0 { assert PrintNat(n) != "0" by { assert ReadNat("0") == 0; } }
  }

  /** Different positions have different cursors. */
  lemma CursorsAreDistinct(ms: seq<Member>, ns: seq<Member>)
    requires Encodable(ms) && Encodable(ns) && Dict(ms) != Dict(ns)
    ensures EncodeCursor(ms) != EncodeCursor(ns)
  {
    CursorRoundTrip(ms);
    CursorRoundTrip(ns);
  }
}
