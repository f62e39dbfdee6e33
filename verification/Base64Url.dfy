/** Base64url without padding, sections 3.2 and 5 of RFC 4648, as the page cursors use it. */
module Base64Url {
  import opened Wrappers

  type byte = n: int | 0 <= n < 256
  type sextet = n: int | 0 <= n < 64

  function Letter(n: sextet): char {
    if n < 26 then 'A' + n as char
    else if n < 52 then 'a' + (n - 26) as char
    else if n < 62 then '0' + (n - 52) as char
    else if n == 62 then '-'
    else '_'
  }

  function Value(c: char): Option<sextet> {
    if 'A' <= c <= 'Z' then Some(c as int - 'A' as int)
    else if 'a' <= c <= 'z' then Some(c as int - 'a' as int + 26)
    else if '0' <= c <= '9' then Some(c as int - '0' as int + 52)
    else if c == '-' then Some(62)
    else if c == '_' then Some(63)
    else None
  }

  function Letters(s: seq<sextet>): string { if s == [] then "" else [Letter(s[0])] + Letters(s[1..]) }

  function Values(text: string): Option<seq<sextet>> {
    if text == "" then Some([])
    else match Value(text[0])
      case None => None
      case Some(v) =>
        match Values(text[1..])
        case None => None
        case Some(rest) => Some([v] + rest)
  }

  /** The alphabet of RFC 4648, section 5: A to Z, a to z, 0 to 9, the hyphen and the underscore. */
  lemma AlphabetIs(n: sextet)
    ensures Letter(n) as int ==
              if n < 26 then 'A' as int + n else if n < 52 then 'a' as int + n - 26 else if n < 62 then '0' as int + n - 52
              else if n == 62 then '-' as int else '_' as int
  {
  }

  lemma ValueOfLetter(n: sextet)
    ensures Value(Letter(n)) == Some(n)
  {
  }

  lemma {:induction false} ValuesOfLetters(s: seq<sextet>)
    ensures Values(Letters(s)) == Some(s)
  {
    if s != [] {
      ValuesOfLetters(s[1..]);
      ValueOfLetter(s[0]);
      assert s == [s[0]] + s[1..];
      assert Letters(s)[1..] == Letters(s[1..]);
    }
  }

  // ---------------------------------------------------------------- 8 bits against 6

  function Split1(x: byte): sextet { x / 4 }
  function Split2(x: byte, y: byte): sextet { x % 4 * 16 + y / 16 }
  function Split3(y: byte, z: byte): sextet { y % 16 * 4 + z / 64 }
  function Split4(z: byte): sextet { z % 64 }

  function Join1(a: sextet, b: sextet): byte { a * 4 + b / 16 }
  function Join2(b: sextet, c: sextet): byte { b % 16 * 16 + c / 4 }
  function Join3(c: sextet, d: sextet): byte { c % 4 * 64 + d }

  lemma JoinSplit(x: byte, y: byte, z: byte)
    ensures Join1(Split1(x), Split2(x, y)) == x
    ensures Join2(Split2(x, y), Split3(y, z)) == y
    ensures Join3(Split3(y, z), Split4(z)) == z
  {
  }

  function ToSextets(bytes: seq<byte>): seq<sextet> {
    if |bytes| == 0 then []
    else if |bytes| == 1 then [Split1(bytes[0]), Split2(bytes[0], 0)]
    else if |bytes| == 2 then [Split1(bytes[0]), Split2(bytes[0], bytes[1]), Split3(bytes[1], 0)]
    else [Split1(bytes[0]), Split2(bytes[0], bytes[1]), Split3(bytes[1], bytes[2]), Split4(bytes[2])] + ToSextets(bytes[3..])
  }

  /** A single left-over letter cannot be padded to a group. */
  function FromSextets(s: seq<sextet>): Option<seq<byte>> {
    if |s| == 0 then Some([])
    else if |s| == 1 then None
    else if |s| == 2 then Some([Join1(s[0], s[1])])
    else if |s| == 3 then Some([Join1(s[0], s[1]), Join2(s[1], s[2])])
    else match FromSextets(s[4..])
      case None => None
      case Some(rest) => Some([Join1(s[0], s[1]), Join2(s[1], s[2]), Join3(s[2], s[3])] + rest)
  }

  lemma FromGroup(a: sextet, b: sextet, c: sextet, d: sextet, rest: seq<sextet>)
    ensures FromSextets([a, b, c, d] + rest) ==
              if FromSextets(rest).None? then None else Some([Join1(a, b), Join2(b, c), Join3(c, d)] + FromSextets(rest).value)
  {
    assert ([a, b, c, d] + rest)[4..] == rest;
  }

  lemma FromPair(a: sextet, b: sextet)
    ensures FromSextets([a, b]) == Some([Join1(a, b)])
  {
  }

  lemma TailOfOne(x: byte)
    ensures FromSextets(ToSextets([x])) == Some([x])
  {
    FromPair(Split1(x), Split2(x, 0));
    JoinSplit(x, 0, 0);
  }

  lemma TailOfTwo(x: byte, y: byte)
    ensures FromSextets(ToSextets([x, y])) == Some([x, y])
  {
    JoinSplit(x, y, 0);
  }

  lemma {:induction false} FromToSextets(bytes: seq<byte>)
    ensures FromSextets(ToSextets(bytes)) == Some(bytes)
  {
    if |bytes| == 1 {
      TailOfOne(bytes[0]);
      assert bytes == [bytes[0]];
    } else if |bytes| == 2 {
      TailOfTwo(bytes[0], bytes[1]);
      assert bytes == [bytes[0], bytes[1]];
    } else if |bytes| >= 3 {
      FromToSextets(bytes[3..]);
      FromThree(bytes);
    }
  }

  lemma FromThree(bytes: seq<byte>)
    requires |bytes| >= 3 && FromSextets(ToSextets(bytes[3..])) == Some(bytes[3..])
    ensures FromSextets(ToSextets(bytes)) == Some(bytes)
  {
    var x, y, z := bytes[0], bytes[1], bytes[2];
    JoinSplit(x, y, z);
    FromGroup(Split1(x), Split2(x, y), Split3(y, z), Split4(z), ToSextets(bytes[3..]));
    assert bytes == [x, y, z] + bytes[3..];
  }

  /** `urlsafe_b64encode(...).rstrip("=")`. */
  function Encode(bytes: seq<byte>): string { Letters(ToSextets(bytes)) }

  /** `urlsafe_b64decode` of the text with its padding restored; None is a decoding error. */
  function Decode(text: string): Option<seq<byte>> {
    match Values(text)
    case None => None
    case Some(s) => FromSextets(s)
  }

  lemma DecodeEncode(bytes: seq<byte>)
    ensures Decode(Encode(bytes)) == Some(bytes)
  {
    ValuesOfLetters(ToSextets(bytes));
    FromToSextets(bytes);
  }

  /** An opening brace always encodes to the letter e. */
  lemma BraceIsE(bytes: seq<byte>)
    requires |bytes| > 0 && bytes[0] == '{' as int
    ensures Encode(bytes) != "" && Encode(bytes)[0] == 'e'
  {
    assert Split1(bytes[0]) == 30;
  }
}
