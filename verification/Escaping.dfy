/** Percent-encoding of a path segment: RFC 3986, sections 2.1 and 3.3, as Go's url.PathEscape does it. */
module Escaping {
  import opened Prelude

  newtype byte = x: int | 0 <= x < 256

  // ------------------------------------------------------------------- UTF-8

  function EncodeChar(c: char): seq<byte> {
    var v := c as int;
    if v < 0x80 then [v as byte]
    else if v < 0x800 then [(0xC0 + v / 64) as byte, (0x80 + v % 64) as byte]
    else if v < 0x10000 then
      [(0xE0 + v / 4096) as byte, (0x80 + v / 64 % 64) as byte, (0x80 + v % 64) as byte]
    else
      [ (0xF0 + v / 262144) as byte, (0x80 + v / 4096 % 64) as byte, (0x80 + v / 64 % 64) as byte,
        (0x80 + v % 64) as byte ]
  }

  function Encode(s: string): seq<byte> {
    if s == "" then [] else EncodeChar(s[0]) + Encode(s[1..])
  }

  /** How many bytes the character that starts with b takes; 0 when none does. */
  function Width(b: byte): nat {
    if b < 0x80 then 1
    else if b < 0xC0 then 0
    else if b < 0xE0 then 2
    else if b < 0xF0 then 3
    else if b < 0xF8 then 4
    else 0
  }

  function Value(bytes: seq<byte>): int
    requires bytes != [] && |bytes| == Width(bytes[0])
  {
    match |bytes|
    case 1 => bytes[0] as int
    case 2 => (bytes[0] as int - 0xC0) * 64 + (bytes[1] as int - 0x80)
    case 3 => (bytes[0] as int - 0xE0) * 4096 + (bytes[1] as int - 0x80) * 64 + (bytes[2] as int - 0x80)
    case _ =>
      (bytes[0] as int - 0xF0) * 262144 + (bytes[1] as int - 0x80) * 4096
      + (bytes[2] as int - 0x80) * 64 + (bytes[3] as int - 0x80)
  }

  predicate IsScalar(v: int) {
    0 <= v < 0xD800 || 0xE000 <= v < 0x110000
  }

  function Decode(bytes: seq<byte>): Option<string> {
    if bytes == [] then Some("")
    else
      var n := Width(bytes[0]);
      if n == 0 || |bytes| < n || !IsScalar(Value(bytes[..n])) then None
      else
        match Decode(bytes[n..])
        case None => None
        case Some(rest) => Some([Value(bytes[..n]) as char] + rest)
  }

  /** A number is its digits to the base 64. */
  lemma {:induction false} Base64(v: nat)
    ensures v == v / 64 * 64 + v % 64
    ensures v / 64 == v / 4096 * 64 + v / 64 % 64
    ensures v / 4096 == v / 262144 * 64 + v / 4096 % 64
  {
  }

  lemma {:induction false} CharRoundTrip(c: char)
    ensures
      var bytes := EncodeChar(c);
      && bytes != [] && Width(bytes[0]) == |bytes|
      && Value(bytes) == c as int
  {
    var v := c as int;
    Base64(v);
    if v < 0x80 {
    } else if v < 0x800 {
    } else if v < 0x10000 {
      assert v == v / 4096 * 4096 + v / 64 % 64 * 64 + v % 64;
    } else {
      assert v == v / 262144 * 262144 + v / 4096 % 64 * 4096 + v / 64 % 64 * 64 + v % 64;
    }
  }

  lemma {:induction false} DecodeEncode(s: string)
    ensures Decode(Encode(s)) == Some(s)
  {
    if s != "" {
      var bytes := EncodeChar(s[0]);
      CharRoundTrip(s[0]);
      DecodeEncode(s[1..]);
      var all := bytes + Encode(s[1..]);
      assert all[..|bytes|] == bytes && all[|bytes|..] == Encode(s[1..]);
      assert s == [s[0]] + s[1..];
      hide EncodeChar, Value, Width;
    }
  }

  // --------------------------------------------------------- percent-encoding

  /** What stands for itself in a segment: unreserved characters, and `$ & + = : @`. */
  predicate Plain(b: byte) {
    var c := b as char;
    || 'a' <= c <= 'z' || 'A' <= c <= 'Z' || '0' <= c <= '9'
    || c == '-' || c == '_' || c == '.' || c == '~'
    || c == '$' || c == '&' || c == '+' || c == '=' || c == ':' || c == '@'
  }

  function HexDigit(n: int): char
    requires 0 <= n < 16
  {
    if n < 10 then ('0' as int + n) as char else ('A' as int + n - 10) as char
  }

  function HexValue(c: char): Option<int> {
    if '0' <= c <= '9' then Some(c as int - '0' as int)
    else if 'A' <= c <= 'F' then Some(c as int - 'A' as int + 10)
    else if 'a' <= c <= 'f' then Some(c as int - 'a' as int + 10)
    else None
  }

  function EscapeByte(b: byte): string {
    if Plain(b) then [b as char] else ['%', HexDigit(b as int / 16), HexDigit(b as int % 16)]
  }

  function Escape(bytes: seq<byte>): string {
    if bytes == [] then "" else EscapeByte(bytes[0]) + Escape(bytes[1..])
  }

  function PathEscape(s: string): string {
    Escape(Encode(s))
  }

  function Unescape(t: string): Option<seq<byte>> {
    if t == "" then Some([])
    else if t[0] == '%' then
      if |t| < 3 || HexValue(t[1]).None? || HexValue(t[2]).None? then None
      else
        match Unescape(t[3..])
        case None => None
        case Some(rest) => Some([(HexValue(t[1]).value * 16 + HexValue(t[2]).value) as byte] + rest)
    else
      match Unescape(t[1..])
      case None => None
      case Some(rest) => Some(EncodeChar(t[0]) + rest)
  }

  /** Reading a segment back. */
  function ReadSegment(t: string): Option<string> {
    var bytes := Unescape(t);
    if bytes.None? then None else Decode(bytes.value)
  }

  lemma {:induction false} UnescapeByte(b: byte, rest: string)
    ensures
      Unescape(EscapeByte(b) + rest) ==
      match Unescape(rest)
      case None => None
      case Some(more) => Some([b] + more)
  {
    var t := EscapeByte(b) + rest;
    if Plain(b) {
      assert t[1..] == rest;
      assert EncodeChar(t[0]) == [b];
    } else {
      assert t[3..] == rest;
      assert HexValue(t[1]) == Some(b as int / 16) && HexValue(t[2]) == Some(b as int % 16);
    }
  }

  lemma {:induction false} UnescapeEscape(bytes: seq<byte>)
    ensures Unescape(Escape(bytes)) == Some(bytes)
  {
    if bytes != [] {
      UnescapeByte(bytes[0], Escape(bytes[1..]));
      UnescapeEscape(bytes[1..]);
      assert bytes == [bytes[0]] + bytes[1..];
    }
  }

  /** Every value, whatever characters it holds, can be read back from its segment. */
  lemma {:induction false} SegmentRoundTrip(s: string)
    ensures ReadSegment(PathEscape(s)) == Some(s)
  {
    UnescapeEscape(Encode(s));
    DecodeEncode(s);
  }

  /** segment = *pchar, with pchar = unreserved / pct-encoded / sub-delims / ":" / "@". */
  predicate IsSegment(t: string) {
    if t == "" then true
    else if t[0] == '%' then |t| >= 3 && HexValue(t[1]).Some? && HexValue(t[2]).Some? && IsSegment(t[3..])
    else (t[0] as int < 128 && (Plain(t[0] as byte) || t[0] in "!'()*,;")) && IsSegment(t[1..])
  }

  lemma {:induction false} SegmentByte(b: byte, rest: string)
    requires IsSegment(rest)
    ensures IsSegment(EscapeByte(b) + rest) && '/' !in EscapeByte(b)
  {
    var t := EscapeByte(b) + rest;
    if Plain(b) {
      assert t[1..] == rest;
    } else {
      assert t[3..] == rest;
    }
  }

  lemma {:induction false} EscapedBytes(bytes: seq<byte>)
    ensures IsSegment(Escape(bytes)) && '/' !in Escape(bytes)
    ensures Escape(bytes) == "" <==> bytes == []
  {
    if bytes != [] {
      EscapedBytes(bytes[1..]);
      SegmentByte(bytes[0], Escape(bytes[1..]));
    }
  }

  /** An escaped value is one segment: it holds no separator, and is empty only for the empty value. */
  lemma {:induction false} EscapedIsOneSegment(s: string)
    ensures IsSegment(PathEscape(s)) && '/' !in PathEscape(s)
    ensures PathEscape(s) == "" <==> s == ""
  {
    EscapedBytes(Encode(s));
    if s != "" {
      CharRoundTrip(s[0]);
    }
  }

  const LOWER := "abcdefghijklmnopqrstuvwxyz"
  const UPPER := "ABCDEFGHIJKLMNOPQRSTUVWXYZ"
  const DIGITS_AND_SIGNS := "0123456789-_.~$&+=:@"

  lemma {:induction false} LettersAre(c: char)
    ensures c in LOWER <==> 'a' <= c <= 'z'
    ensures c in UPPER <==> 'A' <= c <= 'Z'
  {
  }

  lemma {:induction false} SignsAre(c: char)
    ensures c in DIGITS_AND_SIGNS <==>
              || '0' <= c <= '9' || c == '-' || c == '_' || c == '.' || c == '~'
              || c == '$' || c == '&' || c == '+' || c == '=' || c == ':' || c == '@'
  {
  }

  lemma {:induction false} KeptIffPlain(b: byte)
    ensures Plain(b) <==> b as char in LOWER || b as char in UPPER || b as char in DIGITS_AND_SIGNS
  {
    LettersAre(b as char);
    SignsAre(b as char);
    hide LOWER, UPPER, DIGITS_AND_SIGNS;
  }

  /** Which bytes of a value are kept, and how the others are written: a percent sign and two upper-case digits. */
  lemma {:induction false} EscapesOnly(b: byte)
    ensures b as char in LOWER + UPPER + DIGITS_AND_SIGNS ==> EscapeByte(b) == [b as char]
    ensures b as char !in LOWER + UPPER + DIGITS_AND_SIGNS ==>
              EscapeByte(b) == ['%', "0123456789ABCDEF"[b as int / 16], "0123456789ABCDEF"[b as int % 16]]
  {
    KeptIffPlain(b);
    assert b as char in LOWER + UPPER + DIGITS_AND_SIGNS <==>
             b as char in LOWER || b as char in UPPER || b as char in DIGITS_AND_SIGNS;
    DigitIs(b as int / 16);
    DigitIs(b as int % 16);
    hide LOWER, UPPER, DIGITS_AND_SIGNS, Plain, HexDigit;
  }

  lemma {:induction false} DigitIs(n: int)
    requires 0 <= n < 16
    ensures HexDigit(n) == "0123456789ABCDEF"[n]
  {
  }

  /** A segment is its bytes, one after the other; the bytes of a character are its UTF-8. */
  lemma {:induction false} EscapedInOrder(a: seq<byte>, b: byte, c: seq<byte>)
    ensures Escape(a + [b] + c) == Escape(a) + EscapeByte(b) + Escape(c)
  {
    if a == [] {
      assert ([] + [b] + c)[1..] == c;
    } else {
      assert (a + [b] + c)[1..] == a[1..] + [b] + c;
      EscapedInOrder(a[1..], b, c);
    }
    hide EscapeByte;
  }
}
