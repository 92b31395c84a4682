/**
 `urllib.parse.quote_plus` with its defaults (safe = '', UTF-8): the string is
 encoded as UTF-8, every byte that is an unreserved character in the sense of
 section 2.3 of RFC 3986 is kept, a space becomes '+', and every other byte
 becomes '%' followed by two upper-case hexadecimal digits (section 2.1 of
 RFC 3986). `UnquotePlus` is a strict decoder written as its inverse.
 */
module UrlQuote {
  import opened Wrappers

  newtype byte = x: int | 0 <= x < 256

  /** ALPHA / DIGIT / "-" / "." / "_" / "~" (section 2.3 of RFC 3986). */
  predicate IsUnreserved(n: int) {
    || ('A' as int <= n <= 'Z' as int)
    || ('a' as int <= n <= 'z' as int)
    || ('0' as int <= n <= '9' as int)
    || n == '-' as int || n == '.' as int || n == '_' as int || n == '~' as int
  }

  /** Unicode scalar values: the code points a `char` can hold. */
  predicate IsScalar(n: int) {
    (0 <= n < 0xD800) || (0xE000 <= n < 0x11_0000)
  }

  // ----- UTF-8 -----

  function EncodeChar(c: char): (bs: seq<byte>)
    ensures 1 <= |bs| <= 4
  {
    var n := c as int;
    if n < 0x80 then [n as byte]
    else if n < 0x800 then [(0xC0 + n / 64) as byte, (0x80 + n % 64) as byte]
    else if n < 0x1_0000 then
      [(0xE0 + n / 4096) as byte, (0x80 + (n / 64) % 64) as byte, (0x80 + n % 64) as byte]
    else
      [(0xF0 + n / 262144) as byte, (0x80 + (n / 4096) % 64) as byte,
       (0x80 + (n / 64) % 64) as byte, (0x80 + n % 64) as byte]
  }

  function Utf8Encode(s: string): seq<byte>
  {
    if s == [] then [] else EncodeChar(s[0]) + Utf8Encode(s[1..])
  }

  /** The length of the sequence a lead byte announces; 0 for a byte that cannot lead. */
  function SequenceLength(b: byte): nat
  {
    if b < 0x80 then 1
    else if 0xC0 <= b < 0xE0 then 2
    else if 0xE0 <= b < 0xF0 then 3
    else if 0xF0 <= b < 0xF8 then 4
    else 0
  }

  predicate IsContinuation(b: byte) {
    0x80 <= b < 0xC0
  }

  /** The code point carried by a lead byte and its continuation bytes. */
  function CodePoint(bs: seq<byte>): int
    requires 1 <= |bs| <= 4
  {
    var b0 := bs[0] as int;
    if |bs| == 1 then b0
    else if |bs| == 2 then (b0 - 0xC0) * 64 + (bs[1] as int - 0x80)
    else if |bs| == 3 then (b0 - 0xE0) * 4096 + (bs[1] as int - 0x80) * 64 + (bs[2] as int - 0x80)
    else (b0 - 0xF0) * 262144 + (bs[1] as int - 0x80) * 4096 + (bs[2] as int - 0x80) * 64 + (bs[3] as int - 0x80)
  }

  function Utf8Decode(bs: seq<byte>): Option<string>
    decreases |bs|
  {
    if bs == [] then Some([])
    else
      var len := SequenceLength(bs[0]);
      if len == 0 || |bs| < len then None
      else if exists k :: 1 <= k < len && !IsContinuation(bs[k]) then None
      else
        var n := CodePoint(bs[..len]);
        if !IsScalar(n) then None
        else match Utf8Decode(bs[len..])
          case None => None
          case Some(rest) => Some([n as char] + rest)
  }

  /** The two-byte form of a code point below 0x800 decodes to it. */
  lemma TwoByteDecodes(n: int)
    requires 0x80 <= n < 0x800
    ensures var bs := [(0xC0 + n / 64) as byte, (0x80 + n % 64) as byte];
      SequenceLength(bs[0]) == 2 && IsContinuation(bs[1]) && CodePoint(bs) == n
  {
    assert n == (n / 64) * 64 + n % 64;
  }

  /** The three-byte form of a code point below 0x10000 decodes to it. */
  lemma ThreeByteDecodes(n: int)
    requires 0x800 <= n < 0x1_0000
    ensures var bs := [(0xE0 + n / 4096) as byte, (0x80 + (n / 64) % 64) as byte, (0x80 + n % 64) as byte];
      SequenceLength(bs[0]) == 3 && IsContinuation(bs[1]) && IsContinuation(bs[2]) && CodePoint(bs) == n
  {
    assert n / 64 == (n / 4096) * 64 + (n / 64) % 64;
    assert n == (n / 64) * 64 + n % 64;
  }

  /** The four-byte form of a code point from 0x10000 on decodes to it. */
  lemma FourByteDecodes(n: int)
    requires 0x1_0000 <= n < 0x11_0000
    ensures var bs := [(0xF0 + n / 262144) as byte, (0x80 + (n / 4096) % 64) as byte,
                       (0x80 + (n / 64) % 64) as byte, (0x80 + n % 64) as byte];
      && SequenceLength(bs[0]) == 4 && IsContinuation(bs[1]) && IsContinuation(bs[2]) && IsContinuation(bs[3])
      && CodePoint(bs) == n
  {
    assert n / 4096 == (n / 262144) * 64 + (n / 4096) % 64;
    assert n / 64 == (n / 4096) * 64 + (n / 64) % 64;
    assert n == (n / 64) * 64 + n % 64;
  }

  lemma EncodeCharDecodes(c: char)
    ensures var bs := EncodeChar(c);
      && SequenceLength(bs[0]) == |bs|
      && (forall k :: 1 <= k < |bs| ==> IsContinuation(bs[k]))
      && CodePoint(bs) == c as int
  {
    var n := c as int;
    if n < 0x80 {
    } else if n < 0x800 {
      TwoByteDecodes(n);
    } else if n < 0x1_0000 {
      ThreeByteDecodes(n);
    } else {
      FourByteDecodes(n);
    }
  }

  lemma DecodeEncodedChar(c: char, rest: seq<byte>)
    ensures Utf8Decode(EncodeChar(c) + rest) ==
      match Utf8Decode(rest)
      case None => None
      case Some(tail) => Some([c] + tail)
  {
    var bs := EncodeChar(c);
    var all := bs + rest;
    EncodeCharDecodes(c);
    assert all[0] == bs[0];
    assert all[..|bs|] == bs;
    assert all[|bs|..] == rest;
    assert forall k :: 1 <= k < |bs| ==> all[k] == bs[k];
  }

  /** Decoding the UTF-8 encoding gives the string back. */
  lemma {:induction false} Utf8RoundTrip(s: string)
    ensures Utf8Decode(Utf8Encode(s)) == Some(s)
  {
    if s != [] {
      Utf8RoundTrip(s[1..]);
      DecodeEncodedChar(s[0], Utf8Encode(s[1..]));
      assert [s[0]] + s[1..] == s;
    }
  }

  lemma {:induction false} Utf8EncodeConcat(a: string, b: string)
    ensures Utf8Encode(a + b) == Utf8Encode(a) + Utf8Encode(b)
  {
    if a != [] {
      assert (a + b)[0] == a[0] && (a + b)[1..] == a[1..] + b;
      Utf8EncodeConcat(a[1..], b);
    } else {
      assert a + b == b;
    }
  }

  // ----- percent-encoding -----

  function HexDigit(d: int): (c: char)
    requires 0 <= d < 16
    ensures IsUnreserved(c as int)
  {
    if d < 10 then ('0' as int + d) as char else ('A' as int + d - 10) as char
  }

  predicate IsHexDigit(c: char) {
    ('0' <= c <= '9') || ('A' <= c <= 'F')
  }

  function HexValue(c: char): (d: int)
    requires IsHexDigit(c)
    ensures 0 <= d < 16 && HexDigit(d) == c
  {
    if c <= '9' then c as int - '0' as int else c as int - 'A' as int + 10
  }

  /** The text one byte becomes. */
  function EncodeByte(b: byte): (t: string)
    ensures 1 <= |t| <= 3
  {
    if IsUnreserved(b as int) then [b as int as char]
    else if b == 32 then ['+']
    else ['%', HexDigit(b as int / 16), HexDigit(b as int % 16)]
  }

  function PercentEncode(bs: seq<byte>): string
  {
    if bs == [] then [] else EncodeByte(bs[0]) + PercentEncode(bs[1..])
  }

  function Prepend(b: byte, rest: Option<seq<byte>>): Option<seq<byte>>
  {
    match rest
    case None => None
    case Some(tail) => Some([b] + tail)
  }

  function PercentDecode(t: string): Option<seq<byte>>
    decreases |t|
  {
    if t == [] then Some([])
    else if t[0] == '%' then
      if |t| >= 3 && IsHexDigit(t[1]) && IsHexDigit(t[2])
      then Prepend((HexValue(t[1]) * 16 + HexValue(t[2])) as byte, PercentDecode(t[3..]))
      else None
    else if t[0] == '+' then Prepend(32, PercentDecode(t[1..]))
    else if IsUnreserved(t[0] as int) then Prepend(t[0] as int as byte, PercentDecode(t[1..]))
    else None
  }

  lemma DecodeEncodedByte(b: byte, rest: string)
    ensures PercentDecode(EncodeByte(b) + rest) == Prepend(b, PercentDecode(rest))
  {
    var t := EncodeByte(b) + rest;
    if IsUnreserved(b as int) {
      assert t[0] == b as int as char && t[1..] == rest;
    } else if b == 32 {
      assert t[0] == '+' && t[1..] == rest;
    } else {
      var hi, lo := b as int / 16, b as int % 16;
      assert t[0] == '%' && t[1] == HexDigit(hi) && t[2] == HexDigit(lo) && t[3..] == rest;
      HexDigitValue(hi);
      HexDigitValue(lo);
    }
  }

  lemma HexDigitValue(d: int)
    requires 0 <= d < 16
    ensures IsHexDigit(HexDigit(d)) && HexValue(HexDigit(d)) == d
  {
  }

  lemma {:induction false} PercentRoundTrip(bs: seq<byte>)
    ensures PercentDecode(PercentEncode(bs)) == Some(bs)
  {
    if bs != [] {
      PercentRoundTrip(bs[1..]);
      DecodeEncodedByte(bs[0], PercentEncode(bs[1..]));
      assert [bs[0]] + bs[1..] == bs;
    }
  }

  lemma {:induction false} PercentEncodeConcat(a: seq<byte>, b: seq<byte>)
    ensures PercentEncode(a + b) == PercentEncode(a) + PercentEncode(b)
  {
    if a != [] {
      assert (a + b)[0] == a[0] && (a + b)[1..] == a[1..] + b;
      PercentEncodeConcat(a[1..], b);
    } else {
      assert a + b == b;
    }
  }

  // ----- quote_plus -----

  function QuotePlus(s: string): string
  {
    PercentEncode(Utf8Encode(s))
  }

  /** The reference inverse of `QuotePlus`. */
  function UnquotePlus(t: string): Option<string>
  {
    match PercentDecode(t)
    case None => None
    case Some(bs) => Utf8Decode(bs)
  }

  /** Every string is recovered from its quoted form. */
  lemma QuotePlusRoundTrip(s: string)
    ensures UnquotePlus(QuotePlus(s)) == Some(s)
  {
    PercentRoundTrip(Utf8Encode(s));
    Utf8RoundTrip(s);
  }

  /** Distinct strings are quoted differently. */
  lemma QuotePlusInjective(s: string, s': string)
    requires QuotePlus(s) == QuotePlus(s')
    ensures s == s'
  {
    QuotePlusRoundTrip(s);
    QuotePlusRoundTrip(s');
  }

  /** Quoting works character by character. */
  lemma QuotePlusConcat(a: string, b: string)
    ensures QuotePlus(a + b) == QuotePlus(a) + QuotePlus(b)
  {
    Utf8EncodeConcat(a, b);
    PercentEncodeConcat(Utf8Encode(a), Utf8Encode(b));
  }

  /** A space becomes '+' and an unreserved ASCII character stands for itself. */
  lemma QuotePlusOneChar(c: char)
    ensures c == ' ' ==> QuotePlus([c]) == "+"
    ensures IsUnreserved(c as int) ==> QuotePlus([c]) == [c]
  {
    assert Utf8Encode([c]) == EncodeChar(c) + Utf8Encode([]);
    if c as int < 0x80 {
      assert PercentEncode(EncodeChar(c)) == EncodeByte(c as int as byte) + PercentEncode([]);
    }
  }

  /** The characters that can appear in a quoted string. */
  predicate IsQuotedChar(c: char) {
    IsUnreserved(c as int) || c == '+' || c == '%'
  }

  lemma {:induction false} PercentEncodeChars(bs: seq<byte>)
    ensures forall k :: 0 <= k < |PercentEncode(bs)| ==> IsQuotedChar(PercentEncode(bs)[k])
  {
    if bs != [] {
      PercentEncodeChars(bs[1..]);
      var head, tail := EncodeByte(bs[0]), PercentEncode(bs[1..]);
      assert forall k :: 0 <= k < |head| ==> IsQuotedChar(head[k]);
      assert forall k :: 0 <= k < |head + tail| ==>
        (head + tail)[k] == if k < |head| then head[k] else tail[k - |head|];
    }
  }

  /**
   A quoted string holds no character with a meaning inside a query string
   (no space, '&', '=', '#' or '?'), so it stays one parameter value.
   */
  lemma QuotePlusIsQueryValue(s: string)
    ensures forall k :: 0 <= k < |QuotePlus(s)| ==> IsQuotedChar(QuotePlus(s)[k])
  {
    PercentEncodeChars(Utf8Encode(s));
  }
}
