/**
 * Byte-level encodings on the request path: UTF-8 (Python's
 * `bytes(s, 'utf-8')`), Base64 with the standard alphabet and padding
 * (section 4 of RFC 4648, Python's `b64encode`), and the percent-encoding of
 * path segments done by `urllib.parse.quote` and `quote_plus`.
 */
module Encoding {
  import opened Wrappers

  type byte = b: int | 0 <= b < 256

  // ---------------------------------------------------------------- UTF-8

  /** The UTF-8 encoding of one Unicode scalar value. */
  function Utf8Char(c: char): (bs: seq<byte>)
    ensures 1 <= |bs| <= 4
    ensures (c as int < 0x80) <==> |bs| == 1
  {
    var cp := c as int;
    if cp < 0x80 then [cp]
    else if cp < 0x800 then [0xC0 + cp / 64, 0x80 + cp % 64]
    else if cp < 0x1_0000 then [0xE0 + cp / 4096, 0x80 + (cp / 64) % 64, 0x80 + cp % 64]
    else [0xF0 + cp / 262144, 0x80 + (cp / 4096) % 64, 0x80 + (cp / 64) % 64, 0x80 + cp % 64]
  }

  /** Python's `bytes(s, 'utf-8')`. */
  function Utf8(s: string): (bs: seq<byte>)
    ensures |s| <= |bs| <= 4 * |s|
  {
    if |s| == 0 then [] else Utf8Char(s[0]) + Utf8(s[1..])
  }

  /** How many bytes the sequence that starts with `lead` has (0 for a byte that cannot start one). */
  function Utf8Length(lead: byte): nat {
    if lead < 0x80 then 1
    else if lead < 0xC0 then 0
    else if lead < 0xE0 then 2
    else if lead < 0xF0 then 3
    else if lead < 0xF8 then 4
    else 0
  }

  function ScalarToChar(cp: int): Option<char> {
    if 0 <= cp < 0xD800 || 0xE000 <= cp < 0x11_0000 then Some(cp as char) else None
  }

  /** Decodes one UTF-8 sequence whose length its lead byte announces. */
  function Utf8DecodeChar(bs: seq<byte>): Option<char>
    requires |bs| > 0 && |bs| == Utf8Length(bs[0])
  {
    if |bs| == 1 then ScalarToChar(bs[0])
    else if exists i :: 1 <= i < |bs| && !(0x80 <= bs[i] < 0xC0) then None
    else
      var b0, b1, b2 := bs[0] as int, bs[1] as int, if |bs| > 2 then bs[2] as int else 0x80;
      if |bs| == 2 then ScalarToChar((b0 - 0xC0) * 64 + (b1 - 0x80))
      else if |bs| == 3 then ScalarToChar((b0 - 0xE0) * 4096 + (b1 - 0x80) * 64 + (b2 - 0x80))
      else ScalarToChar((b0 - 0xF0) * 262144 + (b1 - 0x80) * 4096 + (b2 - 0x80) * 64 + (bs[3] as int - 0x80))
  }

  /** Python's `bs.decode('utf-8')`, `None` where Python raises. */
  function Utf8Decode(bs: seq<byte>): Option<string>
    decreases |bs|
  {
    if |bs| == 0 then Some([])
    else
      var n := Utf8Length(bs[0]);
      if n == 0 || n > |bs| then None
      else
        var c :- Utf8DecodeChar(bs[..n]);
        var rest :- Utf8Decode(bs[n..]);
        Some([c] + rest)
  }

  lemma Split64(x: nat)
    ensures x / 64 / 64 == x / 4096
    ensures x / 64 % 64 * 64 + x % 64 == x % 4096
  {
    var q, r := x / 4096, x % 4096;
    assert x == 4096 * q + r;
    assert x == 64 * (64 * q + r / 64) + r % 64;
    assert x / 64 == 64 * q + r / 64;
  }

  lemma Split4096(x: nat)
    ensures x / 4096 / 64 == x / 262144
    ensures x / 4096 % 64 * 4096 + x % 4096 == x % 262144
  {
    var q, r := x / 262144, x % 262144;
    assert x == 262144 * q + r;
    assert x == 4096 * (64 * q + r / 4096) + r % 4096;
    assert x / 4096 == 64 * q + r / 4096;
  }

  lemma {:induction false} Utf8DecodeEncodeChar(c: char)
    ensures |Utf8Char(c)| == Utf8Length(Utf8Char(c)[0])
    ensures Utf8DecodeChar(Utf8Char(c)) == Some(c)
  {
    var cp := c as int;
    if 0x80 <= cp < 0x800 {
      assert (cp / 64) * 64 + cp % 64 == cp;
    } else if 0x800 <= cp < 0x1_0000 {
      Split64(cp);
      assert cp == (cp / 4096) * 4096 + (cp / 64 % 64) * 64 + cp % 64;
    } else if cp >= 0x1_0000 {
      Split64(cp);
      Split4096(cp);
      assert cp % 4096 == (cp / 64 % 64) * 64 + cp % 64;
      assert cp % 262144 == (cp / 4096 % 64) * 4096 + cp % 4096;
      assert cp == (cp / 262144) * 262144 + (cp / 4096 % 64) * 4096 + (cp / 64 % 64) * 64 + cp % 64;
    }
  }

  /** Decoding the UTF-8 bytes of a string gives the string back. */
  lemma {:induction false} Utf8RoundTrip(s: string)
    ensures Utf8Decode(Utf8(s)) == Some(s)
  {
    if |s| > 0 {
      var head := Utf8Char(s[0]);
      var bs := Utf8(s);
      Utf8DecodeEncodeChar(s[0]);
      Utf8RoundTrip(s[1..]);
      assert bs[..|head|] == head;
      assert bs[|head|..] == Utf8(s[1..]);
      assert [s[0]] + s[1..] == s;
    }
  }

  /** An ASCII string encodes to its own character codes, one byte each. */
  lemma {:induction false} Utf8Ascii(s: string)
    requires forall i :: 0 <= i < |s| ==> s[i] as int < 0x80
    ensures |Utf8(s)| == |s|
    ensures forall i :: 0 <= i < |s| ==> Utf8(s)[i] == s[i] as int
  {
    if |s| > 0 {
      Utf8Ascii(s[1..]);
    }
  }

  // ---------------------------------------------------------------- Base64

  /** The character for a 6-bit value in the alphabet of RFC 4648 section 4. */
  function SextetChar(v: int): char
    requires 0 <= v < 64
  {
    if v < 26 then ('A' as int + v) as char
    else if v < 52 then ('a' as int + v - 26) as char
    else if v < 62 then ('0' as int + v - 52) as char
    else if v == 62 then '+'
    else '/'
  }

  /** The 6-bit value of an alphabet character; `None` for padding and every other character. */
  function SextetValue(c: char): (r: Option<int>)
    ensures r.Some? ==> 0 <= r.value < 64 && SextetChar(r.value) == c
  {
    if 'A' <= c <= 'Z' then Some(c as int - 'A' as int)
    else if 'a' <= c <= 'z' then Some(c as int - 'a' as int + 26)
    else if '0' <= c <= '9' then Some(c as int - '0' as int + 52)
    else if c == '+' then Some(62)
    else if c == '/' then Some(63)
    else None
  }

  predicate IsBase64Char(c: char) {
    SextetValue(c).Some? || c == '='
  }

  /** Python's `b64encode`: every three bytes become four characters; a short tail is padded with `=`. */
  function Base64Encode(b: seq<byte>): string
    decreases |b|
  {
    if |b| == 0 then ""
    else if |b| == 1 then
      [SextetChar(b[0] / 4), SextetChar(b[0] % 4 * 16), '=', '=']
    else if |b| == 2 then
      [SextetChar(b[0] / 4), SextetChar(b[0] % 4 * 16 + b[1] / 16), SextetChar(b[1] % 16 * 4), '=']
    else
      [SextetChar(b[0] / 4), SextetChar(b[0] % 4 * 16 + b[1] / 16),
       SextetChar(b[1] % 16 * 4 + b[2] / 64), SextetChar(b[2] % 64)]
      + Base64Encode(b[3..])
  }

  /** Base64 decoding of a padded string; `None` for anything that is not well-formed. */
  function Base64Decode(s: string): Option<seq<byte>>
    decreases |s|
  {
    if |s| == 0 then Some([])
    else if |s| < 4 then None
    else
      var v0 :- SextetValue(s[0]);
      var v1 :- SextetValue(s[1]);
      var b0: byte := v0 * 4 + v1 / 16;
      if |s| == 4 && s[2] == '=' && s[3] == '=' then Some([b0])
      else
        var v2 :- SextetValue(s[2]);
        var b1: byte := v1 % 16 * 16 + v2 / 4;
        if |s| == 4 && s[3] == '=' then Some([b0, b1])
        else
          var v3 :- SextetValue(s[3]);
          var b2: byte := v2 % 4 * 64 + v3;
          var rest :- Base64Decode(s[4..]);
          Some([b0, b1, b2] + rest)
  }

  lemma SextetRoundTrip(v: int)
    requires 0 <= v < 64
    ensures SextetValue(SextetChar(v)) == Some(v)
  {
  }

  lemma ByteSplits(x: byte, y: byte)
    ensures (x % 4 * 16 + y / 16) / 16 == x % 4
    ensures (x % 4 * 16 + y / 16) % 16 == y / 16
    ensures (y % 16 * 4 + x / 64) / 4 == y % 16
    ensures (y % 16 * 4 + x / 64) % 4 == x / 64
    ensures x / 4 * 4 + x % 4 == x
    ensures x / 16 * 16 + x % 16 == x
    ensures x / 64 * 64 + x % 64 == x
  {
  }

  lemma DecodeOneByte(x: byte)
    ensures Base64Decode([SextetChar(x / 4), SextetChar(x % 4 * 16), '=', '=']) == Some([x])
  {
    SextetRoundTrip(x / 4);
    SextetRoundTrip(x % 4 * 16);
  }

  lemma DecodeTwoBytes(x: byte, y: byte)
    ensures Base64Decode([SextetChar(x / 4), SextetChar(x % 4 * 16 + y / 16), SextetChar(y % 16 * 4), '='])
         == Some([x, y])
  {
    var v0, v1, v2 := x / 4, x % 4 * 16 + y / 16, y % 16 * 4;
    SextetRoundTrip(v0);
    SextetRoundTrip(v1);
    SextetRoundTrip(v2);
    ByteSplits(x, y);
    assert v2 / 4 == y % 16;
  }

  lemma DecodeThreeBytes(x: byte, y: byte, z: byte, rest: string)
    ensures Base64Decode([SextetChar(x / 4), SextetChar(x % 4 * 16 + y / 16),
                          SextetChar(y % 16 * 4 + z / 64), SextetChar(z % 64)] + rest)
         == (match Base64Decode(rest) case None => None case Some(tail) => Some([x, y, z] + tail))
  {
    var v0, v1, v2, v3 := x / 4, x % 4 * 16 + y / 16, y % 16 * 4 + z / 64, z % 64;
    var s := [SextetChar(v0), SextetChar(v1), SextetChar(v2), SextetChar(v3)] + rest;
    SextetRoundTrip(v0);
    SextetRoundTrip(v1);
    SextetRoundTrip(v2);
    SextetRoundTrip(v3);
    ByteSplits(x, y);
    ByteSplits(z, y);
    assert s[4..] == rest;
  }

  /** Section 4 of RFC 4648: decoding an encoding gives the bytes back. */
  lemma {:induction false} Base64RoundTrip(b: seq<byte>)
    ensures Base64Decode(Base64Encode(b)) == Some(b)
    decreases |b|
  {
    if |b| == 1 {
      DecodeOneByte(b[0]);
      assert b == [b[0]];
    } else if |b| == 2 {
      DecodeTwoBytes(b[0], b[1]);
      assert b == [b[0], b[1]];
    } else if |b| >= 3 {
      Base64RoundTrip(b[3..]);
      DecodeThreeBytes(b[0], b[1], b[2], Base64Encode(b[3..]));
      assert b == [b[0], b[1], b[2]] + b[3..];
    }
  }

  /** The first quadruple of a full group uses only the alphabet. */
  lemma HeadQuadShape(b: seq<byte>)
    requires |b| >= 3
    ensures forall i :: 0 <= i < 4 ==> IsBase64Char(Base64Encode(b)[i])
  {
    SextetRoundTrip(b[0] / 4);
    SextetRoundTrip(b[0] % 4 * 16 + b[1] / 16);
    SextetRoundTrip(b[1] % 16 * 4 + b[2] / 64);
    SextetRoundTrip(b[2] % 64);
  }

  /** The encoding has the length section 4 of RFC 4648 prescribes and uses only the alphabet and `=`. */
  lemma {:induction false} Base64Shape(b: seq<byte>)
    ensures |Base64Encode(b)| == 4 * ((|b| + 2) / 3)
    ensures forall i :: 0 <= i < |Base64Encode(b)| ==> IsBase64Char(Base64Encode(b)[i])
    decreases |b|
  {
    var s := Base64Encode(b);
    if |b| >= 3 {
      Base64Shape(b[3..]);
      HeadQuadShape(b);
      forall i | 4 <= i < |s| ensures IsBase64Char(s[i]) {
        assert s[i] == Base64Encode(b[3..])[i - 4];
      }
    } else if |b| == 2 {
      SextetRoundTrip(b[0] / 4);
      SextetRoundTrip(b[0] % 4 * 16 + b[1] / 16);
      SextetRoundTrip(b[1] % 16 * 4);
    } else if |b| == 1 {
      SextetRoundTrip(b[0] / 4);
      SextetRoundTrip(b[0] % 4 * 16);
    }
  }

  // ---------------------------------------------------------------- percent-encoding

  /** The characters `urllib.parse.quote` never escapes. */
  predicate Unreserved(c: char) {
    ('A' <= c <= 'Z') || ('a' <= c <= 'z') || ('0' <= c <= '9') || c == '_' || c == '.' || c == '-' || c == '~'
  }

  predicate IsHexDigit(c: char) {
    ('0' <= c <= '9') || ('A' <= c <= 'F')
  }

  function HexDigit(v: int): (c: char)
    requires 0 <= v < 16
    ensures IsHexDigit(c)
  {
    "0123456789ABCDEF"[v]
  }

  /** `%XX` for every byte, upper-case hexadecimal. */
  function PercentEncode(bs: seq<byte>): (r: string)
    ensures |r| == 3 * |bs|
    ensures forall i :: 0 <= i < |r| ==> r[i] == '%' || IsHexDigit(r[i])
  {
    if |bs| == 0 then ""
    else
      var rest := PercentEncode(bs[1..]);
      var r := ['%', HexDigit(bs[0] / 16), HexDigit(bs[0] % 16)] + rest;
      assert forall i :: 3 <= i < |r| ==> r[i] == rest[i - 3];
      r
  }

  function QuoteChar(c: char, safe: set<char>): string {
    if Unreserved(c) || c in safe then [c] else PercentEncode(Utf8Char(c))
  }

  /** `urllib.parse.quote(s, safe)`. */
  function Quote(s: string, safe: set<char>): string {
    if |s| == 0 then "" else QuoteChar(s[0], safe) + Quote(s[1..], safe)
  }

  /** `urllib.parse.quote(s)`: the default `safe` keeps `/`. */
  function QuotePath(s: string): string {
    Quote(s, {'/'})
  }

  /** `urllib.parse.quote_plus(s)`: spaces become `+` and `/` is escaped. */
  function QuotePlus(s: string): string {
    if |s| == 0 then ""
    else (if s[0] == ' ' then "+" else QuoteChar(s[0], {})) + QuotePlus(s[1..])
  }

  /** Quoting leaves a string of unreserved and safe characters unchanged. */
  lemma {:induction false} QuoteIdentity(s: string, safe: set<char>)
    requires forall i :: 0 <= i < |s| ==> Unreserved(s[i]) || s[i] in safe
    ensures Quote(s, safe) == s
  {
    if |s| > 0 {
      QuoteIdentity(s[1..], safe);
      assert [s[0]] + s[1..] == s;
    }
  }

  /** Every character of a quoted string is unreserved, safe, `%` or a hexadecimal digit. */
  lemma {:induction false} QuoteAlphabet(s: string, safe: set<char>)
    ensures forall i :: 0 <= i < |Quote(s, safe)| ==>
      var c := Quote(s, safe)[i]; Unreserved(c) || c in safe || c == '%' || IsHexDigit(c)
  {
    if |s| > 0 {
      QuoteAlphabet(s[1..], safe);
      var head := QuoteChar(s[0], safe);
      var r := Quote(s, safe);
      forall i | |head| <= i < |r|
        ensures Unreserved(r[i]) || r[i] in safe || r[i] == '%' || IsHexDigit(r[i])
      {
        assert r[i] == Quote(s[1..], safe)[i - |head|];
      }
    }
  }

  /** A `quote_plus`-encoded identifier has no `/` and no space: it stays one path segment. */
  lemma {:induction false} QuotePlusOneSegment(s: string)
    ensures '/' !in QuotePlus(s) && ' ' !in QuotePlus(s)
  {
    if |s| > 0 {
      QuotePlusOneSegment(s[1..]);
      var head := if s[0] == ' ' then "+" else QuoteChar(s[0], {});
      assert '/' !in head && ' ' !in head;
    }
  }
}
