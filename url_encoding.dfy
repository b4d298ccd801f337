/**
 * Percent-encoding of a password before it is put into a node URL
 * (`urlencoding::encode`): the UTF-8 bytes of the text, each byte kept when it
 * is an unreserved character of section 2.3 of RFC 3986 (ALPHA, DIGIT, '-',
 * '.', '_', '~') and written as '%' and two upper-case hex digits (section 2.1
 * of RFC 3986) otherwise.
 */
module UrlEncoding {
  import opened Wrappers

  type Byte = b: int | 0 <= b < 256

  predicate IsUnreservedByte(b: int) {
    ('0' as int <= b <= '9' as int) || ('A' as int <= b <= 'Z' as int)
    || ('a' as int <= b <= 'z' as int) || b == '-' as int || b == '.' as int
    || b == '_' as int || b == '~' as int
  }

  predicate IsUnreservedChar(c: char) {
    IsUnreservedByte(c as int)
  }

  predicate IsUpperHex(c: char) {
    ('0' <= c <= '9') || ('A' <= c <= 'F')
  }

  function HexDigit(n: int): (c: char)
    requires 0 <= n < 16
    ensures IsUpperHex(c)
  {
    "0123456789ABCDEF"[n]
  }

  function HexValue(c: char): (n: int)
    requires IsUpperHex(c)
    ensures 0 <= n < 16 && HexDigit(n) == c
  {
    if '0' <= c <= '9' then c as int - '0' as int else c as int - 'A' as int + 10
  }

  /** The UTF-8 encoding of one Unicode scalar value. */
  function Utf8Char(c: char): (bs: seq<Byte>)
    ensures 1 <= |bs| <= 4
  {
    var n := c as int;
    if n < 0x80 then [n]
    else if n < 0x800 then [0xC0 + n / 64, 0x80 + n % 64]
    else if n < 0x10000 then [0xE0 + n / 4096, 0x80 + n / 64 % 64, 0x80 + n % 64]
    else [0xF0 + n / 262144, 0x80 + n / 4096 % 64, 0x80 + n / 64 % 64, 0x80 + n % 64]
  }

  /** `str::as_bytes`. */
  function Utf8(s: string): seq<Byte> {
    if s == [] then [] else Utf8Char(s[0]) + Utf8(s[1..])
  }

  function EncodeByte(b: Byte): (s: string)
    ensures |s| == 1 || |s| == 3
  {
    if IsUnreservedByte(b) then [b as char] else ['%', HexDigit(b / 16), HexDigit(b % 16)]
  }

  function EncodeBytes(bs: seq<Byte>): string {
    if bs == [] then [] else EncodeByte(bs[0]) + EncodeBytes(bs[1..])
  }

  /** `urlencoding::encode`. */
  function Encode(s: string): string {
    EncodeBytes(Utf8(s))
  }

  /** Percent-decoding: the bytes a well-formed encoded string stands for. */
  function DecodeBytes(s: string): Option<seq<Byte>>
    decreases |s|
  {
    if s == [] then Some([])
    else if s[0] == '%' then
      if |s| >= 3 && IsUpperHex(s[1]) && IsUpperHex(s[2]) then
        match DecodeBytes(s[3..])
        case None => None
        case Some(rest) => Some([HexValue(s[1]) * 16 + HexValue(s[2])] + rest)
      else None
    else if IsUnreservedChar(s[0]) then
      match DecodeBytes(s[1..])
      case None => None
      case Some(rest) => Some([s[0] as int] + rest)
    else None
  }

  /** The characters an encoded string may contain. */
  predicate IsEncodedChar(c: char) {
    IsUnreservedChar(c) || c == '%'
  }

  /** Encoding never leaves a delimiter such as ':', '@' or '/' in its output. */
  lemma {:induction false} EncodeBytesSafe(bs: seq<Byte>)
    ensures forall k :: 0 <= k < |EncodeBytes(bs)| ==> IsEncodedChar(EncodeBytes(bs)[k])
    decreases |bs|
  {
    if bs != [] {
      EncodeBytesSafe(bs[1..]);
      var head, tail := EncodeByte(bs[0]), EncodeBytes(bs[1..]);
      assert EncodeBytes(bs) == head + tail;
      forall k | 0 <= k < |head + tail| ensures IsEncodedChar((head + tail)[k]) {
        if k >= |head| {
          assert (head + tail)[k] == tail[k - |head|];
        }
      }
    }
  }

  /** Decoding undoes encoding: the encoded password stands for exactly its UTF-8 bytes. */
  lemma {:induction false} DecodeEncodeBytes(bs: seq<Byte>)
    ensures DecodeBytes(EncodeBytes(bs)) == Some(bs)
    decreases |bs|
  {
    if bs != [] {
      DecodeEncodeBytes(bs[1..]);
      DecodeEncodeByte(bs[0], EncodeBytes(bs[1..]), bs[1..]);
      assert bs == [bs[0]] + bs[1..];
    }
  }

  /** One encoded byte in front of an encoded rest decodes to that byte in front of the rest. */
  lemma DecodeEncodeByte(b: Byte, rest: string, restBytes: seq<Byte>)
    requires DecodeBytes(rest) == Some(restBytes)
    ensures DecodeBytes(EncodeByte(b) + rest) == Some([b] + restBytes)
  {
    if IsUnreservedByte(b) {
      DecodeKeptByte(b, rest, restBytes);
    } else {
      DecodeEscapedByte(b, rest, restBytes);
    }
  }

  lemma DecodeKeptByte(b: Byte, rest: string, restBytes: seq<Byte>)
    requires IsUnreservedByte(b) && DecodeBytes(rest) == Some(restBytes)
    ensures DecodeBytes([b as char] + rest) == Some([b] + restBytes)
  {
    var s := [b as char] + rest;
    assert s[0] == b as char && s[0] != '%' && s[1..] == rest;
  }

  lemma DecodeEscapedByte(b: Byte, rest: string, restBytes: seq<Byte>)
    requires DecodeBytes(rest) == Some(restBytes)
    ensures DecodeBytes(['%', HexDigit(b / 16), HexDigit(b % 16)] + rest) == Some([b] + restBytes)
  {
    var s := ['%', HexDigit(b / 16), HexDigit(b % 16)] + rest;
    assert s[0] == '%' && s[1] == HexDigit(b / 16) && s[2] == HexDigit(b % 16) && s[3..] == rest;
    HexRoundTrip(b / 16);
    HexRoundTrip(b % 16);
  }

  /** A hex digit reads back as the value it was written for. */
  lemma HexRoundTrip(n: int)
    requires 0 <= n < 16
    ensures HexValue(HexDigit(n)) == n
  {
  }

  lemma EncodeRoundTrip(s: string)
    ensures DecodeBytes(Encode(s)) == Some(Utf8(s))
    ensures forall k :: 0 <= k < |Encode(s)| ==> IsEncodedChar(Encode(s)[k])
  {
    DecodeEncodeBytes(Utf8(s));
    EncodeBytesSafe(Utf8(s));
  }

  /** A text of unreserved ASCII characters is left as it is. */
  lemma {:induction false} EncodeUnreservedUnchanged(s: string)
    requires forall k :: 0 <= k < |s| ==> IsUnreservedChar(s[k])
    ensures Encode(s) == s
    decreases |s|
  {
    if s != [] {
      EncodeUnreservedUnchanged(s[1..]);
      assert Utf8(s) == [s[0] as int] + Utf8(s[1..]);
      assert EncodeBytes(Utf8(s)) == [s[0]] + EncodeBytes(Utf8(s[1..]));
      assert s == [s[0]] + s[1..];
    }
  }
}
