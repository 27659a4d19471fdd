/** The text encodings the clients produce themselves: decimal numbers in
    template strings, hexadecimal digests and base64 text. `JSON.stringify`,
    `encodeURIComponent`, the UTF-8 encoder and SHA-256 stay opaque and are
    passed in where a client uses them. */
module Encoding {

  type Byte = b: int | 0 <= b < 256

  predicate IsDigit(c: char) {
    '0' <= c <= '9'
  }

  /** `${n}` for a non-negative integer: the shortest decimal numeral. */
  function NatToString(n: nat): (s: string)
    ensures s != []
    ensures forall i :: 0 <= i < |s| ==> IsDigit(s[i])
    ensures |s| > 1 ==> s[0] != '0'
  {
    if n < 10 then [('0' as int + n) as char]
    else NatToString(n / 10) + [('0' as int + n % 10) as char]
  }

  /** The value of a numeral. */
  function ParseDecimal(s: string): nat
    requires forall i :: 0 <= i < |s| ==> IsDigit(s[i])
  {
    if s == [] then 0
    else
      assert IsDigit(s[|s| - 1]);
      10 * ParseDecimal(s[..|s| - 1]) + (s[|s| - 1] as int - '0' as int)
  }

  /** Reading back the numeral written for `n` gives `n`. */
  lemma {:induction false} NatToStringRoundTrip(n: nat)
    ensures ParseDecimal(NatToString(n)) == n
  {
    if n >= 10 {
      var s := NatToString(n);
      NatToStringRoundTrip(n / 10);
      assert s[..|s| - 1] == NatToString(n / 10);
    }
  }

  /** `${n}` for any integer. */
  function IntToString(n: int): (s: string)
    ensures s != []
    ensures n >= 0 ==> s == NatToString(n)
    ensures n < 0 ==> s[0] == '-' && s[1..] == NatToString(-n)
  {
    if n < 0 then "-" + NatToString(-n) else NatToString(n)
  }

  predicate IsHexChar(c: char) {
    '0' <= c <= '9' || 'a' <= c <= 'f'
  }

  function HexDigit(d: int): (c: char)
    requires 0 <= d < 16
    ensures IsHexChar(c)
  {
    if d < 10 then ('0' as int + d) as char else ('a' as int + d - 10) as char
  }

  function HexValue(c: char): (d: int)
    requires IsHexChar(c)
    ensures 0 <= d < 16
  {
    if c <= '9' then c as int - '0' as int else c as int - 'a' as int + 10
  }

  /** `digest('hex')`: two lower-case hex digits per byte. */
  function Hex(bs: seq<Byte>): (s: string)
    ensures |s| == 2 * |bs|
    ensures forall i :: 0 <= i < |s| ==> IsHexChar(s[i])
  {
    if bs == [] then "" else [HexDigit(bs[0] / 16), HexDigit(bs[0] % 16)] + Hex(bs[1..])
  }

  function UnHex(s: string): seq<Byte>
    requires |s| % 2 == 0
    requires forall i :: 0 <= i < |s| ==> IsHexChar(s[i])
  {
    if s == [] then [] else [16 * HexValue(s[0]) + HexValue(s[1])] + UnHex(s[2..])
  }

  /** Hex text decodes back to the digest, so distinct digests give distinct text. */
  lemma {:induction false} HexRoundTrip(bs: seq<Byte>)
    ensures UnHex(Hex(bs)) == bs
  {
    if bs != [] {
      HexRoundTrip(bs[1..]);
      var s := Hex(bs);
      assert s[2..] == Hex(bs[1..]);
    }
  }

  /** The base64 alphabet. */
  function Base64Char(d: int): char
    requires 0 <= d < 64
  {
    if d < 26 then ('A' as int + d) as char
    else if d < 52 then ('a' as int + d - 26) as char
    else if d < 62 then ('0' as int + d - 52) as char
    else if d == 62 then '+'
    else '/'
  }

  /** `Buffer.toString('base64')`: four characters per three bytes, the last
      group padded with `=`. */
  function Base64(bs: seq<Byte>): (s: string)
    ensures |s| == 4 * ((|bs| + 2) / 3)
  {
    if |bs| >= 3 then
      [ Base64Char(bs[0] / 4), Base64Char(bs[0] % 4 * 16 + bs[1] / 16),
        Base64Char(bs[1] % 16 * 4 + bs[2] / 64), Base64Char(bs[2] % 64) ]
      + Base64(bs[3..])
    else if |bs| == 2 then
      [ Base64Char(bs[0] / 4), Base64Char(bs[0] % 4 * 16 + bs[1] / 16),
        Base64Char(bs[1] % 16 * 4), '=' ]
    else if |bs| == 1 then
      [ Base64Char(bs[0] / 4), Base64Char(bs[0] % 4 * 16), '=', '=' ]
    else ""
  }

  /** Base64 works on groups of three bytes: a prefix whose length is a
      multiple of three is encoded on its own, whatever follows it. */
  lemma {:induction false} Base64Concat(p: seq<Byte>, r: seq<Byte>)
    requires |p| % 3 == 0
    ensures Base64(p + r) == Base64(p) + Base64(r)
  {
    if p != [] {
      var q := p + r;
      assert q[0] == p[0] && q[1] == p[1] && q[2] == p[2];
      assert q[3..] == p[3..] + r;
      Base64Concat(p[3..], r);
    } else {
      assert p + r == r;
    }
  }

  /** The bytes of an ASCII string. */
  function AsciiBytes(s: string): (bs: seq<Byte>)
    requires forall i :: 0 <= i < |s| ==> s[i] as int < 128
    ensures |bs| == |s|
    ensures forall i :: 0 <= i < |s| ==> bs[i] == s[i] as int
  {
    seq(|s|, i requires 0 <= i < |s| => s[i] as int)
  }

  /** `s.substring(0, n)` for `n >= 0`. */
  function Prefix(s: string, n: nat): (r: string)
    ensures |r| == if n <= |s| then n else |s|
    ensures r <= s
  {
    if n <= |s| then s[..n] else s
  }
}
