/** Bytes, digests, UTF-8 (Encoding.UTF8.GetBytes) and lowercase hexadecimal
    text (BitConverter.ToString without dashes, lower-cased). */
module Encoding {

  type Bytes = seq<bv8>

  /** A SHA-256 digest (FIPS 180-4): 32 bytes. */
  type Digest = d: Bytes | |d| == 32 witness seq(32, _ => 0 as bv8)

  // ---- UTF-8 -----------------------------------------------------------------

  /** The UTF-8 encoding of one Unicode scalar value. */
  function Utf8Char(c: char): (r: Bytes)
    ensures 1 <= |r| <= 4
    ensures (c as int < 0x80) <==> |r| == 1
  {
    var cp := c as int;
    if cp < 0x80 then [cp as bv8]
    else if cp < 0x800 then [(0xC0 + cp / 64) as bv8, (0x80 + cp % 64) as bv8]
    else if cp < 0x10000 then
      [(0xE0 + cp / 4096) as bv8, (0x80 + (cp / 64) % 64) as bv8, (0x80 + cp % 64) as bv8]
    else
      [(0xF0 + cp / 262144) as bv8, (0x80 + (cp / 4096) % 64) as bv8,
       (0x80 + (cp / 64) % 64) as bv8, (0x80 + cp % 64) as bv8]
  }

  /** Encoding.UTF8.GetBytes */
  function Utf8(s: string): (r: Bytes)
    ensures |s| <= |r| <= 4 * |s|
    decreases |s|
  {
    if s == [] then [] else Utf8Char(s[0]) + Utf8(s[1..])
  }

  // ---- lowercase hexadecimal -------------------------------------------------

  const HexDigits: string := "0123456789abcdef"

  predicate IsLowerHexDigit(c: char) {
    ('0' <= c <= '9') || ('a' <= c <= 'f')
  }

  predicate IsLowerHex(s: string) {
    forall i :: 0 <= i < |s| ==> IsLowerHexDigit(s[i])
  }

  function HexValue(c: char): (v: nat)
    requires IsLowerHexDigit(c)
    ensures v < 16
  {
    if c <= '9' then c as int - '0' as int else c as int - 'a' as int + 10
  }

  lemma HexValueOfDigit(n: nat)
    requires n < 16
    ensures IsLowerHexDigit(HexDigits[n]) && HexValue(HexDigits[n]) == n
  {
  }

  /** Two lowercase hex characters, high nibble first. */
  function ByteHex(b: bv8): (r: string)
    ensures |r| == 2 && IsLowerHex(r)
  {
    HexValueOfDigit(b as int / 16);
    HexValueOfDigit(b as int % 16);
    [HexDigits[b as int / 16], HexDigits[b as int % 16]]
  }

  /** BitConverter.ToString(bytes).Replace("-", "").ToLowerInvariant() */
  function Hex(bs: Bytes): (r: string)
    ensures |r| == 2 * |bs|
    ensures IsLowerHex(r)
    decreases |bs|
  {
    if bs == [] then "" else ByteHex(bs[0]) + Hex(bs[1..])
  }

  /** Reading lowercase hex text back into bytes. */
  function Unhex(s: string): (r: Bytes)
    requires |s| % 2 == 0 && IsLowerHex(s)
    ensures |r| == |s| / 2
    decreases |s|
  {
    if s == "" then [] else [(HexValue(s[0]) * 16 + HexValue(s[1])) as bv8] + Unhex(s[2..])
  }

  /** The two characters of a byte read back as that byte. */
  lemma ByteHexRoundTrip(b: bv8)
    ensures var h := ByteHex(b); (HexValue(h[0]) * 16 + HexValue(h[1])) as bv8 == b
  {
    HexValueOfDigit(b as int / 16);
    HexValueOfDigit(b as int % 16);
  }

  /** The first two characters of the hex text read back as the first byte;
      the rest is the hex text of the remaining bytes. */
  lemma HexHead(bs: Bytes)
    requires bs != []
    ensures var h := Hex(bs);
      && (HexValue(h[0]) * 16 + HexValue(h[1])) as bv8 == bs[0]
      && h[2..] == Hex(bs[1..])
  {
    var b := ByteHex(bs[0]);
    assert Hex(bs) == b + Hex(bs[1..]);
    ByteHexRoundTrip(bs[0]);
  }

  /** Hex text determines the bytes it was made from. */
  lemma {:induction false} UnhexHex(bs: Bytes)
    ensures Unhex(Hex(bs)) == bs
    decreases |bs|
  {
    if bs != [] {
      HexHead(bs);
      UnhexHex(bs[1..]);
      assert [bs[0]] + bs[1..] == bs;
    }
  }

  lemma HexInjective(a: Bytes, b: Bytes)
    requires Hex(a) == Hex(b)
    ensures a == b
  {
    UnhexHex(a);
    UnhexHex(b);
  }
}
