/** Bytes and the fixed-width little-endian integers of the container layout. */
module Bytes {
  import opened Base

  type byte = x: int | 0 <= x < 256

  /** The value range of a C++ uint16_t. */
  type u16 = x: int | 0 <= x < 0x1_0000

  function Pow256(k: nat): (p: nat)
    ensures p >= 1
  {
    if k == 0 then 1 else 256 * Pow256(k - 1)
  }

  /** 2^64, one more than the largest uint64_t. */
  const TwoTo64: nat := 0x1_0000_0000_0000_0000

  lemma Pow256Values()
    ensures Pow256(1) == 0x100
    ensures Pow256(2) == 0x1_0000
    ensures Pow256(4) == 0x1_0000_0000
    ensures Pow256(8) == TwoTo64
  {
    assert Pow256(2) == 0x1_0000;
    assert Pow256(4) == 0x1_0000_0000;
    assert Pow256(6) == 0x1_0000_0000_0000;
  }

  /** Unsigned little-endian value of s: the first byte is the least significant. */
  function LE(s: seq<byte>): (v: nat)
    ensures v < Pow256(|s|)
  {
    if s == [] then 0 else s[0] + 256 * LE(s[1..])
  }

  /** The k-byte little-endian encoding of n modulo 256^k. */
  function ToLE(n: nat, k: nat): (s: seq<byte>)
    ensures |s| == k
  {
    if k == 0 then [] else [(n % 256) as byte] + ToLE(n / 256, k - 1)
  }

  /** Decoding an encoding gives the number back. */
  lemma {:induction false} LEOfToLE(n: nat, k: nat)
    requires n < Pow256(k)
    ensures LE(ToLE(n, k)) == n
  {
    if k > 0 {
      LEOfToLE(n / 256, k - 1);
      assert ToLE(n, k)[1..] == ToLE(n / 256, k - 1);
    }
  }

  /** Encoding a decoded value gives the bytes back. */
  lemma {:induction false} ToLEOfLE(s: seq<byte>)
    ensures ToLE(LE(s), |s|) == s
  {
    if s != [] {
      ToLEOfLE(s[1..]);
      var v := LE(s);
      assert v % 256 == s[0] && v / 256 == LE(s[1..]);
      assert s == [s[0]] + s[1..];
    }
  }

  /** Two's-complement value of s, as a C++ intN_t read from little-endian bytes. */
  function Signed(s: seq<byte>): (v: int)
    requires |s| > 0
    ensures -(Pow256(|s|) / 2) <= v < Pow256(|s|) / 2
    ensures v >= 0 ==> v == LE(s)
    ensures v < 0 ==> v == LE(s) - Pow256(|s|)
  {
    Pow256Even(|s|);
    if LE(s) < Pow256(|s|) / 2 then LE(s) else LE(s) - Pow256(|s|)
  }

  lemma Pow256Even(k: nat)
    requires k > 0
    ensures Pow256(k) == 2 * (Pow256(k) / 2)
  {
    assert Pow256(k) == 256 * Pow256(k - 1);
  }

  /** Every k-byte two's-complement value is read back from its encoding. */
  lemma SignedOfToLE(x: int, k: nat)
    requires k > 0 && -(Pow256(k) / 2) <= x < Pow256(k) / 2
    ensures Signed(ToLE(if x >= 0 then x else x + Pow256(k), k)) == x
  {
    LEOfToLE(if x >= 0 then x else x + Pow256(k), k);
  }

  /** The k bytes at pos, when the input holds them. */
  function Take(data: seq<byte>, pos: nat, k: nat): Option<seq<byte>>
  {
    if pos + k <= |data| then Some(data[pos..pos + k]) else None
  }

  /** An unsigned little-endian k-byte integer at pos. */
  function ReadUInt(data: seq<byte>, pos: nat, k: nat): Option<Parsed<nat>>
  {
    if pos + k <= |data| then Some(Parsed(LE(data[pos..pos + k]), pos + k)) else None
  }

  /** A C++ int read with file.read(&x, 4): a signed 32-bit little-endian integer. */
  function ReadInt32(data: seq<byte>, pos: nat): Option<Parsed<int>>
  {
    if pos + 4 <= |data| then Some(Parsed(Signed(data[pos..pos + 4]), pos + 4)) else None
  }
}
