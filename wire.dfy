/** The framing primitives of the container: the variable-width length prefix
    and the magic code at the start of a file. */
module Wire {
  import opened Base
  import opened Bytes

  /** The size indicators a length prefix may carry. */
  predicate IsWidth(b: int)
  {
    b == 1 || b == 4 || b == 8
  }

  /** readLength: an indicator byte k, then, for k in {1, 4, 8}, a k-byte unsigned
      little-endian value. Any other indicator yields 0 having consumed only the
      indicator. None when the input ends before the prefix does. */
  function ReadLength(data: seq<byte>, pos: nat): (r: Option<Parsed<nat>>)
    ensures r.Some? <==>
      pos < |data| && (IsWidth(data[pos]) ==> pos + 1 + data[pos] <= |data|)
    ensures r.Some? ==> pos < r.value.next <= |data| && r.value.value < TwoTo64
    ensures r.Some? && IsWidth(data[pos]) ==>
      r.value == Parsed(LE(data[pos + 1..pos + 1 + data[pos]]), pos + 1 + data[pos])
    ensures r.Some? && !IsWidth(data[pos]) ==> r.value == Parsed(0, pos + 1)
  {
    Pow256Values();
    if pos >= |data| then None
    else
      var k := data[pos];
      if IsWidth(k) then ReadUInt(data, pos + 1, k)
      else Some(Parsed(0, pos + 1))
  }

  /** The k-byte form of a length prefix (the layout a writer emits). */
  function EncodeLength(n: nat, k: nat): (s: seq<byte>)
    requires IsWidth(k)
    ensures |s| == 1 + k
  {
    [k as byte] + ToLE(n, k)
  }

  /** A length written in any of the three widths is read back, whatever follows it. */
  lemma LengthRoundTrip(n: nat, k: nat, rest: seq<byte>)
    requires IsWidth(k) && n < Pow256(k)
    ensures ReadLength(EncodeLength(n, k) + rest, 0) == Some(Parsed(n, 1 + k))
  {
    var data := EncodeLength(n, k) + rest;
    assert data[1..1 + k] == ToLE(n, k);
    LEOfToLE(n, k);
  }

  /** The whitespace characters that `file >> c` skips in the "C" locale. */
  predicate IsSpace(b: byte)
  {
    b == 32 || 9 <= b <= 13
  }

  /** The magic-code loop of load_xdf: formatted character reads, which skip
      whitespace, until four characters are collected or the input ends. */
  function MagicScan(data: seq<byte>, pos: nat, acc: string): (r: Parsed<string>)
    requires pos <= |data| && |acc| <= 4
    decreases |data| - pos
    ensures |r.value| <= 4 && pos <= r.next <= |data|
  {
    if |acc| == 4 || pos == |data| then Parsed(acc, pos)
    else if IsSpace(data[pos]) then MagicScan(data, pos + 1, acc)
    else MagicScan(data, pos + 1, acc + [data[pos] as char])
  }

  /** The characters of s with whitespace removed: a reference reading of the magic code. */
  function Visible(s: seq<byte>): string
  {
    if s == [] then []
    else if IsSpace(s[0]) then Visible(s[1..])
    else [s[0] as char] + Visible(s[1..])
  }

  function AtMost4(s: string): string
  {
    if |s| <= 4 then s else s[..4]
  }

  /** The scanned magic code is the first four non-whitespace characters of the input. */
  lemma {:induction false} MagicScanIsVisiblePrefix(data: seq<byte>, pos: nat, acc: string)
    requires pos <= |data| && |acc| <= 4
    decreases |data| - pos
    ensures MagicScan(data, pos, acc).value == AtMost4(acc + Visible(data[pos..]))
  {
    if |acc| == 4 {
    } else if pos == |data| {
      assert data[pos..] == [];
    } else {
      var rest := data[pos..];
      assert rest[0] == data[pos] && rest[1..] == data[pos + 1..];
      MagicScanIsVisiblePrefix(data, pos + 1, if IsSpace(data[pos]) then acc else acc + [data[pos] as char]);
      if !IsSpace(data[pos]) {
        assert acc + Visible(rest) == (acc + [data[pos] as char]) + Visible(data[pos + 1..]);
      }
    }
  }

  /** The bytes of "XDF:". */
  const MagicBytes: seq<byte> := [0x58, 0x44, 0x46, 0x3A]

  /** A file that starts with the literal magic code passes the check with the
      cursor just after it. */
  lemma PlainMagic(data: seq<byte>)
    requires |data| >= 4 && data[..4] == MagicBytes
    ensures MagicScan(data, 0, "") == Parsed("XDF:", 4)
  {
    assert data[0] == 0x58 && data[1] == 0x44 && data[2] == 0x46 && data[3] == 0x3A;
    assert "" + [data[0] as char] == "X" && "X" + [data[1] as char] == "XD";
    assert "XD" + [data[2] as char] == "XDF" && "XDF" + [data[3] as char] == "XDF:";
    assert MagicScan(data, 3, "XDF") == MagicScan(data, 4, "XDF:");
    assert MagicScan(data, 2, "XD") == MagicScan(data, 3, "XDF");
    assert MagicScan(data, 1, "X") == MagicScan(data, 2, "XD");
    assert MagicScan(data, 0, "") == MagicScan(data, 1, "X");
  }

  /** Because the magic code is read with formatted input, whitespace before or
      between its characters is skipped: " X\nDF:" is accepted as well. */
  lemma SpacedMagic(rest: seq<byte>)
    ensures MagicScan([0x20, 0x58, 0x0A, 0x44, 0x46, 0x3A] + rest, 0, "") == Parsed("XDF:", 6)
  {
    var data := [0x20, 0x58, 0x0A, 0x44, 0x46, 0x3A] + rest;
    assert "" + [data[1] as char] == "X" && "X" + [data[3] as char] == "XD";
    assert "XD" + [data[4] as char] == "XDF" && "XDF" + [data[5] as char] == "XDF:";
    assert MagicScan(data, 5, "XDF") == MagicScan(data, 6, "XDF:");
    assert MagicScan(data, 4, "XD") == MagicScan(data, 5, "XDF");
    assert MagicScan(data, 3, "X") == MagicScan(data, 4, "XD");
    assert MagicScan(data, 2, "X") == MagicScan(data, 3, "X");
    assert MagicScan(data, 1, "") == MagicScan(data, 2, "X");
    assert MagicScan(data, 0, "") == MagicScan(data, 1, "");
  }

  /** The magic-code loop, as load_xdf runs it. */
  method ScanMagic(data: seq<byte>) returns (magic: string, pos: nat)
    ensures Parsed(magic, pos) == MagicScan(data, 0, "")
  {
    magic, pos := "", 0;
    while pos < |data|
      invariant pos <= |data| && |magic| <= 4
      invariant MagicScan(data, 0, "") == MagicScan(data, pos, magic)
      decreases |data| - pos
    {
      if |magic| == 4 {
        break;
      }
      var b := data[pos];
      pos := pos + 1;
      if !IsSpace(b) {
        magic := magic + [b as char];
      }
    }
  }
}
