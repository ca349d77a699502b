/** The channel layout computed after resampling: the total channel count, the
    stream map that tells which stream each global channel belongs to, the
    widened total length, and the per-channel labels. */
module Layout {
  import opened Base
  import opened Bytes
  import opened Model

  /** 2^32, one more than the largest value of a C++ unsigned. */
  const TwoTo32: nat := 0x1_0000_0000

  /** The value range of the unsigned second half of a streamMap entry. */
  type u32 = x: int | 0 <= x < 0x1_0000_0000

  /** An int stored into an unsigned: reduced modulo 2^32. */
  function Wrap32(x: int): u32
  {
    x % 0x1_0000_0000
  }

  /** One entry of streamMap: a stream index and the running channel total up to
      and including that stream. */
  datatype ChannelBlock = ChannelBlock(stream: nat, end: u32)

  /** The channels a stream contributes to the layout: its count when it holds samples. */
  function Counted(s: Stream): int
  {
    if s.timeSeries != [] then s.header.channelCount else 0
  }

  /** The channels of streams 0..n-1 that hold samples, summed exactly. */
  function ChannelTotal(ss: seq<Stream>, n: nat): int
    requires n <= |ss|
  {
    if n == 0 then 0 else ChannelTotal(ss, n - 1) + Counted(ss[n - 1])
  }

  /** The running total an appended entry continues from: 0 for an empty map. */
  function Back(sm: seq<ChannelBlock>): u32
  {
    if sm == [] then 0 else sm[|sm| - 1].end
  }

  /** streamMap after calcTotalChannel has visited streams 0..n-1, from its prior
      contents: one entry per stream with samples, in stream order, its running
      total kept modulo 2^32. */
  function ChannelMap(sm: seq<ChannelBlock>, ss: seq<Stream>, n: nat): (r: seq<ChannelBlock>)
    requires n <= |ss|
    ensures |sm| <= |r|
  {
    if n == 0 then sm
    else
      var m := ChannelMap(sm, ss, n - 1);
      if ss[n - 1].timeSeries == [] then m
      else m + [ChannelBlock(n - 1, Wrap32(Back(m) + ss[n - 1].header.channelCount))]
  }

  /** calcTotalChannel only appends: the prior entries of streamMap stay. */
  lemma {:induction false} ChannelMapKeepsPrior(sm: seq<ChannelBlock>, ss: seq<Stream>, n: nat)
    requires n <= |ss|
    ensures ChannelMap(sm, ss, n)[..|sm|] == sm
  {
    if n > 0 {
      ChannelMapKeepsPrior(sm, ss, n - 1);
      var m := ChannelMap(sm, ss, n - 1);
      assert forall k :: 0 <= k < |m| ==> ChannelMap(sm, ss, n)[k] == m[k];
    }
  }

  /** totalCh after calcTotalChannel, from its prior value: the size_t sum wraps
      modulo 2^64. */
  function TotalChannels(tc: nat, ss: seq<Stream>): (r: nat)
    ensures r < TwoTo64
  {
    (tc + ChannelTotal(ss, |ss|)) % 0x1_0000_0000_0000_0000
  }

  /** Adding c to a total already reduced modulo 2^32 is adding it before reducing. */
  lemma WrapAdd(x: int, c: int)
    ensures Wrap32(Wrap32(x) + c) == Wrap32(x + c)
  {
  }

  /** The running total just before entry k: the total the entry continued from. */
  function Before(sm: seq<ChannelBlock>, k: nat): u32
    requires k <= |sm|
  {
    if k == 0 then 0 else sm[k - 1].end
  }

  /** The new entries of streamMap name streams with samples, in stream order. */
  lemma {:induction false} ChannelMapStreams(sm: seq<ChannelBlock>, ss: seq<Stream>, n: nat)
    requires n <= |ss|
    ensures forall k :: |sm| <= k < |ChannelMap(sm, ss, n)| ==>
      ChannelMap(sm, ss, n)[k].stream < n && ss[ChannelMap(sm, ss, n)[k].stream].timeSeries != []
    ensures forall k, l :: |sm| <= k < l < |ChannelMap(sm, ss, n)| ==>
      ChannelMap(sm, ss, n)[k].stream < ChannelMap(sm, ss, n)[l].stream
  {
    if n > 0 {
      ChannelMapStreams(sm, ss, n - 1);
      var m, r := ChannelMap(sm, ss, n - 1), ChannelMap(sm, ss, n);
      if ss[n - 1].timeSeries != [] {
        assert r == m + [ChannelBlock(n - 1, Wrap32(Back(m) + ss[n - 1].header.channelCount))];
        assert forall k :: 0 <= k < |m| ==> r[k] == m[k];
      }
    }
  }

  /** Every stream with samples has an entry in streamMap: k is the entry of stream c. */
  lemma {:induction false} ChannelMapCovers(sm: seq<ChannelBlock>, ss: seq<Stream>, n: nat, c: nat) returns (k: nat)
    requires n <= |ss| && c < n && ss[c].timeSeries != []
    ensures |sm| <= k < |ChannelMap(sm, ss, n)| && ChannelMap(sm, ss, n)[k].stream == c
  {
    var m, r := ChannelMap(sm, ss, n - 1), ChannelMap(sm, ss, n);
    assert r == m + [ChannelBlock(n - 1, Wrap32(Back(m) + ss[n - 1].header.channelCount))] || r == m;
    if c == n - 1 {
      k := |m|;
    } else {
      k := ChannelMapCovers(sm, ss, n - 1, c);
      assert r[k] == m[k];
    }
  }

  /** Before reduction a running total that fits is itself. */
  lemma WrapSmall(x: int)
    requires 0 <= x < TwoTo32
    ensures Wrap32(x) == x
  {
  }

  /** The last entry holds the prior total plus the channels of all streams with
      samples, modulo 2^32. */
  lemma {:induction false} ChannelMapBack(sm: seq<ChannelBlock>, ss: seq<Stream>, n: nat)
    requires n <= |ss|
    ensures Back(ChannelMap(sm, ss, n)) == Wrap32(Back(sm) + ChannelTotal(ss, n))
  {
    if n == 0 {
      WrapSmall(Back(sm));
    } else {
      ChannelMapBack(sm, ss, n - 1);
      WrapAdd(Back(sm) + ChannelTotal(ss, n - 1), ss[n - 1].header.channelCount);
    }
  }

  /** Entry k of streamMap names a stream c with samples, continues from the prior
      total plus the channels of the streams with samples before c, and holds that
      plus the channels of c, modulo 2^32. */
  lemma {:induction false} ChannelMapEntry(sm: seq<ChannelBlock>, ss: seq<Stream>, n: nat, k: nat)
    requires n <= |ss| && |sm| <= k < |ChannelMap(sm, ss, n)|
    ensures ChannelMap(sm, ss, n)[k].stream < n
    ensures ss[ChannelMap(sm, ss, n)[k].stream].timeSeries != []
    ensures Before(ChannelMap(sm, ss, n), k) ==
      Wrap32(Back(sm) + ChannelTotal(ss, ChannelMap(sm, ss, n)[k].stream))
    ensures ChannelMap(sm, ss, n)[k].end ==
      Wrap32(Back(sm) + ChannelTotal(ss, ChannelMap(sm, ss, n)[k].stream + 1))
  {
    var m, r := ChannelMap(sm, ss, n - 1), ChannelMap(sm, ss, n);
    if k < |m| {
      ChannelMapEntry(sm, ss, n - 1, k);
      assert r[k] == m[k];
      assert Before(r, k) == Before(m, k);
    } else {
      ChannelMapBack(sm, ss, n - 1);
      WrapAdd(Back(sm) + ChannelTotal(ss, n - 1), ss[n - 1].header.channelCount);
      assert Before(r, k) == Back(m);
    }
  }

  /** With counts that are not negative, longer prefixes sum to no fewer channels. */
  lemma {:induction false} ChannelTotalMonotone(ss: seq<Stream>, a: nat, b: nat)
    requires a <= b <= |ss|
    requires forall c :: 0 <= c < |ss| ==> ss[c].header.channelCount >= 0
    ensures 0 <= ChannelTotal(ss, a) <= ChannelTotal(ss, b)
  {
    if a < b {
      ChannelTotalMonotone(ss, a, b - 1);
    } else if a > 0 {
      ChannelTotalMonotone(ss, a - 1, a - 1);
    }
  }

  /** The well-behaved case: channel counts that are not negative, a total that fits
      an unsigned, and totalCh and streamMap starting out empty. */
  predicate Untruncated(ss: seq<Stream>)
  {
    (forall c :: 0 <= c < |ss| ==> ss[c].header.channelCount >= 0) &&
    ChannelTotal(ss, |ss|) < TwoTo32
  }

  /** In the well-behaved case the last entry of streamMap equals totalCh. */
  lemma {:induction false} ChannelMapTotal(ss: seq<Stream>)
    requires Untruncated(ss)
    ensures Back(ChannelMap([], ss, |ss|)) == TotalChannels(0, ss)
  {
    ChannelMapBack([], ss, |ss|);
    ChannelTotalMonotone(ss, |ss|, |ss|);
    WrapSmall(ChannelTotal(ss, |ss|));
  }

  /** In the well-behaved case entry k of streamMap holds exactly the channels of
      the streams with samples up to and including its stream, and the totals
      never decrease. */
  lemma {:induction false} ChannelMapExact(ss: seq<Stream>, k: nat)
    requires Untruncated(ss) && k < |ChannelMap([], ss, |ss|)|
    ensures ChannelMap([], ss, |ss|)[k].stream < |ss|
    ensures Before(ChannelMap([], ss, |ss|), k) == ChannelTotal(ss, ChannelMap([], ss, |ss|)[k].stream)
    ensures ChannelMap([], ss, |ss|)[k].end == ChannelTotal(ss, ChannelMap([], ss, |ss|)[k].stream + 1)
    ensures Before(ChannelMap([], ss, |ss|), k) <= ChannelMap([], ss, |ss|)[k].end
  {
    var r := ChannelMap([], ss, |ss|);
    ChannelMapEntry([], ss, |ss|, k);
    ChannelTotalMonotone(ss, r[k].stream, r[k].stream + 1);
    ChannelTotalMonotone(ss, r[k].stream + 1, |ss|);
    WrapSmall(ChannelTotal(ss, r[k].stream));
    WrapSmall(ChannelTotal(ss, r[k].stream + 1));
  }

  /** In the well-behaved case the totals of streamMap never decrease. */
  lemma {:induction false} ChannelMapMonotone(ss: seq<Stream>, k: nat, l: nat)
    requires Untruncated(ss) && k < l < |ChannelMap([], ss, |ss|)|
    ensures ChannelMap([], ss, |ss|)[k].end <= ChannelMap([], ss, |ss|)[l].end
  {
    var r := ChannelMap([], ss, |ss|);
    ChannelMapStreams([], ss, |ss|);
    ChannelMapExact(ss, k);
    ChannelMapExact(ss, l);
    assert r[k].stream < r[l].stream;
    ChannelTotalMonotone(ss, r[k].stream + 1, r[l].stream + 1);
  }

  /** totalLen after adjustTotalLength has visited streams 0..n-1: raised to the
      length of the first channel of every stream with samples. */
  function Widened(len: nat, ss: seq<Stream>, n: nat): (r: nat)
    requires n <= |ss|
    ensures r >= len
    ensures forall st :: 0 <= st < n && ss[st].timeSeries != [] ==> r >= |ss[st].timeSeries[0]|
    ensures r == len || exists st :: 0 <= st < n && ss[st].timeSeries != [] && r == |ss[st].timeSeries[0]|
  {
    if n == 0 then len
    else
      var r := Widened(len, ss, n - 1);
      var s := ss[n - 1];
      if s.timeSeries != [] && r < |s.timeSeries[0]| then |s.timeSeries[0]| else r
  }

  /** The digit character of d. */
  function Digit(d: nat): (c: char)
    requires d < 10
    ensures '0' <= c <= '9'
  {
    ('0' as int + d) as char
  }

  predicate IsDigits(s: string)
  {
    forall i :: 0 <= i < |s| ==> '0' <= s[i] <= '9'
  }

  /** std::to_string of a value that is not negative: its decimal digits. */
  function Decimal(n: nat): (s: string)
    ensures |s| >= 1 && IsDigits(s)
    ensures |s| > 1 ==> s[0] != '0'
  {
    if n < 10 then [Digit(n)] else Decimal(n / 10) + [Digit(n % 10)]
  }

  /** The value a string of decimal digits denotes. */
  function DigitsValue(s: string): nat
    requires IsDigits(s)
  {
    if s == [] then 0 else DigitsValue(s[..|s| - 1]) * 10 + (s[|s| - 1] as int - '0' as int)
  }

  /** Reading the digits back gives the number: to_string is injective. */
  lemma {:induction false} DecimalRoundTrip(n: nat)
    ensures DigitsValue(Decimal(n)) == n
  {
    if n >= 10 {
      DecimalRoundTrip(n / 10);
      var s := Decimal(n);
      assert s[..|s| - 1] == Decimal(n / 10);
    }
  }

  /** The index of the first streamMap entry whose running total exceeds channel i,
      |sm| when there is none: the search of createLabels. */
  function Owner(i: nat, sm: seq<ChannelBlock>): (k: nat)
    ensures k <= |sm|
    ensures k < |sm| ==> i < sm[k].end
    ensures forall j :: 0 <= j < k ==> sm[j].end <= i
  {
    if sm == [] then 0
    else if i < sm[0].end then 0
    else 1 + Owner(i, sm[1..])
  }

  /** Every entry of the map names a stream of ss. */
  predicate Indexes(sm: seq<ChannelBlock>, ss: seq<Stream>)
  {
    forall k :: 0 <= k < |sm| ==> sm[k].stream < |ss|
  }

  /** The label createLabels makes for channel i: its number, then the number, name
      and type of the stream that owns it, or nothing when no entry owns it. */
  function Label(i: nat, sm: seq<ChannelBlock>, ss: seq<Stream>): string
    requires Indexes(sm, ss)
  {
    var k := Owner(i, sm);
    "Channel " + Decimal(i) + "\nStream " +
      if k < |sm| then
        var nb := sm[k].stream;
        Decimal(nb) + "\n" + ss[nb].header.name + "\n" + ss[nb].header.streamType
      else ""
  }

  /** The labels of channels 0..n-1. */
  function Labels(n: nat, sm: seq<ChannelBlock>, ss: seq<Stream>): (ls: seq<string>)
    requires Indexes(sm, ss)
    ensures |ls| == n && forall i :: 0 <= i < n ==> ls[i] == Label(i, sm, ss)
  {
    seq(n, i requires 0 <= i < n => Label(i, sm, ss))
  }

  /** calcTotalChannel keeps streamMap naming streams of ss. */
  lemma {:induction false} ChannelMapIndexes(sm: seq<ChannelBlock>, ss: seq<Stream>)
    requires Indexes(sm, ss)
    ensures Indexes(ChannelMap(sm, ss, |ss|), ss)
  {
    ChannelMapStreams(sm, ss, |ss|);
    ChannelMapKeepsPrior(sm, ss, |ss|);
    var r := ChannelMap(sm, ss, |ss|);
    forall k | 0 <= k < |r|
      ensures r[k].stream < |ss|
    {
      if k < |sm| {
        assert r[k] == r[..|sm|][k];
      }
    }
  }

  /** Adding to a size_t total already reduced modulo 2^64 is adding before reducing. */
  lemma WrapAdd64(x: int, c: int)
    ensures ((x % 0x1_0000_0000_0000_0000) + c) % 0x1_0000_0000_0000_0000 == (x + c) % 0x1_0000_0000_0000_0000
  {
  }

  /** The characters of a label from position 8 up to the first line break are the
      channel number. */
  lemma {:induction false} LabelHead(i: nat, sm: seq<ChannelBlock>, ss: seq<Stream>)
    requires Indexes(sm, ss)
    ensures |Label(i, sm, ss)| > 8 + |Decimal(i)|
    ensures Label(i, sm, ss)[8..8 + |Decimal(i)|] == Decimal(i)
    ensures Label(i, sm, ss)[8 + |Decimal(i)|] == '\n'
  {
    var l := Label(i, sm, ss);
    var d := Decimal(i);
    assert l == "Channel " + d + "\nStream " + l[8 + |d| + 8..];
  }

  /** Different channels get different labels. */
  lemma {:induction false} LabelsDistinct(i: nat, j: nat, sm: seq<ChannelBlock>, ss: seq<Stream>)
    requires Indexes(sm, ss) && i != j
    ensures Label(i, sm, ss) != Label(j, sm, ss)
  {
    LabelHead(i, sm, ss);
    LabelHead(j, sm, ss);
    var di, dj := Decimal(i), Decimal(j);
    if |di| < |dj| {
      assert Label(j, sm, ss)[8 + |di|] == dj[|di|];
    } else if |dj| < |di| {
      assert Label(i, sm, ss)[8 + |dj|] == di[|dj|];
    } else {
      DecimalRoundTrip(i);
      DecimalRoundTrip(j);
    }
  }

  /** In the well-behaved case every channel below totalCh is owned by an entry of
      streamMap, the stream of that entry spans the channel, and the label names
      that stream's number, name and type. */
  lemma {:induction false} LabelNamesOwner(ss: seq<Stream>, i: nat)
    requires Untruncated(ss) && i < TotalChannels(0, ss)
    ensures Owner(i, ChannelMap([], ss, |ss|)) < |ChannelMap([], ss, |ss|)|
    ensures ChannelMap([], ss, |ss|)[Owner(i, ChannelMap([], ss, |ss|))].stream < |ss|
    ensures ChannelTotal(ss, ChannelMap([], ss, |ss|)[Owner(i, ChannelMap([], ss, |ss|))].stream) <= i
    ensures i < ChannelTotal(ss, ChannelMap([], ss, |ss|)[Owner(i, ChannelMap([], ss, |ss|))].stream + 1)
    ensures Indexes(ChannelMap([], ss, |ss|), ss)
    ensures Label(i, ChannelMap([], ss, |ss|), ss) ==
      "Channel " + Decimal(i) + "\nStream " +
      Decimal(ChannelMap([], ss, |ss|)[Owner(i, ChannelMap([], ss, |ss|))].stream) + "\n" +
      ss[ChannelMap([], ss, |ss|)[Owner(i, ChannelMap([], ss, |ss|))].stream].header.name + "\n" +
      ss[ChannelMap([], ss, |ss|)[Owner(i, ChannelMap([], ss, |ss|))].stream].header.streamType
  {
    var sm := ChannelMap([], ss, |ss|);
    ChannelMapTotal(ss);
    ChannelMapIndexes([], ss);
    var k := Owner(i, sm);
    if k == |sm| {
      assert false;
    }
    ChannelMapExact(ss, k);
  }

  /** The loop of calcTotalChannel, from the prior totalCh and streamMap. */
  method CalcChannels(tc0: nat, sm0: seq<ChannelBlock>, ss: seq<Stream>) returns (tc: nat, sm: seq<ChannelBlock>)
    requires tc0 < TwoTo64
    ensures tc == TotalChannels(tc0, ss) && sm == ChannelMap(sm0, ss, |ss|)
  {
    tc, sm := tc0, sm0;
    var c := 0;
    while c < |ss|
      invariant c <= |ss|
      invariant tc == (tc0 + ChannelTotal(ss, c)) % 0x1_0000_0000_0000_0000
      invariant sm == ChannelMap(sm0, ss, c)
      decreases |ss| - c
    {
      if ss[c].timeSeries != [] {
        var cc := ss[c].header.channelCount;
        WrapAdd64(tc0 + ChannelTotal(ss, c), cc);
        tc := (tc + cc) % 0x1_0000_0000_0000_0000;
        if sm == [] {
          sm := sm + [ChannelBlock(c, Wrap32(cc))];
        } else {
          sm := sm + [ChannelBlock(c, Wrap32(sm[|sm| - 1].end + cc))];
        }
      }
      c := c + 1;
    }
  }

  /** The loop of adjustTotalLength. */
  method WidenLength(len0: nat, ss: seq<Stream>) returns (len: nat)
    ensures len == Widened(len0, ss, |ss|)
  {
    len := len0;
    var st := 0;
    while st < |ss|
      invariant st <= |ss| && len == Widened(len0, ss, st)
      decreases |ss| - st
    {
      if ss[st].timeSeries != [] && len < |ss[st].timeSeries[0]| {
        len := |ss[st].timeSeries[0]|;
      }
      st := st + 1;
    }
  }

  /** The inner loop of createLabels: the first entry whose running total exceeds i. */
  method FindOwner(i: nat, sm: seq<ChannelBlock>) returns (k: nat)
    ensures k == Owner(i, sm)
  {
    k := 0;
    while k < |sm| && !(i < sm[k].end)
      invariant k <= |sm| && forall j :: 0 <= j < k ==> sm[j].end <= i
      decreases |sm| - k
    {
      k := k + 1;
    }
  }

  /** The outer loop of createLabels: the labels of channels 0..n-1. */
  method MakeLabels(n: nat, sm: seq<ChannelBlock>, ss: seq<Stream>) returns (ls: seq<string>)
    requires Indexes(sm, ss)
    ensures ls == Labels(n, sm, ss)
  {
    ls := [];
    var i := 0;
    while i < n
      invariant i <= n && ls == Labels(i, sm, ss)
      decreases n - i
    {
      var text := "Channel " + Decimal(i) + "\nStream ";
      var k := FindOwner(i, sm);
      if k < |sm| {
        var nb := sm[k].stream;
        text := text + Decimal(nb) + "\n" + ss[nb].header.name + "\n" + ss[nb].header.streamType;
      }
      assert text == Label(i, sm, ss);
      assert Labels(i + 1, sm, ss) == Labels(i, sm, ss) + [Label(i, sm, ss)];
      ls := ls + [text];
      i := i + 1;
    }
  }
}
