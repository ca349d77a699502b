/** The whole-file statistics computed after loading: the timestamp range and
    the majority sampling rate. Each is a fold over the streams, written by
    extending a prefix as the loops that compute them do. */
module Stats {
  import opened Base
  import opened Model

  /** The first timestamp of the first stream that has any, or m when none has. */
  function FirstFront(ss: seq<Stream>, m: real): real
  {
    if ss == [] then m
    else if ss[0].timeStamps != [] then ss[0].timeStamps[0]
    else FirstFront(ss[1..], m)
  }

  /** The first timestamps of the streams that have any, lowered into m. */
  function MinFronts(ss: seq<Stream>, m: real): (r: real)
    ensures r <= m
    ensures forall i :: 0 <= i < |ss| && ss[i].timeStamps != [] ==> r <= ss[i].timeStamps[0]
    ensures r == m || exists i :: 0 <= i < |ss| && ss[i].timeStamps != [] && r == ss[i].timeStamps[0]
  {
    if ss == [] then m
    else
      var r := MinFronts(ss[..|ss| - 1], m);
      var s := ss[|ss| - 1];
      assert forall i :: 0 <= i < |ss| - 1 ==> ss[..|ss| - 1][i] == ss[i];
      if s.timeStamps != [] && s.timeStamps[0] < r then s.timeStamps[0] else r
  }

  /** The last timestamps of the streams that have any, raised into m. */
  function MaxBacks(ss: seq<Stream>, m: real): (r: real)
    ensures r >= m
    ensures forall i :: 0 <= i < |ss| && ss[i].timeStamps != [] ==> r >= ss[i].timeStamps[|ss[i].timeStamps| - 1]
    ensures r == m || exists i :: 0 <= i < |ss| && ss[i].timeStamps != [] && r == ss[i].timeStamps[|ss[i].timeStamps| - 1]
  {
    if ss == [] then m
    else
      var r := MaxBacks(ss[..|ss| - 1], m);
      var s := ss[|ss| - 1];
      assert forall i :: 0 <= i < |ss| - 1 ==> ss[..|ss| - 1][i] == ss[i];
      if s.timeStamps != [] && s.timeStamps[|s.timeStamps| - 1] > r then s.timeStamps[|s.timeStamps| - 1] else r
  }

  /** The event timestamps lowered into m. */
  function MinEvents(es: seq<Event>, m: real): (r: real)
    ensures r <= m
    ensures forall i :: 0 <= i < |es| ==> r <= es[i].timestamp
    ensures r == m || exists i :: 0 <= i < |es| && r == es[i].timestamp
  {
    if es == [] then m
    else
      var r := MinEvents(es[..|es| - 1], m);
      assert forall i :: 0 <= i < |es| - 1 ==> es[..|es| - 1][i] == es[i];
      if r > es[|es| - 1].timestamp then es[|es| - 1].timestamp else r
  }

  /** The event timestamps raised into m. */
  function MaxEvents(es: seq<Event>, m: real): (r: real)
    ensures r >= m
    ensures forall i :: 0 <= i < |es| ==> r >= es[i].timestamp
    ensures r == m || exists i :: 0 <= i < |es| && r == es[i].timestamp
  {
    if es == [] then m
    else
      var r := MaxEvents(es[..|es| - 1], m);
      assert forall i :: 0 <= i < |es| - 1 ==> es[..|es| - 1][i] == es[i];
      if r < es[|es| - 1].timestamp then es[|es| - 1].timestamp else r
  }

  /** minTS after findMinMax, from its prior value m. */
  function MinTimestamp(ss: seq<Stream>, es: seq<Event>, m: real): real
  {
    MinEvents(es, MinFronts(ss, FirstFront(ss, m)))
  }

  /** maxTS after findMinMax, from its prior value m. */
  function MaxTimestamp(ss: seq<Stream>, es: seq<Event>, m: real): real
  {
    MaxEvents(es, MaxBacks(ss, m))
  }

  /** FirstFront is the first timestamp of some stream when one has any. */
  lemma {:induction false} FirstFrontIsAFront(ss: seq<Stream>, m: real)
    ensures (exists i :: 0 <= i < |ss| && ss[i].timeStamps != []) ==>
      exists i :: 0 <= i < |ss| && ss[i].timeStamps != [] && FirstFront(ss, m) == ss[i].timeStamps[0]
    ensures (forall i :: 0 <= i < |ss| ==> ss[i].timeStamps == []) ==> FirstFront(ss, m) == m
  {
    if ss != [] && ss[0].timeStamps == [] {
      FirstFrontIsAFront(ss[1..], m);
      assert forall i :: 1 <= i < |ss| ==> ss[1..][i - 1] == ss[i];
      if exists i :: 0 <= i < |ss| && ss[i].timeStamps != [] {
        var i :| 0 <= i < |ss| && ss[i].timeStamps != [];
        assert ss[1..][i - 1].timeStamps != [];
        var j :| 0 <= j < |ss| - 1 && ss[1..][j].timeStamps != [] && FirstFront(ss[1..], m) == ss[1..][j].timeStamps[0];
        assert ss[j + 1] == ss[1..][j];
      }
    }
  }

  /** findMinMax gives bounds: minTS is at most every stream's first timestamp and
      every event's timestamp, maxTS at least every stream's last timestamp, every
      event's timestamp and its prior value. As soon as one stream has a timestamp
      the prior minTS no longer counts: minTS is then one of the timestamps. */
  lemma TimestampBounds(ss: seq<Stream>, es: seq<Event>, m0: real, n0: real)
    ensures forall i :: 0 <= i < |ss| && ss[i].timeStamps != [] ==> MinTimestamp(ss, es, m0) <= ss[i].timeStamps[0]
    ensures forall i :: 0 <= i < |es| ==> MinTimestamp(ss, es, m0) <= es[i].timestamp
    ensures forall i :: 0 <= i < |ss| && ss[i].timeStamps != [] ==>
      MaxTimestamp(ss, es, n0) >= ss[i].timeStamps[|ss[i].timeStamps| - 1]
    ensures forall i :: 0 <= i < |es| ==> MaxTimestamp(ss, es, n0) >= es[i].timestamp
    ensures MaxTimestamp(ss, es, n0) >= n0
    ensures (exists i :: 0 <= i < |ss| && ss[i].timeStamps != []) ==>
      (exists i :: 0 <= i < |ss| && ss[i].timeStamps != [] && MinTimestamp(ss, es, m0) == ss[i].timeStamps[0]) ||
      (exists i :: 0 <= i < |es| && MinTimestamp(ss, es, m0) == es[i].timestamp)
  {
    FirstFrontIsAFront(ss, m0);
  }

  /** One entry of srateMap: a sampling rate and the channels summed over the
      streams that have it. */
  datatype RateGroup = RateGroup(rate: int, channels: int)

  /** The rates of a table, in table order. */
  function Keys(t: seq<RateGroup>): (k: seq<int>)
    ensures |k| == |t| && forall i :: 0 <= i < |t| ==> k[i] == t[i].rate
  {
    seq(|t|, i requires 0 <= i < |t| => t[i].rate)
  }

  /** Adding one stream's channels under its rate: a new entry for a rate not yet
      in the table (std::find_if came back with end()), otherwise the first entry
      with that rate grows. */
  function AddRate(t: seq<RateGroup>, rate: int, n: int): seq<RateGroup>
  {
    var i := Find(Keys(t), rate);
    if i == |t| then t + [RateGroup(rate, n)] else t[i := RateGroup(rate, t[i].channels + n)]
  }

  /** srateMap after the first loop of findMajSR: streams with nominal_srate 0 are
      passed over. */
  function RateTable(ss: seq<Stream>): seq<RateGroup>
  {
    if ss == [] then []
    else
      var t := RateTable(ss[..|ss| - 1]);
      var s := ss[|ss| - 1];
      if s.header.nominalSrate != 0 then AddRate(t, s.header.nominalSrate, s.header.channelCount) else t
  }

  /** Every stream's nominal rate, in stream order. */
  function RateList(ss: seq<Stream>): (r: seq<int>)
    ensures |r| == |ss| && forall i :: 0 <= i < |ss| ==> r[i] == ss[i].header.nominalSrate
  {
    seq(|ss|, i requires 0 <= i < |ss| => ss[i].header.nominalSrate)
  }

  /** The channel count summed over the streams of the given rate. */
  function ChannelSum(ss: seq<Stream>, rate: int): int
  {
    if ss == [] then 0
    else
      var s := ss[|ss| - 1];
      ChannelSum(ss[..|ss| - 1], rate) + (if s.header.nominalSrate == rate then s.header.channelCount else 0)
  }

  /** A rate no stream has sums to no channels. */
  lemma {:induction false} ChannelSumAbsent(ss: seq<Stream>, rate: int)
    requires rate !in RateList(ss)
    ensures ChannelSum(ss, rate) == 0
  {
    if ss != [] {
      var ys := ss[..|ss| - 1];
      assert RateList(ss) == RateList(ys) + [ss[|ss| - 1].header.nominalSrate];
      ChannelSumAbsent(ys, rate);
    }
  }

  /** The rates of srateMap are the distinct nonzero rates in the order the
      streams first show them. */
  lemma {:induction false} RateTableKeys(ss: seq<Stream>)
    ensures Keys(RateTable(ss)) == Firsts([0], RateList(ss))
  {
    if ss != [] {
      var ys, s := ss[..|ss| - 1], ss[|ss| - 1];
      var r, n := s.header.nominalSrate, s.header.channelCount;
      RateTableKeys(ys);
      var t := RateTable(ys);
      assert RateList(ss)[..|RateList(ss)| - 1] == RateList(ys);
      if r != 0 {
        var i := Find(Keys(t), r);
        FindAbsent(Keys(t), r);
        if i == |t| {
          assert Keys(t + [RateGroup(r, n)]) == Keys(t) + [r];
        } else {
          assert Keys(t[i := RateGroup(r, t[i].channels + n)]) == Keys(t);
        }
      }
    }
  }

  /** srateMap lists the distinct nonzero rates in the order the streams first
      show them, and pairs each with the channels of all streams of that rate. */
  lemma {:induction false} RateTableSpec(ss: seq<Stream>)
    ensures Keys(RateTable(ss)) == Firsts([0], RateList(ss))
    ensures forall j :: 0 <= j < |RateTable(ss)| ==>
      RateTable(ss)[j].channels == ChannelSum(ss, RateTable(ss)[j].rate)
  {
    RateTableKeys(ss);
    if ss != [] {
      var ys, s := ss[..|ss| - 1], ss[|ss| - 1];
      var r, n := s.header.nominalSrate, s.header.channelCount;
      RateTableSpec(ys);
      FirstsSpec([0], RateList(ys));
      var t, f := RateTable(ys), Firsts([0], RateList(ys));
      if r != 0 {
        var i := Find(Keys(t), r);
        FindAbsent(Keys(t), r);
        if i == |t| {
          assert r !in RateList(ys);
          ChannelSumAbsent(ys, r);
        } else {
          var t' := t[i := RateGroup(r, t[i].channels + n)];
          forall j | 0 <= j < |t'| ensures t'[j].channels == ChannelSum(ss, t'[j].rate) {
            if j != i {
              assert t[j].rate != r by {
                assert Keys(t)[j] != Keys(t)[i];
              }
            }
          }
        }
      } else {
        assert forall j :: 0 <= j < |t| ==> t[j].rate != 0 by {
          forall j | 0 <= j < |t| ensures t[j].rate != 0 {
            assert Keys(t)[j] in f;
          }
        }
      }
    }
  }

  /** The index std::max_element returns with the comparator "fewer channels": the
      first entry with the most channels. */
  function FirstMax(t: seq<RateGroup>): (b: nat)
    requires |t| > 0
    ensures b < |t|
    ensures forall j :: 0 <= j < |t| ==> t[j].channels <= t[b].channels
    ensures forall j :: 0 <= j < b ==> t[j].channels < t[b].channels
  {
    if |t| == 1 then 0
    else
      var b := FirstMax(t[..|t| - 1]);
      assert forall j :: 0 <= j < |t| - 1 ==> t[..|t| - 1][j] == t[j];
      if t[b].channels < t[|t| - 1].channels then |t| - 1 else b
  }

  /** findMajSR as written: the rate of the first heaviest entry of srateMap, and
      nothing when srateMap is empty, where srateMap[index] reads past the end. */
  function MajorRateAsWritten(ss: seq<Stream>): Option<int>
  {
    var t := RateTable(ss);
    if t == [] then None else Some(t[FirstMax(t)].rate)
  }

  /** findMajSR with the empty case closed: 0 when no stream has a nonzero rate,
      the value an irregular stream's rate has. */
  function MajorRate(ss: seq<Stream>): int
  {
    var t := RateTable(ss);
    if t == [] then 0 else t[FirstMax(t)].rate
  }

  /** The table entry of a nonzero rate some stream has. */
  lemma EntryOf(ss: seq<Stream>, r: int) returns (j: nat)
    requires r in RateList(ss) && r != 0
    ensures j < |RateTable(ss)| && RateTable(ss)[j].rate == r
    ensures RateTable(ss)[j].channels == ChannelSum(ss, r)
  {
    RateTableSpec(ss);
    FirstsSpec([0], RateList(ss));
    var f := Firsts([0], RateList(ss));
    assert r in f;
    j :| 0 <= j < |f| && f[j] == r;
    assert Keys(RateTable(ss))[j] == r;
  }

  /** With a regular stream present, srateMap is not empty and majSR is the rate of
      its first heaviest entry. */
  lemma MajorEntry(ss: seq<Stream>, i: nat)
    requires i < |ss| && ss[i].header.nominalSrate != 0
    ensures RateTable(ss) != []
    ensures MajorRate(ss) == RateTable(ss)[FirstMax(RateTable(ss))].rate
    ensures MajorRate(ss) != 0 && MajorRate(ss) in RateList(ss)
    ensures ChannelSum(ss, MajorRate(ss)) == RateTable(ss)[FirstMax(RateTable(ss))].channels
  {
    var k := EntryOf(ss, RateList(ss)[i]);
    var t := RateTable(ss);
    var b := FirstMax(t);
    RateTableSpec(ss);
    FirstsSpec([0], RateList(ss));
    assert Keys(t)[b] == t[b].rate;
    assert t[b].rate in Firsts([0], RateList(ss));
  }

  /** No nonzero rate sums to more channels than majSR. */
  lemma MajorRateHeaviest(ss: seq<Stream>, i: nat, r: int)
    requires i < |ss| && ss[i].header.nominalSrate != 0
    requires r in RateList(ss) && r != 0
    ensures ChannelSum(ss, r) <= ChannelSum(ss, MajorRate(ss))
  {
    MajorEntry(ss, i);
    var j := EntryOf(ss, r);
  }

  /** A nonzero rate as heavy as majSR first shows up no earlier than majSR does. */
  lemma MajorRateFirstOfTies(ss: seq<Stream>, i: nat, r: int)
    requires i < |ss| && ss[i].header.nominalSrate != 0
    requires r in RateList(ss) && r != 0 && ChannelSum(ss, r) == ChannelSum(ss, MajorRate(ss))
    ensures Find(RateList(ss), MajorRate(ss)) <= Find(RateList(ss), r)
  {
    MajorEntry(ss, i);
    var j := EntryOf(ss, r);
    var t := RateTable(ss);
    var b := FirstMax(t);
    assert b <= j;
    if b < j {
      RateTableKeys(ss);
      assert Keys(t)[j] == r && Keys(t)[b] == MajorRate(ss);
      FirstsOrder([0], RateList(ss), b, j);
    }
  }

  /** With a regular stream i present, majSR is the nonzero rate with the most
      channels summed over its streams; of several such rates, the one a stream
      shows first. Where both are defined, the as-written function agrees. */
  lemma MajorRateIsHeaviest(ss: seq<Stream>, i: nat)
    requires i < |ss| && ss[i].header.nominalSrate != 0
    ensures MajorRateAsWritten(ss) == Some(MajorRate(ss))
    ensures MajorRate(ss) != 0 && MajorRate(ss) in RateList(ss)
    ensures forall r :: r in RateList(ss) && r != 0 ==> ChannelSum(ss, r) <= ChannelSum(ss, MajorRate(ss))
    ensures forall r :: r in RateList(ss) && r != 0 && ChannelSum(ss, r) == ChannelSum(ss, MajorRate(ss)) ==>
      Find(RateList(ss), MajorRate(ss)) <= Find(RateList(ss), r)
  {
    MajorEntry(ss, i);
    forall r | r in RateList(ss) && r != 0
      ensures ChannelSum(ss, r) <= ChannelSum(ss, MajorRate(ss))
    {
      MajorRateHeaviest(ss, i, r);
    }
    forall r | r in RateList(ss) && r != 0 && ChannelSum(ss, r) == ChannelSum(ss, MajorRate(ss))
      ensures Find(RateList(ss), MajorRate(ss)) <= Find(RateList(ss), r)
    {
      MajorRateFirstOfTies(ss, i, r);
    }
  }

  /** A file whose only stream is irregular (a marker stream, nominal rate 0) gets
      an empty srateMap, which findMajSR as written indexes anyway. */
  lemma MajorRateAsWrittenOnMarkerStream(s: Stream)
    requires s.header.nominalSrate == 0
    ensures MajorRateAsWritten([s]) == None
    ensures MajorRate([s]) == 0
  {
    assert [s][..0] == [];
    assert RateTable([s]) == [];
  }

  /** For every file: srateMap is empty exactly when no stream is regular, so
      findMajSR as written reads past the end of srateMap on precisely those
      files, where the corrected majSR is 0. */
  lemma {:induction false} MajorRateNoRegularStream(ss: seq<Stream>)
    ensures (forall i :: 0 <= i < |ss| ==> ss[i].header.nominalSrate == 0) <==> MajorRateAsWritten(ss) == None
    ensures (forall i :: 0 <= i < |ss| ==> ss[i].header.nominalSrate == 0) ==> MajorRate(ss) == 0
  {
    if forall i :: 0 <= i < |ss| ==> ss[i].header.nominalSrate == 0 {
      NoRegularStreamNoRates(ss);
    } else {
      var i :| 0 <= i < |ss| && ss[i].header.nominalSrate != 0;
      MajorEntry(ss, i);
    }
  }

  /** Without a regular stream, srateMap stays empty. */
  lemma {:induction false} NoRegularStreamNoRates(ss: seq<Stream>)
    requires forall i :: 0 <= i < |ss| ==> ss[i].header.nominalSrate == 0
    ensures RateTable(ss) == []
  {
    if ss != [] {
      NoRegularStreamNoRates(ss[..|ss| - 1]);
    }
  }

  /** The three minTS loops of findMinMax: the first stream with a timestamp sets
      minTS, every stream's first timestamp may lower it, and so may every event. */
  method EarliestTimestamp(ss: seq<Stream>, es: seq<Event>, m: real) returns (lo: real)
    ensures lo == MinTimestamp(ss, es, m)
  {
    lo := m;
    var i := 0;
    while i < |ss|
      invariant i <= |ss| && lo == m
      invariant FirstFront(ss, m) == FirstFront(ss[i..], m)
      decreases |ss| - i
    {
      assert ss[i..][1..] == ss[i + 1..];
      if ss[i].timeStamps != [] {
        lo := ss[i].timeStamps[0];
        break;
      }
      i := i + 1;
    }
    ghost var m1 := lo;
    assert MinFronts(ss[..0], m1) == m1 by {
      assert ss[..0] == [];
    }
    i := 0;
    while i < |ss|
      invariant i <= |ss| && lo == MinFronts(ss[..i], m1)
      decreases |ss| - i
    {
      assert ss[..i + 1][..i] == ss[..i];
      if ss[i].timeStamps != [] && ss[i].timeStamps[0] < lo {
        lo := ss[i].timeStamps[0];
      }
      i := i + 1;
    }
    assert ss[..i] == ss;
    ghost var m2 := lo;
    assert MinEvents(es[..0], m2) == m2 by {
      assert es[..0] == [];
    }
    i := 0;
    while i < |es|
      invariant i <= |es| && lo == MinEvents(es[..i], m2)
      decreases |es| - i
    {
      assert es[..i + 1][..i] == es[..i];
      if lo > es[i].timestamp {
        lo := es[i].timestamp;
      }
      i := i + 1;
    }
    assert es[..i] == es;
  }

  /** One more stream for MaxBacks: its last timestamp, if it has one, may raise
      the maximum. */
  lemma MaxBacksStep(ss: seq<Stream>, i: nat, m: real)
    requires i < |ss|
    ensures MaxBacks(ss[..i + 1], m) ==
      var r, ts := MaxBacks(ss[..i], m), ss[i].timeStamps;
      if ts != [] && ts[|ts| - 1] > r then ts[|ts| - 1] else r
  {
    assert ss[..i + 1][..i] == ss[..i];
  }

  /** The first maxTS loop of findMinMax: every stream's last timestamp may raise
      maxTS. */
  method LatestBack(ss: seq<Stream>, m: real) returns (hi: real)
    ensures hi == MaxBacks(ss, m)
  {
    hi := m;
    assert MaxBacks(ss[..0], m) == m by {
      assert ss[..0] == [];
    }
    var i := 0;
    while i < |ss|
      invariant i <= |ss| && hi == MaxBacks(ss[..i], m)
      decreases |ss| - i
    {
      MaxBacksStep(ss, i, m);
      var ts := ss[i].timeStamps;
      if ts != [] && ts[|ts| - 1] > hi {
        hi := ts[|ts| - 1];
      }
      assert hi == MaxBacks(ss[..i + 1], m);
      i := i + 1;
    }
    assert ss[..i] == ss;
  }

  /** The two maxTS loops of findMinMax: the streams' last timestamps, then the
      events, may raise maxTS. */
  method LatestTimestamp(ss: seq<Stream>, es: seq<Event>, m: real) returns (hi: real)
    ensures hi == MaxTimestamp(ss, es, m)
  {
    hi := LatestBack(ss, m);
    ghost var n1 := hi;
    assert MaxEvents(es[..0], n1) == n1 by {
      assert es[..0] == [];
    }
    var i := 0;
    while i < |es|
      invariant i <= |es| && hi == MaxEvents(es[..i], n1)
      decreases |es| - i
    {
      assert es[..i + 1][..i] == es[..i];
      if hi < es[i].timestamp {
        hi := es[i].timestamp;
      }
      i := i + 1;
    }
    assert es[..i] == es;
  }

  /** findMajSR: srateMap built stream by stream (std::find_if on the rates so
      far), then the rate of its first entry with the most channels, 0 when no
      stream has a nonzero rate. */
  method MajorSamplingRate(ss: seq<Stream>) returns (rate: int)
    ensures rate == MajorRate(ss)
  {
    var t: seq<RateGroup> := [];
    assert ss[..0] == [];
    var st := 0;
    while st < |ss|
      invariant st <= |ss| && t == RateTable(ss[..st])
      decreases |ss| - st
    {
      assert ss[..st + 1][..st] == ss[..st];
      var r := ss[st].header.nominalSrate;
      if r != 0 {
        var i := Find(Keys(t), r);
        if i == |t| {
          t := t + [RateGroup(r, ss[st].header.channelCount)];
        } else {
          t := t[i := RateGroup(r, t[i].channels + ss[st].header.channelCount)];
        }
      }
      st := st + 1;
    }
    assert ss[..st] == ss;
    rate := if t == [] then 0 else t[FirstMax(t)].rate;
  }
}
