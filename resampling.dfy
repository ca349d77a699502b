/** The stream-level steps of resampleXDF: which streams are resampled, what
    resampling does to a stream, and the timestamp trimming of freeUpTimeStamps. */
module Resampling {
  import opened Base
  import opened Model
  import opened Stats

  /** The sample-rate converter resampleXDF drives, taken from outside: whether a
      filter from one rate to another can be built, and the samples one channel row
      becomes (the converted block followed by the flushed tail). The converter
      state is reset before every row, so a row's output depends on the row alone. */
  datatype Resampler = Resampler(
    filter: (int, int) -> bool,
    run: (int, int, seq<Sample>) -> seq<Sample>)

  /** The test of resampleXDF: a stream is resampled when it holds samples, its
      nominal rate differs from the target rate, and it is regular. */
  predicate Eligible(s: Stream, target: int)
  {
    s.timeSeries != [] && s.header.nominalSrate != target && s.header.nominalSrate != 0
  }

  /** Every channel row of s converted from its nominal rate to the target rate. */
  function ConvertRows(s: Stream, target: int, r: Resampler): (rows: seq<seq<Sample>>)
    ensures |rows| == |s.timeSeries|
    ensures forall w :: 0 <= w < |rows| ==>
      rows[w] == r.run(s.header.nominalSrate, target, s.timeSeries[w])
  {
    seq(|s.timeSeries|, w requires 0 <= w < |s.timeSeries| =>
      r.run(s.header.nominalSrate, target, s.timeSeries[w]))
  }

  /** Stream x after the resampling loop: its rows converted when it is eligible and
      the filter could be built, untouched otherwise. Nothing but the rows changes;
      in particular the nominal rate in the header is left as it was. */
  function Resample(s: Stream, target: int, r: Resampler): (t: Stream)
    ensures t.timeStamps == s.timeStamps && t.header == s.header && t.footer == s.footer
    ensures t.clockTimes == s.clockTimes && t.clockValues == s.clockValues
    ensures t.lastTimestamp == s.lastTimestamp && t.samplingInterval == s.samplingInterval
    ensures |t.timeSeries| == |s.timeSeries|
  {
    if Eligible(s, target) && r.filter(s.header.nominalSrate, target) then
      s.(timeSeries := ConvertRows(s, target, r))
    else s
  }

  /** The whole stream vector after the resampling loop. */
  function ResampleAll(ss: seq<Stream>, target: int, r: Resampler): (ts: seq<Stream>)
    ensures |ts| == |ss| && forall x :: 0 <= x < |ss| ==> ts[x] == Resample(ss[x], target, r)
  {
    seq(|ss|, x requires 0 <= x < |ss| => Resample(ss[x], target, r))
  }

  /** The converter is reset before every row, so what a channel row becomes
      depends on that row and the two rates alone: two streams with the same
      nominal rate that agree on row w agree on it after resampling, whatever
      their other rows and timestamps. */
  lemma {:induction false} ResampleRowLocal(s: Stream, t: Stream, target: int, r: Resampler, w: nat)
    requires s.header.nominalSrate == t.header.nominalSrate
    requires w < |s.timeSeries| && w < |t.timeSeries| && s.timeSeries[w] == t.timeSeries[w]
    ensures Resample(s, target, r).timeSeries[w] == Resample(t, target, r).timeSeries[w]
  {
  }

  /** Streams already at the target rate, irregular streams and streams without
      samples come out of the loop unchanged. */
  lemma {:induction false} ResampleSkips(s: Stream, target: int, r: Resampler)
    requires s.timeSeries == [] || s.header.nominalSrate == target || s.header.nominalSrate == 0
    ensures Resample(s, target, r) == s
  {
  }

  /** Because the header keeps its nominal rate, a resampled stream is still
      eligible: a second call of resampleXDF converts its rows once more. */
  lemma {:induction false} ResampledStaysEligible(s: Stream, target: int, r: Resampler)
    requires Eligible(s, target)
    ensures Eligible(Resample(s, target, r), target)
  {
  }

  /** Resampling keeps the stream count, the clock-offset pairing and, stream by
      stream, the timestamps and the count of channel rows. */
  lemma {:induction false} ResampleAllKeeps(ss: seq<Stream>, target: int, r: Resampler, x: nat)
    requires x < |ss|
    ensures |ResampleAll(ss, target, r)| == |ss|
    ensures ResampleAll(ss, target, r)[x].timeStamps == ss[x].timeStamps
    ensures |ResampleAll(ss, target, r)[x].timeSeries| == |ss[x].timeSeries|
    ensures ClocksParallel(ss[x]) ==> ClocksParallel(ResampleAll(ss, target, r)[x])
  {
  }

  /** freeUpTimeStamps on one stream as written: a regular stream keeps only its
      first timestamp, taken with front(), which has no value for an empty vector
      (None); an irregular stream keeps all of its timestamps. */
  function FreedAsWritten(s: Stream): (t: Option<Stream>)
    ensures t.None? <==> s.header.nominalSrate != 0 && s.timeStamps == []
  {
    if s.header.nominalSrate == 0 then Some(s)
    else if s.timeStamps == [] then None
    else Some(s.(timeStamps := [s.timeStamps[0]]))
  }

  /** A regular stream that was declared but never received samples makes the
      as-written step read the front of an empty vector. */
  lemma HeaderOnlyStreamHasNoFront()
    ensures FreedAsWritten(DefaultStream.(header := EmptyHeader.(nominalSrate := 100))) == None
  {
  }

  /** freeUpTimeStamps on one stream, with the empty case kept empty: a regular
      stream keeps at most its first timestamp, an irregular one keeps all. */
  function Freed(s: Stream): (t: Stream)
    ensures t.timeSeries == s.timeSeries && t.header == s.header && t.footer == s.footer
    ensures t.clockTimes == s.clockTimes && t.clockValues == s.clockValues
    ensures t.lastTimestamp == s.lastTimestamp && t.samplingInterval == s.samplingInterval
  {
    if s.header.nominalSrate == 0 || s.timeStamps == [] then s
    else s.(timeStamps := [s.timeStamps[0]])
  }

  /** The corrected step agrees with the written one wherever that one is defined,
      never keeps more than one timestamp of a regular stream, always keeps the
      first one, and leaves irregular streams whole. */
  lemma {:induction false} FreedKeepsFront(s: Stream)
    ensures FreedAsWritten(s).Some? ==> FreedAsWritten(s) == Some(Freed(s))
    ensures s.header.nominalSrate != 0 ==> |Freed(s).timeStamps| == if s.timeStamps == [] then 0 else 1
    ensures s.timeStamps != [] ==> Freed(s).timeStamps != [] && Freed(s).timeStamps[0] == s.timeStamps[0]
    ensures s.header.nominalSrate == 0 ==> Freed(s) == s
  {
  }

  /** Trimming twice trims no further. */
  lemma {:induction false} FreedIdempotent(s: Stream)
    ensures Freed(Freed(s)) == Freed(s)
  {
  }

  /** The stream vector after freeUpTimeStamps, with the empty case kept empty. */
  function FreedAll(ss: seq<Stream>): (ts: seq<Stream>)
    ensures |ts| == |ss| && forall x :: 0 <= x < |ss| ==> ts[x] == Freed(ss[x])
  {
    seq(|ss|, x requires 0 <= x < |ss| => Freed(ss[x]))
  }

  /** The trim keeps whether each stream has a timestamp and what its first one is,
      so a later findMinMax would find the same minTS. */
  lemma {:induction false} FreedKeepsMinimum(ss: seq<Stream>, es: seq<Event>, m: real)
    ensures MinTimestamp(FreedAll(ss), es, m) == MinTimestamp(ss, es, m)
  {
    FreedSameFirstFront(ss, m);
    FreedSameMinFronts(ss, FirstFront(ss, m));
  }

  lemma {:induction false} FreedSameFirstFront(ss: seq<Stream>, m: real)
    ensures FirstFront(FreedAll(ss), m) == FirstFront(ss, m)
  {
    if ss != [] {
      FreedKeepsFront(ss[0]);
      assert FreedAll(ss)[1..] == FreedAll(ss[1..]);
      FreedSameFirstFront(ss[1..], m);
    }
  }

  lemma {:induction false} FreedSameMinFronts(ss: seq<Stream>, m: real)
    ensures MinFronts(FreedAll(ss), m) == MinFronts(ss, m)
  {
    if ss != [] {
      FreedKeepsFront(ss[|ss| - 1]);
      assert FreedAll(ss)[..|ss| - 1] == FreedAll(ss[..|ss| - 1]);
      FreedSameMinFronts(ss[..|ss| - 1], m);
    }
  }

  /** The body of the resampling loop for one stream: each channel row in turn. */
  method ResampleStream(s: Stream, target: int, r: Resampler) returns (t: Stream)
    ensures t == Resample(s, target, r)
  {
    var fsin := s.header.nominalSrate;
    if !(Eligible(s, target) && r.filter(fsin, target)) {
      return s;
    }
    var rows := s.timeSeries;
    var w := 0;
    while w < |rows|
      invariant w <= |rows| == |s.timeSeries|
      invariant forall j :: 0 <= j < w ==> rows[j] == r.run(fsin, target, s.timeSeries[j])
      invariant forall j :: w <= j < |rows| ==> rows[j] == s.timeSeries[j]
      decreases |rows| - w
    {
      rows := rows[w := r.run(fsin, target, rows[w])];
      w := w + 1;
    }
    assert rows == ConvertRows(s, target, r);
    return s.(timeSeries := rows);
  }

  /** The resampling loop of resampleXDF over all streams. */
  method ResampleStreams(ss0: seq<Stream>, target: int, r: Resampler) returns (ss: seq<Stream>)
    ensures ss == ResampleAll(ss0, target, r)
  {
    ss := ss0;
    var x := 0;
    while x < |ss|
      invariant x <= |ss| == |ss0|
      invariant forall j :: 0 <= j < x ==> ss[j] == Resample(ss0[j], target, r)
      invariant forall j :: x <= j < |ss0| ==> ss[j] == ss0[j]
      decreases |ss| - x
    {
      var t := ResampleStream(ss[x], target, r);
      ss := ss[x := t];
      x := x + 1;
    }
  }

  /** The loop of freeUpTimeStamps, with the empty case kept empty. */
  method FreeTimeStamps(ss0: seq<Stream>) returns (ss: seq<Stream>)
    ensures ss == FreedAll(ss0)
  {
    ss := ss0;
    var st := 0;
    while st < |ss|
      invariant st <= |ss| == |ss0|
      invariant forall j :: 0 <= j < st ==> ss[j] == Freed(ss0[j])
      invariant forall j :: st <= j < |ss0| ==> ss[j] == ss0[j]
      decreases |ss| - st
    {
      var s := ss[st];
      if s.header.nominalSrate != 0 && s.timeStamps != [] {
        ss := ss[st := s.(timeStamps := [s.timeStamps[0]])];
      }
      st := st + 1;
    }
  }
}
