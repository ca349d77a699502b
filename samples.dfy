/** The Samples chunk decoder: a record count, then per record a timestamp and
    either one fixed-width value per channel (numeric formats) or one event string
    (the string format). */
module Samples {
  import opened Base
  import opened Bytes
  import opened Model
  import opened Wire

  /** How many channel values a record carries: the loop `v < channel_count` runs
      max(0, channel_count) times. */
  function Fill(cc: int): nat
  {
    if cc < 0 then 0 else cc
  }

  /** The timestamp of one record: a presence byte, then an explicit 8-byte double
      when that byte is 8; otherwise the stream's last timestamp plus its sampling
      interval. */
  function RecordTime(c: Codecs, data: seq<byte>, q: nat, s: Stream): (r: Option<Parsed<real>>)
    ensures r.Some? ==> q < r.value.next <= |data|
    ensures r.Some? <==> q < |data| && (data[q] == 8 ==> q + 9 <= |data|)
    ensures r.Some? && data[q] == 8 ==> r.value.value == c.float64(data[q + 1..q + 9])
    ensures r.Some? && data[q] != 8 ==> r.value.value == s.lastTimestamp + s.samplingInterval
  {
    if q >= |data| then None
    else if data[q] == 8 then
      (if q + 9 <= |data| then Some(Parsed(c.float64(data[q + 1..q + 9]), q + 9)) else None)
    else Some(Parsed(s.lastTimestamp + s.samplingInterval, q + 1))
  }

  /** The channel loop of one numeric record, from channel v on: each value read is
      appended to its own row, rows past n are left alone. */
  function ChannelLoop(data: seq<byte>, p: nat, f: Format, v: nat, n: nat, rows: seq<seq<Sample>>)
    : (r: Option<Parsed<seq<seq<Sample>>>>)
    requires IsNumeric(f) && v <= n <= |rows| && p <= |data|
    decreases n - v
    ensures r.Some? ==> p <= r.value.next <= |data| && |r.value.value| == |rows|
    ensures r.Some? ==> forall w :: 0 <= w < |rows| && !(v <= w < n) ==> r.value.value[w] == rows[w]
    ensures r.Some? ==> forall w :: v <= w < n ==>
      |r.value.value[w]| == |rows[w]| + 1 && r.value.value[w][..|rows[w]|] == rows[w]
  {
    if v == n then Some(Parsed(rows, p))
    else if p + Width(f) > |data| then None
    else
      var rows' := rows[v := rows[v] + [DecodeValue(f, data[p..p + Width(f)])]];
      assert rows'[v][..|rows[v]|] == rows[v];
      ChannelLoop(data, p + Width(f), f, v + 1, n, rows')
  }

  /** The w-th value of format f in a record whose values start at p. */
  function ValueAt(data: seq<byte>, p: nat, f: Format, w: nat): Option<Sample>
    requires IsNumeric(f)
  {
    if p + (w + 1) * Width(f) <= |data| then Some(DecodeValue(f, data[p + w * Width(f)..p + (w + 1) * Width(f)]))
    else None
  }

  /** One numeric record: its timestamp is appended to timeStamps and one value to
      each of the first channel_count rows; nothing else in the stream changes. */
  function NumericRecord(c: Codecs, data: seq<byte>, q: nat, f: Format, s: Stream): (r: Option<Parsed<Stream>>)
    requires IsNumeric(f) && Fill(s.header.channelCount) <= |s.timeSeries|
    ensures r.Some? ==> q < r.value.next <= |data|
    ensures r.Some? ==>
      RecordTime(c, data, q, s).Some? &&
      r.value.value == s.(timeSeries := r.value.value.timeSeries,
                          timeStamps := s.timeStamps + [RecordTime(c, data, q, s).value.value])
    ensures r.Some? ==> |r.value.value.timeSeries| == |s.timeSeries|
    ensures r.Some? ==> forall w :: Fill(s.header.channelCount) <= w < |s.timeSeries| ==>
      r.value.value.timeSeries[w] == s.timeSeries[w]
    ensures r.Some? ==> forall w :: 0 <= w < Fill(s.header.channelCount) ==>
      |r.value.value.timeSeries[w]| == |s.timeSeries[w]| + 1 &&
      r.value.value.timeSeries[w][..|s.timeSeries[w]|] == s.timeSeries[w]
  {
    match RecordTime(c, data, q, s)
    case None => None
    case Some(t) =>
      match ChannelLoop(data, t.next, f, 0, Fill(s.header.channelCount), s.timeSeries)
      case None => None
      case Some(rows) =>
        Some(Parsed(s.(timeSeries := rows.value, timeStamps := s.timeStamps + [t.value]), rows.next))
  }

  /** The record loop of a numeric Samples chunk, from record i of n on. */
  function RecordLoop(c: Codecs, data: seq<byte>, q: nat, f: Format, i: nat, n: nat, s: Stream)
    : (r: Option<Parsed<Stream>>)
    requires IsNumeric(f) && Fill(s.header.channelCount) <= |s.timeSeries| && i <= n && q <= |data|
    decreases n - i
    ensures r.Some? ==> q <= r.value.next <= |data|
    ensures r.Some? ==>
      r.value.value == s.(timeSeries := r.value.value.timeSeries, timeStamps := r.value.value.timeStamps)
    ensures r.Some? ==>
      |r.value.value.timeStamps| == |s.timeStamps| + (n - i) &&
      r.value.value.timeStamps[..|s.timeStamps|] == s.timeStamps
    ensures r.Some? ==> |r.value.value.timeSeries| == |s.timeSeries|
    ensures r.Some? ==> forall w :: Fill(s.header.channelCount) <= w < |s.timeSeries| ==>
      r.value.value.timeSeries[w] == s.timeSeries[w]
    ensures r.Some? ==> forall w :: 0 <= w < Fill(s.header.channelCount) ==>
      |r.value.value.timeSeries[w]| == |s.timeSeries[w]| + (n - i) &&
      r.value.value.timeSeries[w][..|s.timeSeries[w]|] == s.timeSeries[w]
  {
    if i == n then Some(Parsed(s, q))
    else
      match NumericRecord(c, data, q, f, s)
      case None => None
      case Some(one) =>
        var r := RecordLoop(c, data, one.next, f, i + 1, n, one.value);
        if r.Some? then
          assert r.value.value.timeStamps[..|s.timeStamps|]
              == r.value.value.timeStamps[..|one.value.timeStamps|][..|s.timeStamps|];
          assert forall w :: 0 <= w < Fill(s.header.channelCount) ==>
            r.value.value.timeSeries[w][..|s.timeSeries[w]|]
              == r.value.value.timeSeries[w][..|one.value.timeSeries[w]|][..|s.timeSeries[w]|];
          r
        else r
  }

  /** std::string built from a NUL-terminated buffer: the longest prefix of b free of
      0 bytes. */
  function CString(b: seq<byte>): (t: string)
    ensures |t| <= |b|
    ensures forall i :: 0 <= i < |t| ==> b[i] != 0 && t[i] == b[i] as char
    ensures |t| < |b| ==> b[|t|] == 0
  {
    if b == [] || b[0] == 0 then [] else [b[0] as char] + CString(b[1..])
  }

  /** What decoding a Samples chunk reaches: the updated stream, the event log, and
      the cursor after the chunk. */
  datatype Progress = Progress(stream: Stream, events: seq<Event>, next: nat)

  /** One record of a string-format stream: its timestamp, then a length prefix and
      the event text. An indicator that is not 1, 4 or 8 adds no event. The stream's
      last timestamp becomes the record's timestamp either way. */
  function EventRecord(c: Codecs, data: seq<byte>, q: nat, s: Stream, events: seq<Event>): (r: Option<Progress>)
    ensures r.Some? ==> q < r.value.next <= |data|
    ensures r.Some? ==>
      RecordTime(c, data, q, s).Some? &&
      var t := RecordTime(c, data, q, s).value;
      t.next < |data| &&
      r.value.stream == s.(lastTimestamp := t.value) &&
      if IsWidth(data[t.next]) then
        ReadLength(data, t.next).Some? &&
        var len := ReadLength(data, t.next).value;
        r.value.next == len.next + len.value &&
        r.value.events == events + [Event(CString(data[len.next..len.next + len.value]), t.value)]
      else
        r.value.next == t.next + 1 && r.value.events == events
  {
    match RecordTime(c, data, q, s)
    case None => None
    case Some(t) =>
      if t.next >= |data| then None
      else if !IsWidth(data[t.next]) then Some(Progress(s.(lastTimestamp := t.value), events, t.next + 1))
      else
        match ReadLength(data, t.next)
        case None => None
        case Some(len) =>
          if len.next + len.value > |data| then None
          else
            var text := CString(data[len.next..len.next + len.value]);
            Some(Progress(s.(lastTimestamp := t.value), events + [Event(text, t.value)], len.next + len.value))
  }

  /** The record loop of a string-format Samples chunk, from record i of n on: only
      the event log grows and only the stream's last timestamp changes. */
  function EventLoop(c: Codecs, data: seq<byte>, q: nat, i: nat, n: nat, s: Stream, events: seq<Event>)
    : (r: Option<Progress>)
    requires i <= n && q <= |data|
    decreases n - i
    ensures r.Some? ==> q <= r.value.next <= |data|
    ensures r.Some? ==> r.value.stream == s.(lastTimestamp := r.value.stream.lastTimestamp)
    ensures r.Some? ==> |events| <= |r.value.events| <= |events| + (n - i)
    ensures r.Some? ==> r.value.events[..|events|] == events
  {
    if i == n then Some(Progress(s, events, q))
    else
      match EventRecord(c, data, q, s, events)
      case None => None
      case Some(one) =>
        var r := EventLoop(c, data, one.next, i + 1, n, one.stream, one.events);
        if r.Some? then
          assert r.value.events[..|events|] == r.value.events[..|one.events|][..|events|];
          r
        else r
  }

  /** The body of a Samples chunk after its stream id, for the stream s it names:
      the record count, then records as the stream's channel_format says. A stream
      whose format is unrecognised or empty consumes only the count. */
  function SamplesPayload(c: Codecs, data: seq<byte>, p: nat, s: Stream, events: seq<Event>): (r: Option<Progress>)
    requires p <= |data|
    ensures r.Some? ==> p < r.value.next <= |data|
    ensures r.Some? ==> |events| <= |r.value.events| && r.value.events[..|events|] == events
    ensures r.Some? ==>
      r.value.stream.header == s.header && r.value.stream.footer == s.footer &&
      r.value.stream.samplingInterval == s.samplingInterval &&
      r.value.stream.clockTimes == s.clockTimes && r.value.stream.clockValues == s.clockValues
    ensures r.Some? && FormatOf(s.header.channelFormat) != Text ==>
      r.value.events == events && r.value.stream.lastTimestamp == s.lastTimestamp
    ensures r.Some? && FormatOf(s.header.channelFormat) == Text ==>
      r.value.stream.timeSeries == s.timeSeries && r.value.stream.timeStamps == s.timeStamps
    ensures r.Some? && FormatOf(s.header.channelFormat) == Unrecognised ==>
      ReadLength(data, p).Some? && r.value.stream == s && r.value.next == ReadLength(data, p).value.next
  {
    match ReadLength(data, p)
    case None => None
    case Some(count) =>
      var f := FormatOf(s.header.channelFormat);
      if f == Text then
        EventLoop(c, data, count.next, 0, count.value, s, events)
      else if f == Unrecognised then
        Some(Progress(s, events, count.next))
      else
        var cc := s.header.channelCount;
        if s.timeSeries == [] && cc < 0 then None
        else
          var s1 := if s.timeSeries == [] then s.(timeSeries := seq(cc, _ => [])) else s;
          if Fill(cc) > |s1.timeSeries| then
            (if count.value > 0 then None else Some(Progress(s1, events, count.next)))
          else
            match RecordLoop(c, data, count.next, f, 0, count.value, s1)
            case None => None
            case Some(rec) => Some(Progress(rec.value, events, rec.next))
  }

  lemma ChannelStep(data: seq<byte>, p: nat, f: Format, v: nat, n: nat, rows: seq<seq<Sample>>)
    requires IsNumeric(f) && v < n <= |rows| && p + Width(f) <= |data|
    ensures ChannelLoop(data, p, f, v, n, rows) ==
      ChannelLoop(data, p + Width(f), f, v + 1, n, rows[v := rows[v] + [DecodeValue(f, data[p..p + Width(f)])]])
  {
  }

  /** One numeric record: its timestamp, then the channel loop. */
  method ReadNumericRecord(c: Codecs, data: seq<byte>, q: nat, f: Format, s: Stream)
    returns (r: Option<Parsed<Stream>>)
    requires IsNumeric(f) && Fill(s.header.channelCount) <= |s.timeSeries|
    ensures r == NumericRecord(c, data, q, f, s)
  {
    var t := RecordTime(c, data, q, s);
    if t.None? {
      return None;
    }
    var cc, w := Fill(s.header.channelCount), Width(f);
    var rows, p: nat, v: nat := s.timeSeries, t.value.next, 0;
    while v < cc
      invariant v <= cc && |rows| == |s.timeSeries| && p <= |data|
      invariant ChannelLoop(data, t.value.next, f, 0, cc, s.timeSeries) == ChannelLoop(data, p, f, v, cc, rows)
      decreases cc - v
    {
      if p + w > |data| {
        return None;
      }
      ChannelStep(data, p, f, v, cc, rows);
      rows := rows[v := rows[v] + [DecodeValue(f, data[p..p + w])]];
      p, v := p + w, v + 1;
    }
    return Some(Parsed(s.(timeSeries := rows, timeStamps := s.timeStamps + [t.value.value]), p));
  }

  /** The numeric record loop, as each numeric branch of the Samples handler runs it. */
  method ReadNumericRecords(c: Codecs, data: seq<byte>, q0: nat, f: Format, n: nat, s0: Stream)
    returns (r: Option<Parsed<Stream>>)
    requires IsNumeric(f) && Fill(s0.header.channelCount) <= |s0.timeSeries| && q0 <= |data|
    ensures r == RecordLoop(c, data, q0, f, 0, n, s0)
  {
    var s, q: nat, i: nat := s0, q0, 0;
    while i < n
      invariant i <= n && q <= |data|
      invariant s.header == s0.header && Fill(s0.header.channelCount) <= |s.timeSeries|
      invariant RecordLoop(c, data, q0, f, 0, n, s0) == RecordLoop(c, data, q, f, i, n, s)
      decreases n - i
    {
      var one := ReadNumericRecord(c, data, q, f, s);
      if one.None? {
        return None;
      }
      s, q, i := one.value.value, one.value.next, i + 1;
    }
    return Some(Parsed(s, q));
  }

  /** The record loop of the string branch of the Samples handler. */
  method ReadEventRecords(c: Codecs, data: seq<byte>, q0: nat, n: nat, s0: Stream, events0: seq<Event>)
    returns (r: Option<Progress>)
    requires q0 <= |data|
    ensures r == EventLoop(c, data, q0, 0, n, s0, events0)
  {
    var s, events, q: nat, i: nat := s0, events0, q0, 0;
    while i < n
      invariant i <= n && q <= |data|
      invariant EventLoop(c, data, q0, 0, n, s0, events0) == EventLoop(c, data, q, i, n, s, events)
      decreases n - i
    {
      var one := EventRecord(c, data, q, s, events);
      if one.None? {
        return None;
      }
      s, events, q, i := one.value.stream, one.value.events, one.value.next, i + 1;
    }
    return Some(Progress(s, events, q));
  }

  /** The Samples handler after the stream id has been resolved. */
  method ReadSamples(c: Codecs, data: seq<byte>, p: nat, s: Stream, events: seq<Event>)
    returns (r: Option<Progress>)
    requires p <= |data|
    ensures r == SamplesPayload(c, data, p, s, events)
  {
    var count := ReadLength(data, p);
    if count.None? {
      return None;
    }
    var numSamp, q := count.value.value, count.value.next;
    var f := FormatOf(s.header.channelFormat);
    if f == Text {
      r := ReadEventRecords(c, data, q, numSamp, s, events);
    } else if f == Unrecognised {
      r := Some(Progress(s, events, q));
    } else {
      var cc := s.header.channelCount;
      if s.timeSeries == [] && cc < 0 {
        return None;
      }
      var s1 := if s.timeSeries == [] then s.(timeSeries := seq(cc, _ => [])) else s;
      if Fill(cc) > |s1.timeSeries| {
        r := if numSamp > 0 then None else Some(Progress(s1, events, q));
      } else {
        var rec := ReadNumericRecords(c, data, q, f, numSamp, s1);
        r := if rec.None? then None else Some(Progress(rec.value.value, events, rec.value.next));
      }
    }
  }
}

module SamplesFacts {
  import opened Base
  import opened Bytes
  import opened Model
  import opened Wire
  import opened Samples

  /** The shape a numeric stream keeps while its header stays put: every row as
      long as the timestamp list, and either the rows not yet sized or exactly
      channel_count of them. */
  predicate Shaped(s: Stream)
  {
    RowsAligned(s) &&
    (s.timeSeries == [] ==> s.timeStamps == [] || Fill(s.header.channelCount) == 0) &&
    (s.timeSeries != [] ==> |s.timeSeries| == Fill(s.header.channelCount))
  }

  /** A Samples chunk, of any format, keeps a stream's rows aligned with its
      timestamps. */
  lemma SamplesKeepShape(c: Codecs, data: seq<byte>, p: nat, s: Stream, events: seq<Event>)
    requires p <= |data| && Shaped(s)
    requires SamplesPayload(c, data, p, s, events).Some?
    ensures Shaped(SamplesPayload(c, data, p, s, events).value.stream)
  {
    var count := ReadLength(data, p).value;
    var f := FormatOf(s.header.channelFormat);
    if f != Text && f != Unrecognised {
      var cc := s.header.channelCount;
      var s1 := if s.timeSeries == [] then s.(timeSeries := seq(cc, _ => [])) else s;
      assert Shaped(s1);
      if Fill(cc) <= |s1.timeSeries| {
        var rec := RecordLoop(c, data, count.next, f, 0, count.value, s1).value.value;
        assert |rec.timeSeries| == Fill(cc);
        forall v | 0 <= v < |rec.timeSeries|
          ensures |rec.timeSeries[v]| == |rec.timeStamps|
        {
        }
      }
    }
  }

  /** The value the channel loop appends to row w is the w-th value of the
      record: the Width(f) bytes (w - v) values after p, decoded. */
  lemma {:induction false} ChannelLoopValue(data: seq<byte>, p: nat, f: Format, v: nat, n: nat,
                                            rows: seq<seq<Sample>>, w: nat)
    requires IsNumeric(f) && v <= w < n <= |rows| && p <= |data|
    requires ChannelLoop(data, p, f, v, n, rows).Some?
    ensures ValueAt(data, p, f, w - v) == Some(ChannelLoop(data, p, f, v, n, rows).value.value[w][|rows[w]|])
    decreases n - v
  {
    if w == v {
      ChannelLoopFirst(data, p, f, v, n, rows);
    } else {
      var k := Width(f);
      var rows' := rows[v := rows[v] + [DecodeValue(f, data[p..p + k])]];
      ChannelLoopStep(data, p, f, v, n, rows);
      assert rows'[w] == rows[w];
      ChannelLoopValue(data, p + k, f, v + 1, n, rows', w);
      ValueAtShift(data, p, f, w - v);
    }
  }

  /** The value the channel loop appends to row v is the first one at p. */
  lemma ChannelLoopFirst(data: seq<byte>, p: nat, f: Format, v: nat, n: nat, rows: seq<seq<Sample>>)
    requires IsNumeric(f) && v < n <= |rows| && p <= |data|
    requires ChannelLoop(data, p, f, v, n, rows).Some?
    ensures ValueAt(data, p, f, 0) == Some(ChannelLoop(data, p, f, v, n, rows).value.value[v][|rows[v]|])
  {
    var k := Width(f);
    var rows' := rows[v := rows[v] + [DecodeValue(f, data[p..p + k])]];
    ChannelLoopStep(data, p, f, v, n, rows);
    assert ChannelLoop(data, p + k, f, v + 1, n, rows').value.value[v] == rows'[v];
    assert rows'[v][|rows[v]|] == DecodeValue(f, data[p..p + k]);
  }



  /** One step of the channel loop: the value for channel v is read at p and the
      loop continues after it. */
  lemma ChannelLoopStep(data: seq<byte>, p: nat, f: Format, v: nat, n: nat, rows: seq<seq<Sample>>)
    requires IsNumeric(f) && v < n <= |rows| && p <= |data|
    requires ChannelLoop(data, p, f, v, n, rows).Some?
    ensures p + Width(f) <= |data|
    ensures ChannelLoop(data, p, f, v, n, rows) ==
      ChannelLoop(data, p + Width(f), f, v + 1, n, rows[v := rows[v] + [DecodeValue(f, data[p..p + Width(f)])]])
  {
  }

  lemma MulSucc(a: int, k: int)
    ensures (a + 1) * k == a * k + k
  {
  }

  /** The j-th value after p is the (j-1)-th value after the first one. */
  lemma ValueAtShift(data: seq<byte>, p: nat, f: Format, j: nat)
    requires IsNumeric(f) && j > 0
    ensures ValueAt(data, p + Width(f), f, j - 1) == ValueAt(data, p, f, j)
  {
    var k := Width(f);
    MulSucc(j - 1, k);
    MulSucc(j, k);
  }

  /** The w-th value of the numeric record read at st: the Width(f) bytes that
      start w values after the record's timestamp, decoded in the stream's format. */
  function StoredValue(c: Codecs, data: seq<byte>, f: Format, st: Parsed<Stream>, w: nat): Option<Sample>
    requires IsNumeric(f)
  {
    match RecordTime(c, data, st.next, st.value)
    case Some(t) => ValueAt(data, t.next, f, w)
    case None => None
  }

  /** t is the timestamp a record starting at p takes for stream s: the 8-byte
      time after a presence byte of 8, otherwise the stream's last timestamp plus
      its sampling interval. */
  predicate TimeReadAt(c: Codecs, data: seq<byte>, p: nat, s: Stream, t: real)
  {
    p < |data| &&
    (data[p] == 8 ==> p + 9 <= |data| && t == c.float64(data[p + 1..p + 9])) &&
    (data[p] != 8 ==> t == s.lastTimestamp + s.samplingInterval)
  }

  /** The cursor and stream after the first k records of a numeric Samples chunk
      read from q, or None when the input ends within them. */
  function NumericAt(c: Codecs, data: seq<byte>, q: nat, f: Format, s: Stream, k: nat): Option<Parsed<Stream>>
    requires IsNumeric(f) && Fill(s.header.channelCount) <= |s.timeSeries|
    decreases k
  {
    if k == 0 then Some(Parsed(s, q))
    else
      match NumericRecord(c, data, q, f, s)
      case None => None
      case Some(one) => NumericAt(c, data, one.next, f, one.value, k - 1)
  }

  /** The timestamp the record loop appends for record k (counting from i) is
      read at the cursor where record k starts: the 8-byte time after a presence
      byte of 8, otherwise the stream's last timestamp plus its sampling interval
      as they stood before the chunk (the numeric handler never moves the last
      timestamp). */
  lemma {:induction false} NumericTimestampAt(c: Codecs, data: seq<byte>, q: nat, f: Format, i: nat, n: nat,
                                              s: Stream, k: nat)
    requires IsNumeric(f) && Fill(s.header.channelCount) <= |s.timeSeries| && i <= n && q <= |data| && k < n - i
    requires RecordLoop(c, data, q, f, i, n, s).Some?
    ensures NumericAt(c, data, q, f, s, k).Some?
    ensures TimeReadAt(c, data, NumericAt(c, data, q, f, s, k).value.next, s,
                       RecordLoop(c, data, q, f, i, n, s).value.value.timeStamps[|s.timeStamps| + k])
    decreases k
  {
    if k == 0 {
      NumericStampFirst(c, data, q, f, i, n, s);
    } else {
      RecordLoopStep(c, data, q, f, i, n, s);
      var one := NumericRecord(c, data, q, f, s).value;
      NumericAtStep(c, data, q, f, s, k);
      NumericTimestampAt(c, data, one.next, f, i + 1, n, one.value, k - 1);
      assert one.value.lastTimestamp == s.lastTimestamp && one.value.samplingInterval == s.samplingInterval;
      assert |one.value.timeStamps| + (k - 1) == |s.timeStamps| + k;
    }
  }

  /** The first record's timestamp is the first one the loop appends. */
  lemma NumericStampFirst(c: Codecs, data: seq<byte>, q: nat, f: Format, i: nat, n: nat, s: Stream)
    requires IsNumeric(f) && Fill(s.header.channelCount) <= |s.timeSeries| && i < n && q <= |data|
    requires RecordLoop(c, data, q, f, i, n, s).Some?
    ensures TimeReadAt(c, data, q, s, RecordLoop(c, data, q, f, i, n, s).value.value.timeStamps[|s.timeStamps|])
  {
    RecordLoopStep(c, data, q, f, i, n, s);
    var one := NumericRecord(c, data, q, f, s).value;
    var r := RecordLoop(c, data, one.next, f, i + 1, n, one.value).value.value;
    assert r.timeStamps[|s.timeStamps|] == r.timeStamps[..|one.value.timeStamps|][|s.timeStamps|];
  }


  /** The value the record loop appends to channel row w for record k (counting
      from i) is the w-th value of that record. */
  lemma NumericValueAt(c: Codecs, data: seq<byte>, q: nat, f: Format, i: nat, n: nat, s: Stream, k: nat, w: nat)
    requires LoopCompletes(c, data, q, f, i, n, s) && k < n - i && w < Fill(s.header.channelCount)
    ensures NumericAt(c, data, q, f, s, k).Some?
    ensures StoredValue(c, data, f, NumericAt(c, data, q, f, s, k).value, w) ==
            Some(RecordLoop(c, data, q, f, i, n, s).value.value.timeSeries[w][|s.timeSeries[w]| + k])
  {
    LoopIsNumericAt(c, data, q, f, i, n, s);
    NumericValueIn(c, data, q, f, s, k, n - i, w);
  }

  /** NumericValueAt for the row after the first K records, K > k. */
  lemma NumericValueIn(c: Codecs, data: seq<byte>, q: nat, f: Format, s: Stream, k: nat, K: nat, w: nat)
    requires IsNumeric(f) && Fill(s.header.channelCount) <= |s.timeSeries| && w < Fill(s.header.channelCount)
    requires k < K && NumericAt(c, data, q, f, s, K).Some?
    ensures NumericAt(c, data, q, f, s, k).Some?
    ensures var late := NumericAt(c, data, q, f, s, K).value.value;
      w < |late.timeSeries| && |s.timeSeries[w]| + k < |late.timeSeries[w]| &&
      StoredValue(c, data, f, NumericAt(c, data, q, f, s, k).value, w) == Some(late.timeSeries[w][|s.timeSeries[w]| + k])
  {
    RowPrefix(c, data, q, f, s, k + 1, K, w);
    NumericValueOf(c, data, q, f, s, k, w);
    var early := NumericAt(c, data, q, f, s, k + 1).value.value;
    RowExtendsAt(early, NumericAt(c, data, q, f, s, K).value.value, w, |s.timeSeries[w]| + k);
  }

  /** Record k's value for row w sits at index |s.timeSeries[w]| + k of the row
      the first k + 1 records build. */
  lemma NumericValueOf(c: Codecs, data: seq<byte>, q: nat, f: Format, s: Stream, k: nat, w: nat)
    requires IsNumeric(f) && Fill(s.header.channelCount) <= |s.timeSeries| && w < Fill(s.header.channelCount)
    requires NumericAt(c, data, q, f, s, k + 1).Some?
    ensures NumericAt(c, data, q, f, s, k).Some?
    ensures |NumericAt(c, data, q, f, s, k + 1).value.value.timeSeries| == |s.timeSeries|
    ensures |NumericAt(c, data, q, f, s, k + 1).value.value.timeSeries[w]| == |s.timeSeries[w]| + k + 1
    ensures StoredValue(c, data, f, NumericAt(c, data, q, f, s, k).value, w) ==
            Some(NumericAt(c, data, q, f, s, k + 1).value.value.timeSeries[w][|s.timeSeries[w]| + k])
  {
    var before := NumericAtLast(c, data, q, f, s, k);
    NumericAtRow(c, data, q, f, s, k, w);
    NumericRecordValue(c, data, before.next, f, before.value, w);
    assert before == Parsed(before.value, before.next);
  }

  /** The first k + 1 records are the first k followed by one more. */
  lemma {:induction false} NumericAtLast(c: Codecs, data: seq<byte>, q: nat, f: Format, s: Stream, k: nat)
    returns (before: Parsed<Stream>)
    requires IsNumeric(f) && Fill(s.header.channelCount) <= |s.timeSeries|
    requires NumericAt(c, data, q, f, s, k + 1).Some?
    ensures NumericAt(c, data, q, f, s, k) == Some(before)
    ensures before.value.header.channelCount == s.header.channelCount
    ensures |before.value.timeSeries| == |s.timeSeries|
    ensures NumericAt(c, data, q, f, s, k + 1) == NumericRecord(c, data, before.next, f, before.value)
    decreases k
  {
    NumericAtStep(c, data, q, f, s, k + 1);
    var one := NumericRecord(c, data, q, f, s).value;
    if k == 0 {
      before := Parsed(s, q);
      assert NumericAt(c, data, one.next, f, one.value, 0) == Some(one);
    } else {
      NumericAtStep(c, data, q, f, s, k);
      before := NumericAtLast(c, data, one.next, f, one.value, k - 1);
    }
  }

  /** Each of the first k records adds one value to row w. */
  lemma {:induction false} NumericAtRow(c: Codecs, data: seq<byte>, q: nat, f: Format, s: Stream, k: nat, w: nat)
    requires IsNumeric(f) && Fill(s.header.channelCount) <= |s.timeSeries| && w < Fill(s.header.channelCount)
    requires NumericAt(c, data, q, f, s, k).Some?
    ensures |NumericAt(c, data, q, f, s, k).value.value.timeSeries| == |s.timeSeries|
    ensures |NumericAt(c, data, q, f, s, k).value.value.timeSeries[w]| == |s.timeSeries[w]| + k
    decreases k
  {
    if k > 0 {
      NumericAtStep(c, data, q, f, s, k);
      var one := NumericRecord(c, data, q, f, s).value;
      NumericAtRow(c, data, one.next, f, one.value, k - 1, w);
    }
  }

  /** The record loop from record i of n on reads the same records as the
      first n - i records counted from q. */
  lemma {:induction false} LoopIsNumericAt(c: Codecs, data: seq<byte>, q: nat, f: Format, i: nat, n: nat, s: Stream)
    requires LoopCompletes(c, data, q, f, i, n, s)
    ensures RecordLoop(c, data, q, f, i, n, s) == NumericAt(c, data, q, f, s, n - i)
    decreases n - i
  {
    if i < n {
      var one := NumericStep(c, data, q, f, i, n, s, n - i);
      LoopIsNumericAt(c, data, one.next, f, i + 1, n, one.value);
    }
  }

  /** Row w after the first m records is a prefix of row w after the first K. */
  lemma {:induction false} RowPrefix(c: Codecs, data: seq<byte>, q: nat, f: Format, s: Stream, m: nat, K: nat, w: nat)
    requires IsNumeric(f) && Fill(s.header.channelCount) <= |s.timeSeries| && w < Fill(s.header.channelCount)
    requires m <= K && NumericAt(c, data, q, f, s, K).Some?
    ensures NumericAt(c, data, q, f, s, m).Some?
    ensures RowExtends(NumericAt(c, data, q, f, s, m).value.value, NumericAt(c, data, q, f, s, K).value.value, w)
    decreases K - m
  {
    if m == K {
      NumericAtRow(c, data, q, f, s, K, w);
    } else {
      var before := RowBeforeLast(c, data, q, f, s, K, w);
      RowPrefix(c, data, q, f, s, m, K - 1, w);
      RowExtendsTrans(NumericAt(c, data, q, f, s, m).value.value, before.value,
                      NumericAt(c, data, q, f, s, K).value.value, w);
    }
  }

  /** Row w of late begins with row w of early. */
  predicate RowExtends(early: Stream, late: Stream, w: nat)
  {
    w < |early.timeSeries| && w < |late.timeSeries| && |early.timeSeries[w]| <= |late.timeSeries[w]| &&
    late.timeSeries[w][..|early.timeSeries[w]|] == early.timeSeries[w]
  }

  lemma RowExtendsTrans(a: Stream, b: Stream, c: Stream, w: nat)
    requires RowExtends(a, b, w) && RowExtends(b, c, w)
    ensures RowExtends(a, c, w)
  {
    assert c.timeSeries[w][..|a.timeSeries[w]|] == c.timeSeries[w][..|b.timeSeries[w]|][..|a.timeSeries[w]|];
  }

  lemma RowExtendsAt(early: Stream, late: Stream, w: nat, j: nat)
    requires RowExtends(early, late, w) && j < |early.timeSeries[w]|
    ensures j < |late.timeSeries[w]| && late.timeSeries[w][j] == early.timeSeries[w][j]
  {
    assert late.timeSeries[w][j] == late.timeSeries[w][..|early.timeSeries[w]|][j];
  }

  /** The last of K records extends row w of what the records before it build. */
  lemma RowBeforeLast(c: Codecs, data: seq<byte>, q: nat, f: Format, s: Stream, K: nat, w: nat)
    returns (before: Parsed<Stream>)
    requires IsNumeric(f) && Fill(s.header.channelCount) <= |s.timeSeries| && w < Fill(s.header.channelCount)
    requires K > 0 && NumericAt(c, data, q, f, s, K).Some?
    ensures NumericAt(c, data, q, f, s, K - 1) == Some(before)
    ensures RowExtends(before.value, NumericAt(c, data, q, f, s, K).value.value, w)
  {
    before := NumericAtLast(c, data, q, f, s, K - 1);
  }

  /** The value one numeric record appends to row w: the w-th value after its
      timestamp. */
  lemma NumericRecordValue(c: Codecs, data: seq<byte>, q: nat, f: Format, s: Stream, w: nat)
    requires IsNumeric(f) && Fill(s.header.channelCount) <= |s.timeSeries| && w < Fill(s.header.channelCount)
    requires NumericRecord(c, data, q, f, s).Some?
    ensures StoredValue(c, data, f, Parsed(s, q), w) ==
                          Some(NumericRecord(c, data, q, f, s).value.value.timeSeries[w][|s.timeSeries[w]|])
  {
    var t := RecordTime(c, data, q, s).value;
    var rows := ChannelLoop(data, t.next, f, 0, Fill(s.header.channelCount), s.timeSeries);
    assert NumericRecord(c, data, q, f, s).value.value.timeSeries == rows.value.value;
    ChannelLoopValue(data, t.next, f, 0, Fill(s.header.channelCount), s.timeSeries, w);
    assert w - 0 == w;
  }

  /** One step of the record loop: the first record reads, and the rest of the
      loop continues from it. */
  lemma RecordLoopStep(c: Codecs, data: seq<byte>, q: nat, f: Format, i: nat, n: nat, s: Stream)
    requires IsNumeric(f) && Fill(s.header.channelCount) <= |s.timeSeries| && i < n && q <= |data|
    requires RecordLoop(c, data, q, f, i, n, s).Some?
    ensures NumericRecord(c, data, q, f, s).Some?
    ensures
      var one := NumericRecord(c, data, q, f, s).value;
      q < one.next <= |data| && one.value.header.channelCount == s.header.channelCount && |one.value.timeSeries| == |s.timeSeries| &&
      RecordLoop(c, data, q, f, i, n, s) == RecordLoop(c, data, one.next, f, i + 1, n, one.value)
  {
  }

  /** RecordLoopStep and NumericAtStep together, naming the first record. */
  lemma NumericStep(c: Codecs, data: seq<byte>, q: nat, f: Format, i: nat, n: nat, s: Stream, k: nat)
    returns (one: Parsed<Stream>)
    requires LoopCompletes(c, data, q, f, i, n, s) && i < n && k > 0
    ensures NumericRecord(c, data, q, f, s) == Some(one)
    ensures one.value.header.channelCount == s.header.channelCount
    ensures LoopCompletes(c, data, one.next, f, i + 1, n, one.value)
    ensures RecordLoop(c, data, q, f, i, n, s) == RecordLoop(c, data, one.next, f, i + 1, n, one.value)
    ensures NumericAt(c, data, q, f, s, k) == NumericAt(c, data, one.next, f, one.value, k - 1)
  {
    RecordLoopStep(c, data, q, f, i, n, s);
    one := NumericRecord(c, data, q, f, s).value;
    NumericAtStep(c, data, q, f, s, k);
  }

  /** The record loop of a numeric stream runs from record i to n without the
      input ending. */
  predicate LoopCompletes(c: Codecs, data: seq<byte>, q: nat, f: Format, i: nat, n: nat, s: Stream)
  {
    IsNumeric(f) && Fill(s.header.channelCount) <= |s.timeSeries| && i <= n && q <= |data| &&
    RecordLoop(c, data, q, f, i, n, s).Some?
  }


  /** Counting k records from q is counting k - 1 from the end of the first. */
  lemma NumericAtStep(c: Codecs, data: seq<byte>, q: nat, f: Format, s: Stream, k: nat)
    requires IsNumeric(f) && Fill(s.header.channelCount) <= |s.timeSeries| && k > 0
    requires NumericRecord(c, data, q, f, s).Some?
    ensures
      var one := NumericRecord(c, data, q, f, s).value;
      NumericAt(c, data, q, f, s, k) == NumericAt(c, data, one.next, f, one.value, k - 1)
  {
  }


  /** The progress after the first k records of a string-format Samples chunk
      read from q, or None when the input ends within them. */
  function EventsAt(c: Codecs, data: seq<byte>, q: nat, s: Stream, events: seq<Event>, k: nat): Option<Progress>
    decreases k
  {
    if k == 0 then Some(Progress(s, events, q))
    else
      match EventRecord(c, data, q, s, events)
      case None => None
      case Some(one) => EventsAt(c, data, one.next, one.stream, one.events, k - 1)
  }

  /** Whether the string record read at pr carries text: its timestamp is readable
      and the byte after it is a length width of 1, 4 or 8. */
  predicate CarriesText(c: Codecs, data: seq<byte>, pr: Progress)
  {
    RecordTime(c, data, pr.next, pr.stream).Some? &&
    RecordTime(c, data, pr.next, pr.stream).value.next < |data| &&
    IsWidth(data[RecordTime(c, data, pr.next, pr.stream).value.next])
  }

  /** One step of the record loop: the first record reads, and the rest of the
      loop continues from it. */
  lemma EventLoopStep(c: Codecs, data: seq<byte>, q: nat, i: nat, n: nat, s: Stream, events: seq<Event>)
    requires i < n && q <= |data| && EventLoop(c, data, q, i, n, s, events).Some?
    ensures EventRecord(c, data, q, s, events).Some?
    ensures
      var one := EventRecord(c, data, q, s, events).value;
      EventLoop(c, data, q, i, n, s, events) == EventLoop(c, data, one.next, i + 1, n, one.stream, one.events)
  {
  }

  /** Counting k records from q is counting k - 1 from the end of the first. */
  lemma EventsAtStep(c: Codecs, data: seq<byte>, q: nat, s: Stream, events: seq<Event>, k: nat)
    requires k > 0 && EventRecord(c, data, q, s, events).Some?
    ensures
      var one := EventRecord(c, data, q, s, events).value;
      EventsAt(c, data, q, s, events, k) == EventsAt(c, data, one.next, one.stream, one.events, k - 1)
  {
  }

  /** When the string record read at pr carries text, log holds its event at
      position |pr.events|: the record's text up to its first NUL byte, at the
      record's timestamp. */
  predicate LogsTextAt(c: Codecs, data: seq<byte>, pr: Progress, log: seq<Event>)
  {
    CarriesText(c, data, pr) ==>
      var t := RecordTime(c, data, pr.next, pr.stream).value;
      ReadLength(data, t.next).Some? &&
      var len := ReadLength(data, t.next).value;
      len.next + len.value <= |data| && |pr.events| < |log| &&
      log[|pr.events|] == Event(CString(data[len.next..len.next + len.value]), t.value)
  }

  /** An event logged stays logged when the log grows at its end. */
  lemma LogsTextAtExtends(c: Codecs, data: seq<byte>, pr: Progress, log: seq<Event>, log': seq<Event>)
    requires |log| <= |log'| && log'[..|log|] == log && LogsTextAt(c, data, pr, log)
    ensures LogsTextAt(c, data, pr, log')
  {
    if CarriesText(c, data, pr) {
      assert log'[|pr.events|] == log'[..|log|][|pr.events|];
    }
  }

  /** A string record adds one event exactly when it carries text, and that
      event is its text at its timestamp. */
  lemma EventRecordCarries(c: Codecs, data: seq<byte>, q: nat, s: Stream, events: seq<Event>)
    requires EventRecord(c, data, q, s, events).Some?
    ensures
      var one := EventRecord(c, data, q, s, events).value;
      (CarriesText(c, data, Progress(s, events, q)) <==> |one.events| == |events| + 1) &&
      (!CarriesText(c, data, Progress(s, events, q)) ==> one.events == events) &&
      LogsTextAt(c, data, Progress(s, events, q), one.events)
  {
  }

  /** The string record read at pr has a readable timestamp: the 8-byte time after
      a presence byte of 8, otherwise last plus the sampling interval. */
  predicate StampAt(c: Codecs, data: seq<byte>, pr: Progress, last: real, interval: real)
  {
    RecordTime(c, data, pr.next, pr.stream).Some? &&
    var t := RecordTime(c, data, pr.next, pr.stream).value.value;
    (data[pr.next] == 8 ==> t == c.float64(data[pr.next + 1..pr.next + 9])) &&
    (data[pr.next] != 8 ==> t == last + interval)
  }

  /** String record k (counting from i) reads a timestamp: the explicit 8-byte
      time after a presence byte of 8, or else the previous record's timestamp
      plus the sampling interval; for the first record, the stream's last
      timestamp before the chunk plus the interval. */
  lemma EventTimeAt(c: Codecs, data: seq<byte>, q: nat, i: nat, n: nat, s: Stream,
                    events: seq<Event>, k: nat)
    requires i <= n && q <= |data| && k < n - i && EventLoop(c, data, q, i, n, s, events).Some?
    ensures EventsAt(c, data, q, s, events, k).Some?
    ensures k == 0 ==> StampAt(c, data, EventsAt(c, data, q, s, events, k).value, s.lastTimestamp, s.samplingInterval)
    ensures k > 0 ==>
      EventsAt(c, data, q, s, events, k - 1).Some? &&
      var prev := EventsAt(c, data, q, s, events, k - 1).value;
      RecordTime(c, data, prev.next, prev.stream).Some? &&
      StampAt(c, data, EventsAt(c, data, q, s, events, k).value,
              RecordTime(c, data, prev.next, prev.stream).value.value, s.samplingInterval)
  {
    assert EventLoopRuns(c, data, q, i, n, s, events);
    EventLoopIsEventsAt(c, data, q, i, n, s, events);
    LogPrefix(c, data, q, s, events, k + 1, n - i);
    EventStampIn(c, data, q, s, events, k);
  }

  /** EventTimeAt for any k + 1 string records read from q. */
  lemma EventStampIn(c: Codecs, data: seq<byte>, q: nat, s: Stream, events: seq<Event>, k: nat)
    requires EventsAt(c, data, q, s, events, k + 1).Some?
    ensures EventsAt(c, data, q, s, events, k).Some?
    ensures k == 0 ==> StampAt(c, data, EventsAt(c, data, q, s, events, k).value, s.lastTimestamp, s.samplingInterval)
    ensures k > 0 ==>
      EventsAt(c, data, q, s, events, k - 1).Some? &&
      var prev := EventsAt(c, data, q, s, events, k - 1).value;
      RecordTime(c, data, prev.next, prev.stream).Some? &&
      StampAt(c, data, EventsAt(c, data, q, s, events, k).value,
              RecordTime(c, data, prev.next, prev.stream).value.value, s.samplingInterval)
  {
    var pr := EventsLast(c, data, q, s, events, k);
    assert RecordTime(c, data, pr.next, pr.stream).Some?;
    if k > 0 {
      var prev := EventsLast(c, data, q, s, events, k - 1);
      assert pr.stream.lastTimestamp == RecordTime(c, data, prev.next, prev.stream).value.value;
    }
  }

  /** The first k + 1 string records are the first k followed by one more; the
      stream after them differs from s in its last timestamp only. */
  lemma {:induction false} EventsLast(c: Codecs, data: seq<byte>, q: nat, s: Stream, events: seq<Event>, k: nat)
    returns (before: Progress)
    requires EventsAt(c, data, q, s, events, k + 1).Some?
    ensures EventsAt(c, data, q, s, events, k) == Some(before)
    ensures before.stream == s.(lastTimestamp := before.stream.lastTimestamp)
    ensures EventsAt(c, data, q, s, events, k + 1) == EventRecord(c, data, before.next, before.stream, before.events)
    decreases k
  {
    EventsAtStep(c, data, q, s, events, k + 1);
    var one := EventRecord(c, data, q, s, events).value;
    if k == 0 {
      before := Progress(s, events, q);
      assert EventsAt(c, data, one.next, one.stream, one.events, 0) == Some(one);
    } else {
      EventsAtStep(c, data, q, s, events, k);
      before := EventsLast(c, data, one.next, one.stream, one.events, k - 1);
    }
  }

  /** The string-record loop from record i of n on reads the same records as the
      first n - i records counted from q. */
  lemma {:induction false} EventLoopIsEventsAt(c: Codecs, data: seq<byte>, q: nat, i: nat, n: nat, s: Stream,
                                               events: seq<Event>)
    requires EventLoopRuns(c, data, q, i, n, s, events)
    ensures EventLoop(c, data, q, i, n, s, events) == EventsAt(c, data, q, s, events, n - i)
    decreases n - i
  {
    if i < n {
      var one := EventStep(c, data, q, i, n, s, events);
      EventLoopIsEventsAt(c, data, one.next, i + 1, n, one.stream, one.events);
    }
  }

  /** The string-record loop from record i of n on reads all its records. */
  predicate EventLoopRuns(c: Codecs, data: seq<byte>, q: nat, i: nat, n: nat, s: Stream, events: seq<Event>)
  {
    i <= n && q <= |data| && EventLoop(c, data, q, i, n, s, events).Some?
  }

  /** EventLoopStep and EventsAtStep together, naming the first record. */
  lemma EventStep(c: Codecs, data: seq<byte>, q: nat, i: nat, n: nat, s: Stream, events: seq<Event>)
    returns (one: Progress)
    requires EventLoopRuns(c, data, q, i, n, s, events) && i < n
    ensures EventLoopRuns(c, data, one.next, i + 1, n, one.stream, one.events)
    ensures EventLoop(c, data, q, i, n, s, events) == EventLoop(c, data, one.next, i + 1, n, one.stream, one.events)
    ensures EventsAt(c, data, q, s, events, n - i) == EventsAt(c, data, one.next, one.stream, one.events, n - (i + 1))
  {
    EventLoopStep(c, data, q, i, n, s, events);
    one := EventRecord(c, data, q, s, events).value;
    EventsAtStep(c, data, q, s, events, n - i);
  }

  /** The log after the first m string records is a prefix of the log after the
      first K. */
  lemma {:induction false} LogPrefix(c: Codecs, data: seq<byte>, q: nat, s: Stream, events: seq<Event>, m: nat, K: nat)
    requires m <= K && EventsAt(c, data, q, s, events, K).Some?
    ensures EventsAt(c, data, q, s, events, m).Some?
    ensures LogExtends(EventsAt(c, data, q, s, events, m).value.events, EventsAt(c, data, q, s, events, K).value.events)
    decreases K - m
  {
    if m < K {
      var before := EventsLast(c, data, q, s, events, K - 1);
      LogPrefix(c, data, q, s, events, m, K - 1);
      assert LogExtends(before.events, EventsAt(c, data, q, s, events, K).value.events);
      LogExtendsTrans(EventsAt(c, data, q, s, events, m).value.events, before.events,
                      EventsAt(c, data, q, s, events, K).value.events);
    }
  }

  /** log' begins with log. */
  predicate LogExtends(log: seq<Event>, log': seq<Event>)
  {
    |log| <= |log'| && log'[..|log|] == log
  }

  lemma LogExtendsTrans(a: seq<Event>, b: seq<Event>, c: seq<Event>)
    requires LogExtends(a, b) && LogExtends(b, c)
    ensures LogExtends(a, c)
  {
    assert c[..|a|] == c[..|b|][..|a|];
  }

  /** String record k (counting from i), when it carries text, leaves its event
      at position |events before it| of the final log: the record's text up to
      its first NUL byte, at the record's timestamp. */
  lemma EventTextAt(c: Codecs, data: seq<byte>, q: nat, i: nat, n: nat, s: Stream,
                    events: seq<Event>, k: nat)
    requires i <= n && q <= |data| && k < n - i && EventLoop(c, data, q, i, n, s, events).Some?
    ensures EventsAt(c, data, q, s, events, k).Some?
    ensures LogsTextAt(c, data, EventsAt(c, data, q, s, events, k).value, EventLoop(c, data, q, i, n, s, events).value.events)
  {
    assert EventLoopRuns(c, data, q, i, n, s, events);
    EventLoopIsEventsAt(c, data, q, i, n, s, events);
    EventTextIn(c, data, q, s, events, k, n - i);
  }

  /** EventTextAt for the log after the first K string records, K > k. */
  lemma EventTextIn(c: Codecs, data: seq<byte>, q: nat, s: Stream, events: seq<Event>, k: nat, K: nat)
    requires k < K && EventsAt(c, data, q, s, events, K).Some?
    ensures EventsAt(c, data, q, s, events, k).Some?
    ensures LogsTextAt(c, data, EventsAt(c, data, q, s, events, k).value, EventsAt(c, data, q, s, events, K).value.events)
  {
    LogPrefix(c, data, q, s, events, k + 1, K);
    var pr := EventsLast(c, data, q, s, events, k);
    var at := EventsAt(c, data, q, s, events, k + 1).value;
    EventRecordCarries(c, data, pr.next, pr.stream, pr.events);
    assert pr == Progress(pr.stream, pr.events, pr.next);
    LogsTextAtExtends(c, data, pr, at.events, EventsAt(c, data, q, s, events, K).value.events);
  }

  /** Each of the first m records read from q carries text. */
  predicate AllText(c: Codecs, data: seq<byte>, q: nat, s: Stream, events: seq<Event>, m: nat)
  {
    forall k :: 0 <= k < m ==>
      EventsAt(c, data, q, s, events, k).Some? && CarriesText(c, data, EventsAt(c, data, q, s, events, k).value)
  }

  /** The n - i records of a string-format Samples chunk append exactly n - i
      events if and only if every one of them carries text. */
  lemma {:induction false} EventCount(c: Codecs, data: seq<byte>, q: nat, i: nat, n: nat, s: Stream, events: seq<Event>)
    requires i <= n && q <= |data| && EventLoop(c, data, q, i, n, s, events).Some?
    ensures AllText(c, data, q, s, events, n - i) <==>
      |EventLoop(c, data, q, i, n, s, events).value.events| == |events| + (n - i)
    decreases n - i
  {
    if i < n {
      EventLoopStep(c, data, q, i, n, s, events);
      var one := EventRecord(c, data, q, s, events).value;
      EventCount(c, data, one.next, i + 1, n, one.stream, one.events);
      EventRecordCarries(c, data, q, s, events);
      AllTextStep(c, data, q, s, events, n - i);
    }
  }

  /** The first m records all carry text exactly when the first does and the
      m - 1 after it all do. */
  lemma AllTextStep(c: Codecs, data: seq<byte>, q: nat, s: Stream, events: seq<Event>, m: nat)
    requires m > 0 && EventRecord(c, data, q, s, events).Some?
    ensures
      var one := EventRecord(c, data, q, s, events).value;
      AllText(c, data, q, s, events, m) <==>
        CarriesText(c, data, Progress(s, events, q)) && AllText(c, data, one.next, one.stream, one.events, m - 1)
  {
    var one := EventRecord(c, data, q, s, events).value;
    forall k | 0 <= k < m - 1
      ensures EventsAt(c, data, q, s, events, k + 1) == EventsAt(c, data, one.next, one.stream, one.events, k)
    {
      EventsAtStep(c, data, q, s, events, k + 1);
    }
    if AllText(c, data, q, s, events, m) {
      assert EventsAt(c, data, q, s, events, 0).Some?;
      forall k | 0 <= k < m - 1
        ensures EventsAt(c, data, one.next, one.stream, one.events, k).Some?
        ensures CarriesText(c, data, EventsAt(c, data, one.next, one.stream, one.events, k).value)
      {
        assert EventsAt(c, data, q, s, events, k + 1).Some?;
      }
    }
    if CarriesText(c, data, Progress(s, events, q)) && AllText(c, data, one.next, one.stream, one.events, m - 1) {
      forall k | 0 <= k < m
        ensures EventsAt(c, data, q, s, events, k).Some?
        ensures CarriesText(c, data, EventsAt(c, data, q, s, events, k).value)
      {
        if k > 0 {
          assert EventsAt(c, data, one.next, one.stream, one.events, k - 1).Some?;
        }
      }
    }
  }

  /** A stream registered by any chunk starts with last timestamp 0, so once its
      header has set the sampling interval, an implicit timestamp of its first
      record is that interval. */
  lemma FreshStreamImplicitTime(c: Codecs, data: seq<byte>, q: nat, h: Header)
    requires q < |data| && data[q] != 8
    ensures
      var s := DefaultStream.(header := h, samplingInterval := SamplingInterval(h.nominalSrate));
      RecordTime(c, data, q, s) == Some(Parsed(SamplingInterval(h.nominalSrate), q + 1))
  {
  }

  /** Where a record's payload starts once its timestamp is read. */
  function AfterTime(data: seq<byte>, q: nat): nat
  {
    if q < |data| && data[q] == 8 then q + 9 else q + 1
  }

  /** A one-channel float32 record whose timestamp is readable. */
  lemma OneFloatRecord(c: Codecs, data: seq<byte>, q: nat, s: Stream)
    requires q < |data| && AfterTime(data, q) + 4 <= |data|
    requires s.header.channelCount == 1 && |s.timeSeries| == 1
    ensures RecordTime(c, data, q, s).Some?
    ensures NumericRecord(c, data, q, Float32, s) == Some(Parsed(
      s.(timeSeries := [s.timeSeries[0] + [Float32Bits(data[AfterTime(data, q)..AfterTime(data, q) + 4])]],
         timeStamps := s.timeStamps + [RecordTime(c, data, q, s).value.value]),
      AfterTime(data, q) + 4))
  {
    var p := AfterTime(data, q);
    var rows := s.timeSeries[0 := s.timeSeries[0] + [Float32Bits(data[p..p + 4])]];
    assert rows == [s.timeSeries[0] + [Float32Bits(data[p..p + 4])]];
    assert Width(Float32) == 4 && DecodeValue(Float32, data[p..p + 4]) == Float32Bits(data[p..p + 4]);
    assert RecordTime(c, data, q, s).value.next == p;
    assert ChannelLoop(data, p, Float32, 0, 1, s.timeSeries) == ChannelLoop(data, p + 4, Float32, 1, 1, rows);
    assert ChannelLoop(data, p + 4, Float32, 1, 1, rows) == Some(Parsed(rows, p + 4));
  }

  /** A string record whose text is the single byte x. */
  lemma OneCharEvent(c: Codecs, data: seq<byte>, q: nat, s: Stream, events: seq<Event>, x: byte)
    requires q < |data| && AfterTime(data, q) + 3 <= |data| && x != 0
    requires data[AfterTime(data, q)] == 1 && data[AfterTime(data, q) + 1] == 1 && data[AfterTime(data, q) + 2] == x
    ensures RecordTime(c, data, q, s).Some?
    ensures
      var ts := RecordTime(c, data, q, s).value.value;
      EventRecord(c, data, q, s, events)
        == Some(Progress(s.(lastTimestamp := ts), events + [Event([x as char], ts)], AfterTime(data, q) + 3))
  {
    var p := AfterTime(data, q);
    assert ReadLength(data, p) == Some(Parsed(1, p + 2)) by {
      assert data[p + 1..p + 2] == [1];
      assert LE([1]) == 1 + 256 * LE([]);
    }
    assert data[p + 2..p + 3] == [x];
    assert CString([x]) == [x as char];
  }

  /** The IEEE 754 double 1.0, least significant byte first. */
  const One: seq<byte> := [0, 0, 0, 0, 0, 0, 0xF0, 0x3F]

  /** Two records, the first with the explicit time One, the second implicit; each
      carries one float32 value (numeric) or the one-letter text A / B (string). */
  const NumericChunk: seq<byte> := [1, 2] + [8] + One + [0, 0, 0, 0] + [0] + [0, 0, 0, 0]
  const TextChunk: seq<byte> := [1, 2] + [8] + One + [1, 1, 0x41] + [0] + [1, 1, 0x42]

  /** A count of 2 in a one-byte length prefix. */
  lemma CountTwo(data: seq<byte>)
    requires |data| >= 2 && data[0] == 1 && data[1] == 2
    ensures ReadLength(data, 0) == Some(Parsed(2, 2))
  {
    assert data[1..2] == [2];
    assert LE([2]) == 2 + 256 * LE([]);
  }

  /** On a stream with no rows yet, a numeric one-channel Samples chunk sizes the
      rows to the channel count and runs the record loop. */
  lemma FreshFloatPayload(c: Codecs, data: seq<byte>, s: Stream, n: nat, q: nat)
    requires ReadLength(data, 0) == Some(Parsed(n, q))
    requires s.timeSeries == [] && s.header.channelCount == 1 && FormatOf(s.header.channelFormat) == Float32
    ensures
      var r := RecordLoop(c, data, q, Float32, 0, n, s.(timeSeries := [[]]));
      SamplesPayload(c, data, 0, s, []) == if r.None? then None else Some(Progress(r.value.value, [], r.value.next))
  {
    var one_row: seq<seq<Sample>> := seq(1, _ => []);
    assert one_row == [[]];
  }

  /** In a numeric stream, an implicit timestamp is the stream's last timestamp plus
      the sampling interval, and nothing in the numeric handler moves the last
      timestamp: a record with an explicit time 1.0 followed by an implicit one, at
      10 Hz on a fresh stream, gives 1.0 then 0.1, not 1.1. */
  lemma NumericImplicitTimeIgnoresExplicit(c: Codecs, h: Header)
    requires c.float64(One) == 1.0
    requires h.channelCount == 1 && h.channelFormat == "float32" && h.nominalSrate == 10
    ensures
      var s := DefaultStream.(header := h, samplingInterval := SamplingInterval(10));
      SamplesPayload(c, NumericChunk, 0, s, []).Some? &&
      SamplesPayload(c, NumericChunk, 0, s, []).value.stream.timeStamps == [1.0, 0.1]
  {
    var s := DefaultStream.(header := h, samplingInterval := SamplingInterval(10));
    var data := NumericChunk;
    assert FormatOf(h.channelFormat) == Float32;
    CountTwo(data);
    FreshFloatPayload(c, data, s, 2, 2);
    TwoFloatRecords(c, s.(timeSeries := [[]]));
  }

  lemma TwoFloatRecords(c: Codecs, s: Stream)
    requires c.float64(One) == 1.0
    requires s.header.channelCount == 1 && s.timeSeries == [[]] && s.timeStamps == []
    requires s.lastTimestamp == 0.0 && s.samplingInterval == SamplingInterval(10)
    ensures RecordLoop(c, NumericChunk, 2, Float32, 0, 2, s).Some?
    ensures RecordLoop(c, NumericChunk, 2, Float32, 0, 2, s).value.value.timeStamps == [1.0, 0.1]
  {
    var data := NumericChunk;
    assert SamplingInterval(10) == 0.1;
    assert data[3..11] == One;
    OneFloatRecord(c, data, 2, s);
    var one := NumericRecord(c, data, 2, Float32, s).value;
    assert one.next == 15 && one.value.timeStamps == [1.0];
    OneFloatRecord(c, data, 15, one.value);
    var two := NumericRecord(c, data, 15, Float32, one.value).value;
    assert two.value.timeStamps == [1.0, 0.1];
    assert RecordLoop(c, data, 2, Float32, 0, 2, s) == RecordLoop(c, data, 15, Float32, 1, 2, one.value);
    assert RecordLoop(c, data, 15, Float32, 1, 2, one.value) == Some(two);
  }

  /** The same two records in a string stream: the string handler does move the
      last timestamp, so the implicit event lands at 1.1. */
  lemma TextImplicitTimeFollowsExplicit(c: Codecs, h: Header)
    requires c.float64(One) == 1.0
    requires h.channelFormat == "string" && h.nominalSrate == 10
    ensures
      var s := DefaultStream.(header := h, samplingInterval := SamplingInterval(10));
      SamplesPayload(c, TextChunk, 0, s, []).Some? &&
      SamplesPayload(c, TextChunk, 0, s, []).value.events == [Event("A", 1.0), Event("B", 1.1)]
  {
    var s := DefaultStream.(header := h, samplingInterval := SamplingInterval(10));
    assert FormatOf(h.channelFormat) == Text;
    CountTwo(TextChunk);
    TwoEvents(c, s);
  }

  lemma TwoEvents(c: Codecs, s: Stream)
    requires c.float64(One) == 1.0
    requires s.lastTimestamp == 0.0 && s.samplingInterval == SamplingInterval(10)
    ensures EventLoop(c, TextChunk, 2, 0, 2, s, []).Some?
    ensures EventLoop(c, TextChunk, 2, 0, 2, s, []).value.events == [Event("A", 1.0), Event("B", 1.1)]
  {
    var data := TextChunk;
    assert SamplingInterval(10) == 0.1;
    assert data[3..11] == One;
    OneCharEvent(c, data, 2, s, [], 0x41);
    var one := EventRecord(c, data, 2, s, []).value;
    assert one == Progress(s.(lastTimestamp := 1.0), [Event("A", 1.0)], 14);
    OneCharEvent(c, data, 14, one.stream, one.events, 0x42);
    var two := EventRecord(c, data, 14, one.stream, one.events).value;
    assert two.events == [Event("A", 1.0), Event("B", 1.1)];
    assert EventLoop(c, data, 2, 0, 2, s, []) == EventLoop(c, data, 14, 1, 2, one.stream, one.events);
    assert EventLoop(c, data, 14, 1, 2, one.stream, one.events) == Some(two);
  }
}
