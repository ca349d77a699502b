/** The chunk loop of the decoder: a length prefix, a 2-byte tag, and a payload
    handled according to the tag. */
module Chunks {
  import opened Base
  import opened Bytes
  import opened Model
  import opened Wire
  import opened Samples
  import opened Registry

  /** The state the chunk loop builds: the file version, the id list, the
      streams and the event log. */
  datatype Decoded = Decoded(version: real, idmap: seq<int>, streams: seq<Stream>, events: seq<Event>)

  /** The registry invariant: every id has a stream, and no id is listed twice. */
  predicate Registered(d: Decoded)
  {
    |d.idmap| <= |d.streams| && NoDup(d.idmap)
  }

  /** The outcome of one chunk: the new state, the stream id the chunk named (if it
      read one), and the cursor after the chunk, or None when decoding ends. */
  datatype Step = Step(d: Decoded, ref: Option<int>, next: Option<nat>)

  /** The payload of a chunk whose tag names a stream, after the stream id, for
      that stream s. Tags 2 and 6 carry XML of ChLen - 6 bytes, tag 4 two doubles,
      tag 3 samples. None when the input ends first. */
  function StreamPayload(c: Codecs, data: seq<byte>, q: nat, chLen: nat, tag: nat, s: Stream, events: seq<Event>)
    : (r: Option<Progress>)
    requires q <= |data| && (tag == 2 || tag == 3 || tag == 4 || tag == 6)
    ensures r.Some? ==> q <= r.value.next <= |data|
    ensures r.Some? ==> |events| <= |r.value.events| && r.value.events[..|events|] == events
    ensures r.Some? && tag != 3 ==> r.value.events == events
    ensures r.Some? && ClocksParallel(s) ==> ClocksParallel(r.value.stream)
    // StreamHeader: the header parsed from exactly the ChLen - 6 bytes after the
    // id, the sampling interval of its rate, and no other field or event changed.
    ensures tag == 2 ==> (r.Some? <==> chLen >= 6 && q + (chLen - 6) <= |data|)
    ensures tag == 2 && r.Some? ==>
      r.value.next == q + (chLen - 6) && r.value.events == events &&
      r.value.stream.header == c.streamHeader(data[q..r.value.next]) &&
      r.value.stream.samplingInterval == SamplingInterval(r.value.stream.header.nominalSrate) &&
      r.value.stream == s.(header := r.value.stream.header, samplingInterval := r.value.stream.samplingInterval)
    // StreamFooter: the same framing; only the footer changes.
    ensures tag == 6 ==> (r.Some? <==> chLen >= 6 && q + (chLen - 6) <= |data|)
    ensures tag == 6 && r.Some? ==>
      r.value.next == q + (chLen - 6) && r.value.events == events &&
      r.value.stream.footer == c.streamFooter(data[q..r.value.next]) &&
      r.value.stream == s.(footer := r.value.stream.footer)
    // ClockOffset: one collection time and one offset value appended, in that
    // order, 16 bytes consumed, and nothing else changed.
    ensures tag == 4 ==> (r.Some? <==> q + 16 <= |data|)
    ensures tag == 4 && r.Some? ==>
      r.value.next == q + 16 && r.value.events == events &&
      |r.value.stream.clockTimes| == |s.clockTimes| + 1 &&
      |r.value.stream.clockValues| == |s.clockValues| + 1 &&
      r.value.stream.clockTimes[..|s.clockTimes|] == s.clockTimes &&
      r.value.stream.clockValues[..|s.clockValues|] == s.clockValues &&
      r.value.stream.clockTimes[|s.clockTimes|] == c.float64(data[q..q + 8]) &&
      r.value.stream.clockValues[|s.clockValues|] == c.float64(data[q + 8..q + 16]) &&
      r.value.stream == s.(clockTimes := r.value.stream.clockTimes, clockValues := r.value.stream.clockValues)
  {
    if tag == 2 then
      if chLen < 6 || q + (chLen - 6) > |data| then None
      else
        var h := c.streamHeader(data[q..q + (chLen - 6)]);
        Some(Progress(s.(header := h, samplingInterval := SamplingInterval(h.nominalSrate)), events, q + (chLen - 6)))
    else if tag == 6 then
      if chLen < 6 || q + (chLen - 6) > |data| then None
      else Some(Progress(s.(footer := c.streamFooter(data[q..q + (chLen - 6)])), events, q + (chLen - 6)))
    else if tag == 4 then
      if q + 16 > |data| then None
      else
        var s' := s.(clockTimes := s.clockTimes + [c.float64(data[q..q + 8])],
                     clockValues := s.clockValues + [c.float64(data[q + 8..q + 16])]);
        Some(Progress(s', events, q + 16))
    else
      SamplesPayload(c, data, q, s, events)
  }

  /** A chunk whose tag names a stream: the stream id, its registration, then
      the payload for that stream. */
  function StreamChunk(c: Codecs, data: seq<byte>, p: nat, chLen: nat, tag: nat, d: Decoded): (r: Step)
    requires Registered(d) && p <= |data| && (tag == 2 || tag == 3 || tag == 4 || tag == 6)
    ensures Registered(r.d) && r.d.version == d.version
    ensures r.next.Some? ==> p <= r.next.value <= |data|
    ensures |r.d.streams| - |r.d.idmap| == |d.streams| - |d.idmap|
    ensures r.ref.None? ==> r.d == d
    ensures r.ref.Some? && r.ref.value in d.idmap ==> r.d.idmap == d.idmap
    ensures r.ref.Some? && r.ref.value !in d.idmap ==> r.d.idmap == d.idmap + [r.ref.value]
    ensures |d.events| <= |r.d.events| && r.d.events[..|d.events|] == d.events
  {
    match ReadInt32(data, p)
    case None => Step(d, None, None)
    case Some(id) =>
      var reg := Resolve(d.idmap, d.streams, id.value);
      var d1 := d.(idmap := reg.idmap, streams := reg.streams);
      match StreamPayload(c, data, id.next, chLen, tag, reg.streams[reg.index], d.events)
      case None => Step(d1, Some(id.value), None)
      case Some(pr) =>
        Step(d1.(streams := reg.streams[reg.index := pr.stream], events := pr.events), Some(id.value), Some(pr.next))
  }

  /** A chunk's payload, from just after its tag. */
  function Payload(c: Codecs, data: seq<byte>, p: nat, chLen: nat, tag: nat, d: Decoded): (r: Step)
    requires Registered(d) && p <= |data|
    ensures Registered(r.d)
    ensures r.next.Some? ==> p <= r.next.value <= |data|
    ensures r.d.version == d.version || tag == 1
    ensures |r.d.streams| - |r.d.idmap| == |d.streams| - |d.idmap|
    ensures r.ref.None? ==> r.d.idmap == d.idmap && r.d.streams == d.streams && r.d.events == d.events
    ensures r.ref.Some? && r.ref.value in d.idmap ==> r.d.idmap == d.idmap
    ensures r.ref.Some? && r.ref.value !in d.idmap ==> r.d.idmap == d.idmap + [r.ref.value]
    ensures |d.events| <= |r.d.events| && r.d.events[..|d.events|] == d.events
  {
    if tag == 1 then
      if chLen < 2 || p + (chLen - 2) > |data| then Step(d, None, None)
      else Step(d.(version := c.fileVersion(data[p..p + (chLen - 2)])), None, Some(p + (chLen - 2)))
    else if tag == 5 then
      if chLen < 2 || p + (chLen - 2) > |data| then Step(d, None, None)
      else Step(d, None, Some(p + (chLen - 2)))
    else if tag == 2 || tag == 3 || tag == 4 || tag == 6 then
      StreamChunk(c, data, p, chLen, tag, d)
    else
      Step(d, None, Some(p))
  }

  /** One chunk at pos: decoding ends at a length of 0, and when the input ends
      before the length, the tag or the payload does. */
  function Chunk(c: Codecs, data: seq<byte>, pos: nat, d: Decoded): (r: Step)
    requires Registered(d) && pos <= |data|
    ensures Registered(r.d)
    ensures r.next.Some? ==> pos < r.next.value <= |data|
    ensures |r.d.streams| - |r.d.idmap| == |d.streams| - |d.idmap|
    ensures r.ref.None? ==> r.d.idmap == d.idmap && r.d.streams == d.streams && r.d.events == d.events
    ensures r.ref.Some? && r.ref.value in d.idmap ==> r.d.idmap == d.idmap
    ensures r.ref.Some? && r.ref.value !in d.idmap ==> r.d.idmap == d.idmap + [r.ref.value]
    ensures |d.events| <= |r.d.events| && r.d.events[..|d.events|] == d.events
  {
    match ReadLength(data, pos)
    case None => Step(d, None, None)
    case Some(len) =>
      if len.value == 0 then Step(d, None, None)
      else
        match ReadUInt(data, len.next, 2)
        case None => Step(d, None, None)
        case Some(tag) => Payload(c, data, tag.next, len.value, tag.value, d)
  }

  /** The chunk loop from pos to the end of decoding. */
  function ChunkLoop(c: Codecs, data: seq<byte>, pos: nat, d: Decoded): (r: Decoded)
    requires Registered(d) && pos <= |data|
    decreases |data| - pos
    ensures Registered(r)
    ensures |r.streams| - |r.idmap| == |d.streams| - |d.idmap|
    ensures |d.events| <= |r.events| && r.events[..|d.events|] == d.events
    ensures |d.idmap| <= |r.idmap| && r.idmap[..|d.idmap|] == d.idmap
  {
    var st := Chunk(c, data, pos, d);
    if st.next.None? then st.d
    else
      var r := ChunkLoop(c, data, st.next.value, st.d);
      assert r.events[..|d.events|] == r.events[..|st.d.events|][..|d.events|];
      assert r.idmap[..|d.idmap|] == r.idmap[..|st.d.idmap|][..|d.idmap|];
      r
  }

  /** The stream ids the chunks from pos on name, in file order. */
  function Referenced(c: Codecs, data: seq<byte>, pos: nat, d: Decoded): seq<int>
    requires Registered(d) && pos <= |data|
    decreases |data| - pos
  {
    var st := Chunk(c, data, pos, d);
    var here := if st.ref.Some? then [st.ref.value] else [];
    if st.next.None? then here else here + Referenced(c, data, st.next.value, st.d)
  }

  /** A whole file: the magic code, then the chunk loop on the streams already
      held (a fresh id list, as load_xdf starts one per call). None when the
      magic code is not "XDF:". */
  function Decode(c: Codecs, data: seq<byte>, version: real, streams: seq<Stream>, events: seq<Event>)
    : (r: Option<Decoded>)
    ensures r.Some? <==> MagicScan(data, 0, "").value == "XDF:"
    ensures r.Some? ==> Registered(r.value) && |r.value.streams| - |r.value.idmap| == |streams|
    ensures r.Some? ==> |events| <= |r.value.events| && r.value.events[..|events|] == events
  {
    var magic := MagicScan(data, 0, "");
    if magic.value != "XDF:" then None
    else
      Some(ChunkLoop(c, data, magic.next, Decoded(version, [], streams, events)))
  }

  /** One pass of the chunk loop of load_xdf: the length, the tag, then the switch
      on the tag, with the Samples handler run by ReadSamples. */
  method ReadChunk(c: Codecs, data: seq<byte>, pos: nat, d: Decoded) returns (st: Step)
    requires Registered(d) && pos <= |data|
    ensures st == Chunk(c, data, pos, d)
  {
    var len := ReadLength(data, pos);
    if len.None? || len.value.value == 0 {
      return Step(d, None, None);
    }
    var chLen := len.value.value;
    var tag := ReadUInt(data, len.value.next, 2);
    if tag.None? {
      return Step(d, None, None);
    }
    var p, t := tag.value.next, tag.value.value;
    if t == 1 || t == 5 {
      if chLen < 2 || p + (chLen - 2) > |data| {
        return Step(d, None, None);
      }
      if t == 1 {
        return Step(d.(version := c.fileVersion(data[p..p + (chLen - 2)])), None, Some(p + (chLen - 2)));
      }
      return Step(d, None, Some(p + (chLen - 2)));
    }
    if !(t == 2 || t == 3 || t == 4 || t == 6) {
      return Step(d, None, Some(p));
    }
    var id := ReadInt32(data, p);
    if id.None? {
      return Step(d, None, None);
    }
    var reg := Resolve(d.idmap, d.streams, id.value.value);
    var d1 := d.(idmap := reg.idmap, streams := reg.streams);
    var pr: Option<Progress>;
    if t == 3 {
      pr := ReadSamples(c, data, id.value.next, reg.streams[reg.index], d.events);
    } else {
      pr := StreamPayload(c, data, id.value.next, chLen, t, reg.streams[reg.index], d.events);
    }
    if pr.None? {
      return Step(d1, Some(id.value.value), None);
    }
    var streams := reg.streams[reg.index := pr.value.stream];
    return Step(d1.(streams := streams, events := pr.value.events), Some(id.value.value), Some(pr.value.next));
  }

  /** The chunk loop of load_xdf, until a chunk ends decoding. */
  method ReadChunks(c: Codecs, data: seq<byte>, pos0: nat, d0: Decoded) returns (d: Decoded)
    requires Registered(d0) && pos0 <= |data|
    ensures d == ChunkLoop(c, data, pos0, d0)
  {
    var pos := pos0;
    d := d0;
    while true
      invariant Registered(d) && pos <= |data|
      invariant ChunkLoop(c, data, pos0, d0) == ChunkLoop(c, data, pos, d)
      decreases |data| - pos
    {
      var st := ReadChunk(c, data, pos, d);
      d := st.d;
      if st.next.None? {
        return;
      }
      pos := st.next.value;
    }
  }
}

module ChunksFacts {
  import opened Base
  import opened Bytes
  import opened Model
  import opened Wire
  import opened Samples
  import opened Chunks

  /** A chunk length of 0, whatever its width, ends decoding and changes nothing. */
  lemma ZeroLengthEndsDecoding(c: Codecs, data: seq<byte>, pos: nat, d: Decoded)
    requires Registered(d) && pos <= |data|
    requires ReadLength(data, pos).Some? && ReadLength(data, pos).value.value == 0
    ensures Chunk(c, data, pos, d) == Step(d, None, None)
  {
  }

  /** The tag of the chunk at pos, once its length has been read. */
  function TagAt(data: seq<byte>, pos: nat): (t: Option<nat>)
    ensures t.Some? ==> t.value < 0x1_0000
  {
    match ReadLength(data, pos)
    case None => None
    case Some(len) =>
      match ReadUInt(data, len.next, 2)
      case None => None
      case Some(tag) =>
        assert Pow256(2) == 0x1_0000 by { Pow256Values(); }
        Some(tag.value)
  }

  /** A Boundary chunk (tag 5) skips ChLen - 2 bytes after its tag and changes
      nothing. */
  lemma BoundarySkipped(c: Codecs, data: seq<byte>, pos: nat, d: Decoded)
    requires Registered(d) && pos <= |data| && TagAt(data, pos) == Some(5)
    requires ReadLength(data, pos).value.value >= 2
    requires ReadLength(data, pos).value.next + ReadLength(data, pos).value.value <= |data|
    ensures
      var len := ReadLength(data, pos).value;
      Chunk(c, data, pos, d) == Step(d, None, Some(len.next + len.value))
  {
  }

  /** A FileHeader chunk (tag 1) takes the version from the ChLen - 2 bytes after
      its tag. */
  lemma FileHeaderRead(c: Codecs, data: seq<byte>, pos: nat, d: Decoded)
    requires Registered(d) && pos <= |data| && TagAt(data, pos) == Some(1)
    requires ReadLength(data, pos).value.value >= 2
    requires ReadLength(data, pos).value.next + ReadLength(data, pos).value.value <= |data|
    ensures
      var len := ReadLength(data, pos).value;
      Chunk(c, data, pos, d)
        == Step(d.(version := c.fileVersion(data[len.next + 2..len.next + len.value])), None, Some(len.next + len.value))
  {
  }

  /** An unknown tag changes nothing and consumes nothing after the tag. */
  lemma UnknownTagConsumesOnlyTag(c: Codecs, data: seq<byte>, pos: nat, d: Decoded)
    requires Registered(d) && pos <= |data| && TagAt(data, pos).Some?
    requires !(1 <= TagAt(data, pos).value <= 6)
    requires ReadLength(data, pos).value.value != 0
    ensures Chunk(c, data, pos, d) == Step(d, None, Some(ReadLength(data, pos).value.next + 2))
  {
  }

  /** A chunk with a nonzero length and a readable tag is its tag's payload. */
  lemma ChunkDispatch(c: Codecs, data: seq<byte>, pos: nat, d: Decoded, len: Parsed<nat>, tag: nat)
    requires Registered(d) && pos <= |data|
    requires ReadLength(data, pos) == Some(len) && TagAt(data, pos) == Some(tag) && len.value != 0
    ensures len.next + 2 <= |data|
    ensures Chunk(c, data, pos, d) == Payload(c, data, len.next + 2, len.value, tag, d)
  {
  }

  /** The payload of a stream-bearing chunk is read by StreamChunk. */
  lemma PayloadOfStream(c: Codecs, data: seq<byte>, p: nat, chLen: nat, tag: nat, d: Decoded)
    requires Registered(d) && p <= |data| && (tag == 2 || tag == 3 || tag == 4 || tag == 6)
    ensures Payload(c, data, p, chLen, tag, d) == StreamChunk(c, data, p, chLen, tag, d)
  {
  }

  /** A stream-bearing chunk whose metadata fits: it names a stream and consumes
      ChLen - 2 bytes after its tag. */
  lemma MetadataStreamChunk(c: Codecs, data: seq<byte>, p: nat, chLen: nat, tag: nat, d: Decoded)
    requires Registered(d) && (tag == 2 || tag == 6) && chLen >= 6 && p + (chLen - 2) <= |data|
    ensures
      var r := StreamChunk(c, data, p, chLen, tag, d);
      r.ref.Some? && r.next == Some(p + (chLen - 2)) && r.d.events == d.events
  {
  }

  /** A ClockOffset chunk (tag 4) whose 20 bytes after the tag are present grows
      the clock vectors of the stream its id resolves to by one entry each, the
      collection time first, and leaves every other stream, every other field of
      that stream, and the event log as they were. */
  lemma ClockOffsetAppends(c: Codecs, data: seq<byte>, p: nat, chLen: nat, d: Decoded)
    requires Registered(d) && p + 20 <= |data|
    ensures
      var r := StreamChunk(c, data, p, chLen, 4, d);
      var id := Signed(data[p..p + 4]);
      var reg := Registry.Resolve(d.idmap, d.streams, id);
      var j := reg.index;
      r.ref == Some(id) && r.next == Some(p + 20) && r.d.events == d.events && r.d.idmap == reg.idmap &&
      |r.d.streams| == |reg.streams| && j < |r.d.streams| &&
      r.d.streams[j].clockTimes == reg.streams[j].clockTimes + [c.float64(data[p + 4..p + 12])] &&
      r.d.streams[j].clockValues == reg.streams[j].clockValues + [c.float64(data[p + 12..p + 20])] &&
      r.d.streams[j] == reg.streams[j].(clockTimes := r.d.streams[j].clockTimes, clockValues := r.d.streams[j].clockValues) &&
      (forall k :: 0 <= k < |r.d.streams| && k != j ==> r.d.streams[k] == reg.streams[k]) &&
      (forall k :: 0 <= k < |d.streams| && k != j ==> r.d.streams[k] == d.streams[k])
  {
    var reg := Registry.Resolve(d.idmap, d.streams, Signed(data[p..p + 4]));
    var s := reg.streams[reg.index];
    var s' := StreamChunk(c, data, p, chLen, 4, d).d.streams[reg.index];
    assert s'.clockTimes == s.clockTimes + [c.float64(data[p + 4..p + 12])] by {
      assert s'.clockTimes == s'.clockTimes[..|s.clockTimes|] + [s'.clockTimes[|s.clockTimes|]];
    }
    assert s'.clockValues == s.clockValues + [c.float64(data[p + 12..p + 20])] by {
      assert s'.clockValues == s'.clockValues[..|s.clockValues|] + [s'.clockValues[|s.clockValues|]];
    }
  }

  /** A StreamHeader chunk (tag 2) that fits installs, in the stream its id
      resolves to, the header parsed from the ChLen - 6 bytes after the id, with
      a sampling interval that is the reciprocal of the nominal rate (0 for an
      irregular stream); no other stream and no event changes. */
  lemma StreamHeaderInstalls(c: Codecs, data: seq<byte>, p: nat, chLen: nat, d: Decoded)
    requires Registered(d) && chLen >= 6 && p + (chLen - 2) <= |data|
    ensures
      var r := StreamChunk(c, data, p, chLen, 2, d);
      var reg := Registry.Resolve(d.idmap, d.streams, Signed(data[p..p + 4]));
      var j := reg.index;
      var h := c.streamHeader(data[p + 4..p + (chLen - 2)]);
      r.next == Some(p + (chLen - 2)) && r.d.events == d.events && r.d.idmap == reg.idmap &&
      |r.d.streams| == |reg.streams| && j < |r.d.streams| &&
      r.d.streams[j].header == h &&
      (h.nominalSrate > 0 ==> r.d.streams[j].samplingInterval * h.nominalSrate as real == 1.0) &&
      (h.nominalSrate <= 0 ==> r.d.streams[j].samplingInterval == 0.0) &&
      r.d.streams[j] == reg.streams[j].(header := h, samplingInterval := r.d.streams[j].samplingInterval) &&
      (forall k :: 0 <= k < |d.streams| && k != j ==> r.d.streams[k] == d.streams[k])
  {
  }

  /** A StreamHeader or StreamFooter chunk (tags 2 and 6) consumes exactly ChLen
      bytes after its length prefix, and names a stream. */
  lemma MetadataChunkFramed(c: Codecs, data: seq<byte>, pos: nat, d: Decoded, len: Parsed<nat>, tag: nat)
    requires Registered(d) && pos <= |data|
    requires ReadLength(data, pos) == Some(len) && TagAt(data, pos) == Some(tag) && (tag == 2 || tag == 6)
    requires len.value >= 6 && len.next + len.value <= |data|
    ensures
      var r := Chunk(c, data, pos, d);
      r.ref.Some? && r.next == Some(len.next + len.value) && r.d.events == d.events
  {
    var p := len.next + 2;
    ChunkDispatch(c, data, pos, d, len, tag);
    PayloadOfStream(c, data, p, len.value, tag, d);
    MetadataStreamChunk(c, data, p, len.value, tag, d);
    assert p + (len.value - 2) == len.next + len.value;
  }

  /** The stream ids a step names, as a sequence. */
  function Named(st: Step): seq<int>
  {
    if st.ref.Some? then [st.ref.value] else []
  }

  /** One chunk registers the id it names, if that id is new. */
  lemma ChunkRegisters(c: Codecs, data: seq<byte>, pos: nat, d: Decoded)
    requires Registered(d) && pos <= |data|
    ensures Chunk(c, data, pos, d).d.idmap == d.idmap + Firsts(d.idmap, Named(Chunk(c, data, pos, d)))
  {
    var st := Chunk(c, data, pos, d);
    if st.ref.Some? {
      FirstsSingle(d.idmap, st.ref.value);
    }
  }

  /** The id list after a chunk that registers n and then the rest that register
      rest. */
  lemma RegistrationStep(a: seq<int>, n: seq<int>, rest: seq<int>, mid: seq<int>, fin: seq<int>)
    requires mid == a + Firsts(a, n) && fin == mid + Firsts(mid, rest)
    ensures fin == a + Firsts(a, n + rest)
  {
    FirstsConcat(a, n, rest);
    assert fin == a + (Firsts(a, n) + Firsts(a + Firsts(a, n), rest));
  }

  /** One turn of the chunk loop, for the loop and for the ids it names. */
  lemma LoopStep(c: Codecs, data: seq<byte>, pos: nat, d: Decoded)
    requires Registered(d) && pos <= |data|
    ensures
      var st := Chunk(c, data, pos, d);
      if st.next.None? then
        ChunkLoop(c, data, pos, d) == st.d && Referenced(c, data, pos, d) == Named(st)
      else
        ChunkLoop(c, data, pos, d) == ChunkLoop(c, data, st.next.value, st.d) &&
        Referenced(c, data, pos, d) == Named(st) + Referenced(c, data, st.next.value, st.d)
  {
  }

  /** Streams are numbered in the order in which chunks first name their ids,
      whatever the chunk types: the id list after decoding is the ids named, each
      once, in order of first reference. */
  lemma {:induction false} StreamsInFirstReferenceOrder(c: Codecs, data: seq<byte>, pos: nat, d: Decoded)
    requires Registered(d) && pos <= |data|
    decreases |data| - pos
    ensures ChunkLoop(c, data, pos, d).idmap == d.idmap + Firsts(d.idmap, Referenced(c, data, pos, d))
  {
    var st := Chunk(c, data, pos, d);
    ChunkRegisters(c, data, pos, d);
    LoopStep(c, data, pos, d);
    if st.next.Some? {
      StreamsInFirstReferenceOrder(c, data, st.next.value, st.d);
      RegistrationStep(d.idmap, Named(st), Referenced(c, data, st.next.value, st.d),
                       st.d.idmap, ChunkLoop(c, data, st.next.value, st.d).idmap);
    } else {
      assert Firsts(d.idmap, Named(st)) + [] == Firsts(d.idmap, Named(st));
    }
  }

  /** A stream-bearing chunk keeps every stream's clock vectors parallel: a
      ClockOffset chunk appends one entry to each of the two. */
  lemma StreamChunkKeepsClocksParallel(c: Codecs, data: seq<byte>, p: nat, chLen: nat, tag: nat, d: Decoded)
    requires Registered(d) && p <= |data| && (tag == 2 || tag == 3 || tag == 4 || tag == 6)
    requires forall j :: 0 <= j < |d.streams| ==> ClocksParallel(d.streams[j])
    ensures
      var r := StreamChunk(c, data, p, chLen, tag, d);
      forall j :: 0 <= j < |r.d.streams| ==> ClocksParallel(r.d.streams[j])
  {
    var id := ReadInt32(data, p);
    if id.Some? {
      var reg := Registry.Resolve(d.idmap, d.streams, id.value.value);
      assert forall j :: 0 <= j < |reg.streams| ==> ClocksParallel(reg.streams[j]);
    }
  }

  /** Every stream's clock-offset vectors stay parallel through one chunk. */
  lemma ChunkKeepsClocksParallel(c: Codecs, data: seq<byte>, pos: nat, d: Decoded)
    requires Registered(d) && pos <= |data|
    requires forall j :: 0 <= j < |d.streams| ==> ClocksParallel(d.streams[j])
    ensures forall j :: 0 <= j < |Chunk(c, data, pos, d).d.streams| ==> ClocksParallel(Chunk(c, data, pos, d).d.streams[j])
  {
    var len := ReadLength(data, pos);
    if len.Some? && len.value.value != 0 && ReadUInt(data, len.value.next, 2).Some? {
      var tag := ReadUInt(data, len.value.next, 2).value;
      if tag.value == 2 || tag.value == 3 || tag.value == 4 || tag.value == 6 {
        StreamChunkKeepsClocksParallel(c, data, tag.next, len.value.value, tag.value, d);
      }
    }
  }

  /** ... and so through the whole chunk loop. */
  lemma {:induction false} ChunkLoopKeepsClocksParallel(c: Codecs, data: seq<byte>, pos: nat, d: Decoded)
    requires Registered(d) && pos <= |data|
    requires forall j :: 0 <= j < |d.streams| ==> ClocksParallel(d.streams[j])
    decreases |data| - pos
    ensures forall j :: 0 <= j < |ChunkLoop(c, data, pos, d).streams| ==> ClocksParallel(ChunkLoop(c, data, pos, d).streams[j])
  {
    ChunkKeepsClocksParallel(c, data, pos, d);
    var st := Chunk(c, data, pos, d);
    if st.next.Some? {
      ChunkLoopKeepsClocksParallel(c, data, st.next.value, st.d);
    }
  }
}
