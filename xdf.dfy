/** The Xdf object: the file-level state that load_xdf fills and resampleXDF
    completes, with one method per member function of the class. */
module Xdf {
  import opened Base
  import opened Bytes
  import opened Model
  import opened Wire
  import opened Chunks
  import opened Stats
  import opened Layout
  import opened Dictionary
  import opened Resampling

  /** A snapshot of every field of the object, so that a method can say in one
      clause what it changes and that nothing else changes. */
  datatype Fields = Fields(
    streams: seq<Stream>,
    version: real,
    totalLen: nat,
    minTS: real,
    maxTS: real,
    totalCh: nat,
    majSR: int,
    streamMap: seq<ChannelBlock>,
    eventMap: seq<Event>,
    dictionary: seq<string>,
    eventType: seq<u16>,
    labels: seq<string>)

  class Xdf {
    var streams: seq<Stream>
    /** The file version from the FileHeader chunk. */
    var version: real
    /** The sample count of the longest channel after resampling (a uint64_t). */
    var totalLen: nat
    var minTS: real
    var maxTS: real
    /** The channel count over all streams with samples (a size_t). */
    var totalCh: nat
    /** The sampling rate that has the most channels. */
    var majSR: int
    /** For each stream with samples, its index and the running channel total. */
    var streamMap: seq<ChannelBlock>
    /** Every event of every string stream: its text and timestamp. */
    var eventMap: seq<Event>
    /** The distinct event texts. */
    var dictionary: seq<string>
    /** For each event, the position of its text in the dictionary. */
    var eventType: seq<u16>
    /** One descriptive label per channel. */
    var labels: seq<string>

    function State(): Fields
      reads this
    {
      Fields(streams, version, totalLen, minTS, maxTS, totalCh, majSR, streamMap,
        eventMap, dictionary, eventType, labels)
    }

    /** The object invariant: every streamMap entry names a stream, and totalCh
        fits a size_t. */
    predicate Valid()
      reads this
    {
      Indexes(streamMap, streams) && totalCh < TwoTo64
    }

    /** A default-constructed Xdf: empty vectors and zero timestamps and counts
        (majSR, which the class leaves uninitialised, starts at 0 here). */
    constructor()
      ensures State() == Fields([], 0.0, 0, 0.0, 0.0, 0, 0, [], [], [], [], [])
      ensures Valid()
    {
      streams, version, totalLen, minTS, maxTS, totalCh, majSR := [], 0.0, 0, 0.0, 0.0, 0, 0;
      streamMap, eventMap, dictionary, eventType, labels := [], [], [], [], [];
    }

    /** load_xdf on the bytes of a file: the magic code, the chunk loop over the
        streams and events already held, then findMinMax and findMajSR. valid is
        false when the magic code is not "XDF:", where the program exits. */
    method LoadXdf(c: Codecs, data: seq<byte>) returns (valid: bool)
      requires Valid()
      modifies this
      ensures valid <==> MagicScan(data, 0, "").value == "XDF:"
      ensures !valid ==> State() == old(State())
      ensures valid ==>
        var d := Decode(c, data, old(version), old(streams), old(eventMap)).value;
        State() == old(State()).(version := d.version, streams := d.streams, eventMap := d.events,
          minTS := MinTimestamp(d.streams, d.events, old(minTS)),
          maxTS := MaxTimestamp(d.streams, d.events, old(maxTS)),
          majSR := MajorRate(d.streams))
      ensures Valid()
    {
      var magic, pos := ScanMagic(data);
      if magic != "XDF:" {
        return false;
      }
      ghost var fin := Decode(c, data, version, streams, eventMap).value;
      var d := ReadChunks(c, data, pos, Decoded(version, [], streams, eventMap));
      assert d == fin;
      version, streams, eventMap := d.version, d.streams, d.events;
      ghost var loaded := State();
      assert loaded == old(State()).(version := fin.version, streams := fin.streams, eventMap := fin.events);
      FindMinMax();
      ghost var bounded := State();
      assert bounded == loaded.(minTS := MinTimestamp(fin.streams, fin.events, loaded.minTS),
        maxTS := MaxTimestamp(fin.streams, fin.events, loaded.maxTS));
      FindMajSR();
      assert State() == bounded.(majSR := MajorRate(fin.streams));
      return true;
    }

    /** findMinMax: minTS becomes the smallest first timestamp of the streams and
        event timestamp, maxTS the largest last timestamp and event timestamp. */
    method FindMinMax()
      modifies this
      ensures State() == old(State()).(
        minTS := MinTimestamp(streams, eventMap, old(minTS)),
        maxTS := MaxTimestamp(streams, eventMap, old(maxTS)))
    {
      var lo := EarliestTimestamp(streams, eventMap, minTS);
      var hi := LatestTimestamp(streams, eventMap, maxTS);
      minTS, maxTS := lo, hi;
    }

    /** findMajSR: srateMap built stream by stream, then the rate of its first
        entry with the most channels (0 when no stream has a nonzero rate). */
    method FindMajSR()
      modifies this
      ensures State() == old(State()).(majSR := MajorRate(streams))
    {
      var rate := MajorSamplingRate(streams);
      majSR := rate;
    }

    /** calcTotalChannel: totalCh grows by the channel counts of the streams with
        samples (modulo 2^64) and streamMap gains one entry per such stream. */
    method CalcTotalChannel()
      requires Valid()
      modifies this
      ensures State() == old(State()).(
        totalCh := TotalChannels(old(totalCh), streams),
        streamMap := ChannelMap(old(streamMap), streams, |streams|))
      ensures Valid()
    {
      var tc, sm := CalcChannels(totalCh, streamMap, streams);
      ChannelMapIndexes(streamMap, streams);
      totalCh, streamMap := tc, sm;
    }

    /** adjustTotalLength: totalLen is raised to the length of the first channel of
        every stream with samples. */
    method AdjustTotalLength()
      modifies this
      ensures State() == old(State()).(totalLen := Widened(old(totalLen), streams, |streams|))
    {
      var len := WidenLength(totalLen, streams);
      totalLen := len;
    }

    /** loadDictionary: each event text not yet in the dictionary is appended, and
        eventType records the dictionary position of every event's text. */
    method LoadDictionary()
      modifies this
      ensures State() == old(State()).(
        dictionary := Intern(Table(old(dictionary), old(eventType)), eventMap, |eventMap|).words,
        eventType := Intern(Table(old(dictionary), old(eventType)), eventMap, |eventMap|).types)
    {
      var t := InternEvents(Table(dictionary, eventType), eventMap);
      dictionary, eventType := t.words, t.types;
    }

    /** createLabels: one label per channel below totalCh, appended to labels. */
    method CreateLabels()
      requires Valid()
      modifies this
      ensures State() == old(State()).(labels := old(labels) + Labels(old(totalCh), old(streamMap), old(streams)))
    {
      var ls := MakeLabels(totalCh, streamMap, streams);
      labels := labels + ls;
    }

    /** freeUpTimeStamps, with a stream that has no timestamps left as it is: a
        regular stream keeps only its first timestamp. */
    method FreeUpTimeStamps()
      modifies this
      ensures State() == old(State()).(streams := FreedAll(old(streams)))
      ensures Valid() <==> old(Valid())
    {
      var ss := FreeTimeStamps(streams);
      streams := ss;
    }

    /** resampleXDF with the given target rate: every eligible stream whose filter
        can be built has each channel row converted; then calcTotalChannel, totalLen
        set from the timestamp range (the conversion of (maxTS - minTS) * userSrate
        to uint64_t, passed in as estimate), adjustTotalLength, loadDictionary,
        createLabels and freeUpTimeStamps. */
    method ResampleXdf(userSrate: int, r: Resampler, estimate: nat)
      requires Valid()
      modifies this
      ensures
        var rs := ResampleAll(old(streams), userSrate, r);
        var sm := ChannelMap(old(streamMap), rs, |rs|);
        var tc := TotalChannels(old(totalCh), rs);
        var dt := Intern(Table(old(dictionary), old(eventType)), old(eventMap), |old(eventMap)|);
        Indexes(sm, rs) &&
        State() == old(State()).(
          streams := FreedAll(rs),
          totalCh := tc,
          streamMap := sm,
          totalLen := Widened(estimate, rs, |rs|),
          dictionary := dt.words,
          eventType := dt.types,
          labels := old(labels) + Labels(tc, sm, rs))
      ensures Valid()
    {
      var rs := ResampleStreams(streams, userSrate, r);
      streams := rs;
      CalcTotalChannel();
      totalLen := estimate;
      AdjustTotalLength();
      LoadDictionary();
      CreateLabels();
      FreeUpTimeStamps();
    }
  }
}
