/** The in-memory data model that decoding fills: streams, their samples and
    timestamps, and the global event log (the Stream record of xdf.h). */
module Model {
  import opened Base
  import opened Bytes

  /** One stored sample value. float32 and double64 values stay as their raw
      little-endian bytes (IEEE decoding is not modelled); the intN formats are
      decoded exactly as two's-complement integers. */
  datatype Sample = Float32Bits(bits: seq<byte>) | Double64Bits(bits: seq<byte>) | IntValue(value: int)

  /** The value formats a stream header can name. */
  datatype Format = Float32 | Double64 | Int8 | Int16 | Int32 | Int64 | Text | Unrecognised

  /** A header's channel_format text, compared literally as each Samples handler does. */
  function FormatOf(name: string): (f: Format)
    ensures f == Unrecognised <==>
      name !in ["float32", "double64", "int8", "int16", "int32", "int64", "string"]
  {
    if name == "float32" then Float32
    else if name == "double64" then Double64
    else if name == "int8" then Int8
    else if name == "int16" then Int16
    else if name == "int32" then Int32
    else if name == "int64" then Int64
    else if name == "string" then Text
    else Unrecognised
  }

  predicate IsNumeric(f: Format)
  {
    !(f.Text? || f.Unrecognised?)
  }

  /** Bytes per value of a numeric format. */
  function Width(f: Format): (w: nat)
    requires IsNumeric(f)
    ensures f == Int8 ==> w == 1
    ensures f == Int16 ==> w == 2
    ensures f == Int32 || f == Float32 ==> w == 4
    ensures f == Int64 || f == Double64 ==> w == 8
  {
    match f
    case Float32 => 4
    case Double64 => 8
    case Int8 => 1
    case Int16 => 2
    case Int32 => 4
    case Int64 => 8
  }

  /** The sample stored for one channel value of a numeric format. */
  function DecodeValue(f: Format, b: seq<byte>): (v: Sample)
    requires IsNumeric(f) && |b| == Width(f)
    ensures f == Float32 <==> v.Float32Bits?
    ensures f == Double64 <==> v.Double64Bits?
    ensures f == Int8 ==> v.IntValue? && -0x80 <= v.value < 0x80
    ensures f == Int16 ==> v.IntValue? && -0x8000 <= v.value < 0x8000
    ensures f == Int32 ==> v.IntValue? && -0x8000_0000 <= v.value < 0x8000_0000
    ensures f == Int64 ==> v.IntValue? && -0x8000_0000_0000_0000 <= v.value < 0x8000_0000_0000_0000
    ensures v.IntValue? ==> v.value == Signed(b)
  {
    Pow256Values();
    match f
    case Float32 => Float32Bits(b)
    case Double64 => Double64Bits(b)
    case Int8 => IntValue(Signed(b))
    case Int16 => IntValue(Signed(b))
    case Int32 => IntValue(Signed(b))
    case Int64 => IntValue(Signed(b))
  }

  /** The header fields parsed from a StreamHeader's XML. */
  datatype Header = Header(
    name: string,
    streamType: string,
    channelCount: int,
    nominalSrate: int,
    channelFormat: string,
    sourceId: string,
    version: real,
    createdAt: real,
    uid: string,
    sessionId: string,
    hostname: string,
    v4address: string,
    v4dataPort: int,
    v4servicePort: int,
    v6address: string,
    v6dataPort: int,
    v6servicePort: int)

  /** The footer fields parsed from a StreamFooter's XML. */
  datatype Footer = Footer(
    firstTimestamp: real,
    lastTimestamp: real,
    sampleCount: int,
    measuredSrate: real)

  /** One stream record. timeSeries holds one row per channel. */
  datatype Stream = Stream(
    timeSeries: seq<seq<Sample>>,
    timeStamps: seq<real>,
    header: Header,
    footer: Footer,
    lastTimestamp: real,
    samplingInterval: real,
    clockTimes: seq<real>,
    clockValues: seq<real>)

  /** One entry of the event log: the event text and its timestamp. */
  datatype Event = Event(name: string, timestamp: real)

  /** The decoders the core takes from outside: the XML metadata parser applied to a
      header or footer payload, and IEEE-754 decoding of an 8-byte double. */
  datatype Codecs = Codecs(
    fileVersion: seq<byte> -> real,
    streamHeader: seq<byte> -> Header,
    streamFooter: seq<byte> -> Footer,
    float64: seq<byte> -> real)

  const EmptyHeader := Header("", "", 0, 0, "", "", 0.0, 0.0, "", "", "", "", 0, 0, "", 0, 0)
  const EmptyFooter := Footer(0.0, 0.0, 0, 0.0)

  /** The value-initialised Stream that streams.emplace_back() adds. */
  const DefaultStream := Stream([], [], EmptyHeader, EmptyFooter, 0.0, 0.0, [], [])

  /** sampling_interval as a StreamHeader sets it: the period of a regular stream,
      0 for an irregular one. */
  function SamplingInterval(rate: int): (r: real)
    ensures rate > 0 ==> r > 0.0 && r * (rate as real) == 1.0
    ensures rate <= 0 ==> r == 0.0
  {
    if rate > 0 then 1.0 / (rate as real) else 0.0
  }

  /** A stream's clock-offset vectors are parallel. */
  predicate ClocksParallel(s: Stream)
  {
    |s.clockTimes| == |s.clockValues|
  }

  /** Every channel row has one value per timestamp. */
  predicate RowsAligned(s: Stream)
  {
    forall v :: 0 <= v < |s.timeSeries| ==> |s.timeSeries[v]| == |s.timeStamps|
  }
}
