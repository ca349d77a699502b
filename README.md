# libxdf core in Dafny

This project models the core of libxdf, a C++ reader for XDF (Extensible Data
Format) recordings. An XDF file starts with the magic code `XDF:` and continues
with framed chunks. Each chunk has a variable-width length, a 2-byte tag and a
payload. The reader decodes the chunks into a set of streams and a global event
log. It then computes whole-file statistics. On request it resamples the streams
and builds the channel layout, the event dictionary and the channel labels.

The model follows `xdf.cpp`. There, the file-level fields (`streams`, `eventMap`,
`dictionary`, `eventType`, `streamMap`, `minTS`, `maxTS`, `totalCh`, `totalLen`,
`majSR`, `labels`) are direct members of `Xdf`. `xdf.h` declares them inside a
nested `XDFdataStruct` and gives `load_xdf` a different signature; the model
does not follow `xdf.h` there.

Modules, leaves first:

- `Base`: `Option`, a parsed value with its cursor, `NoDup`, the linear search
  `Find` (what `std::find` returns), and `Firsts` (first occurrences in order).
- `Bytes`: bytes, little-endian unsigned values, two's-complement values.
- `Wire`: `readLength` and the magic-code scan.
- `Model`: the `Stream` record of `xdf.h`, the channel formats, the header and
  footer records, and the collaborators (`Codecs`: the XML parser and IEEE
  double decoding, taken as function values).
- `Registry`: the stream-id lookup that the StreamHeader, Samples, ClockOffset
  and StreamFooter handlers each run first.
- `Samples` and `SamplesFacts`: the Samples chunk handler, numeric and string.
- `Chunks` and `ChunksFacts`: the chunk loop and the tag dispatch of `load_xdf`.
- `Stats`: `findMinMax` and `findMajSR`.
- `Layout`: `calcTotalChannel`, `adjustTotalLength` and `createLabels`.
- `Dictionary`: `loadDictionary`.
- `Resampling`: the eligibility test and stream loop of `resampleXDF`, and
  `freeUpTimeStamps`.
- `Xdf`: the class `Xdf`, whose fields are the file-level state. Each member
  function of the C++ class is a method that says, in one clause, the whole new
  state in terms of the old one.

Each loop of the source is a method whose `ensures` equates its result with a
specification function. The properties are proved about those functions.

Behaviour that the code has and a reader might not expect, all modelled as the
code does it:

- The numeric branches of the Samples handler never update `last_timestamp`.
  Only the string branch does. In a numeric stream, an explicit time 1.0
  followed by an implicit record at 10 Hz gives 0.1, not 1.1
  (`SamplesFacts.NumericImplicitTimeIgnoresExplicit`). A string stream gives 1.1
  (`SamplesFacts.TextImplicitTimeFollowsExplicit`).
- An unknown tag is logged and its payload is not skipped. The next chunk is read
  from just after the tag.
- A length indicator other than 1, 4 or 8 reads as length 0. In the chunk loop
  this ends decoding, exactly as a real length of 0 does.
- The magic code is read with `>>`, which skips whitespace, so ` X\nDF:` is
  accepted.
- Event text is built as a `std::string` from a NUL-terminated buffer. It ends at
  the first 0 byte, so the text can be shorter than the decoded length
  (`Samples.CString`).
- A stream whose `channel_format` is empty or unrecognised consumes only the
  record count of a Samples chunk. The records that follow are then read as the
  next chunk.
- A new id gets index `|idmap|`, and a default stream is appended to `streams`.
  On a second `load_xdf` into an object that already holds streams, this index
  names an older stream (`Registry.Resolve` states it as written).
- The resampler leaves `nominal_srate` as it was, so a second `resampleXDF`
  converts the same streams again (`Resampling.ResampledStaysEligible`).

`xdf.cpp` has no clock-synchronisation pass and computes no effective rate: it
only stores `clock_times` and `clock_values`, and so does the model. With no
regular stream, `findMajSR` reads past the end of an empty vector; see Findings.

Reads past the end of the input leave the C++ variables uninitialised, so their
outcome is undefined. In the model, the chunk that runs short ends decoding and
its payload has no effect. A stream registration made before the shortfall is
kept. A numeric record whose `channel_count` exceeds the rows already sized (a
later StreamHeader can raise it) is treated the same way: the write
`time_series[v].emplace_back` (xdf.cpp:193, 226, 259, 292, 325, 358) goes
through the unchecked `operator[]`, so its outcome is undefined too. The model
treats two other failures the same way, although in C++ each throws an
exception out of `load_xdf`:

- a chunk length below 2 for tag 1, or below 6 for tags 2 and 6: `ChLen` is a
  `uint64_t`, so the buffer size given to `new char[]` (xdf.cpp:76, 110, 460)
  wraps around to nearly 2^64, and the allocation throws
  (`std::bad_array_new_length`);
- a negative `channel_count` in a numeric stream: `resize` (xdf.cpp:168, 201,
  234, 267, 300, 333) throws `std::length_error`.

A Boundary chunk (tag 5) of length 1 makes `seekg` move back one byte; the
model ends decoding there as well.

## Model

| member | source | states |
|---|---|---|
| `Base.Find` | xdf.cpp:96-104 | the first position of the id in the list, or the list length when the id is absent, as `std::find` returns |
| `Base.FindAppend` | xdf.cpp:96-104 | after appending, an id already present keeps its position, and a newly appended id is found at the old length |
| `Base.FirstsSpec` | xdf.cpp:96-104 | the first occurrences of a sequence hold each element outside the known set exactly once, without repeats, in first-occurrence order |
| `Base.FirstsConcat` | xdf.cpp:61-72 | collecting first occurrences over two parts in turn is collecting them over the whole |
| `Bytes.LEOfToLE` | xdf.cpp:624-655 | decoding the k-byte little-endian encoding of a value below 256^k gives that value back |
| `Bytes.ToLEOfLE` | xdf.cpp:624-655 | encoding a decoded byte sequence gives the same bytes back |
| `Bytes.Signed` | xdf.cpp:255-260 | the two's-complement value of k little-endian bytes lies in the signed k-byte range and agrees with the unsigned value, or with it minus 256^k when negative |
| `Bytes.SignedOfToLE` | xdf.cpp:288-293 | every signed k-byte value is read back from its two's-complement encoding |
| `Wire.ReadLength` | xdf.cpp:624-655 | indicator 1, 4 or 8 yields the unsigned little-endian value of the next 1, 4 or 8 bytes, having consumed 1+k bytes; any other indicator yields 0 having consumed only the indicator; no result when the input ends first |
| `Wire.LengthRoundTrip` | xdf.cpp:624-655 | a length written with any of the three widths is read back with its exact width, whatever follows |
| `Wire.MagicScanIsVisiblePrefix` | xdf.cpp:46-52 | the magic-code loop collects the first four non-whitespace characters of the input |
| `Wire.PlainMagic` | xdf.cpp:46-58 | a file that starts with the bytes `XDF:` passes the check with the cursor at 4 |
| `Wire.SpacedMagic` | xdf.cpp:47 | whitespace before and inside the magic code is skipped, so ` X\nDF:` is accepted |
| `Wire.ScanMagic` | xdf.cpp:46-52 | the loop's characters and cursor equal the magic-code scan of the input |
| `Model.FormatOf` | xdf.cpp:164-362 | a channel format name maps to Unrecognised exactly when it is none of float32, double64, int8, int16, int32, int64, string |
| `Model.Width` | xdf.cpp:191-358 | an int8 value takes 1 byte, int16 2, int32 and float32 4, int64 and double64 8 |
| `Model.DecodeValue` | xdf.cpp:189-194 | a float32 value is kept as float32 bits and a double64 value as double64 bits, and only those; an intN value is the two's-complement value of its bytes and lies in the signed N-bit range |
| `Model.SamplingInterval` | xdf.cpp:135-138 | a positive rate gives an interval whose product with the rate is 1; a rate of 0 or below gives 0 |
| `Registry.Resolve` | xdf.cpp:96-104 | afterwards the id list holds the id at the returned index and stays free of repeats; a known id changes nothing and returns its first position; an unseen id gets index old length, is appended to the id list, and exactly one default stream is appended |
| `Registry.ResolveIdempotent` | xdf.cpp:149-157 | resolving the same id again finds the stream the first resolution set up and changes nothing |
| `Samples.RecordTime` | xdf.cpp:173-186 | the timestamp is the 8-byte double when the presence byte is 8, otherwise the stream's last timestamp plus its sampling interval; no result when the input ends first |
| `Samples.ChannelLoop` | xdf.cpp:188-194 | channels v to n-1 each get exactly one value appended, and every other row is unchanged |
| `Samples.NumericRecord` | xdf.cpp:170-195 | one numeric record appends its timestamp and one value to each of the first channel_count rows; the rest of the stream, including its last timestamp, is unchanged |
| `Samples.RecordLoop` | xdf.cpp:171-195 | numSamp records append exactly numSamp timestamps and numSamp values to each of the first channel_count rows, keeping the prior contents as prefixes; the rest of the stream is unchanged |
| `SamplesFacts.ChannelLoopValue` | xdf.cpp:188-194 | the value the channel loop appends to row w is the w-th value of the record, decoded in the stream's format |
| `SamplesFacts.NumericRecordValue` | xdf.cpp:188-194 | the value one numeric record appends to row w is the w-th value after that record's timestamp |
| `SamplesFacts.LoopIsNumericAt` | xdf.cpp:171-195 | the record loop from record i of numSamp reads the same records as the first numSamp - i records read from its start |
| `SamplesFacts.NumericTimestampAt` | xdf.cpp:173-186 | the timestamp appended for record k is read where record k starts: the 8-byte time after a presence byte of 8, otherwise the last timestamp plus the interval as they stood before the chunk |
| `SamplesFacts.NumericValueAt` | xdf.cpp:171-195 | the value appended to row w for record k is the w-th value of record k, read after record k's timestamp |
| `Samples.CString` | xdf.cpp:383-386 | the event text is the longest prefix of the read bytes with no 0 byte |
| `Samples.EventRecord` | xdf.cpp:367-410 | the last timestamp becomes the record's timestamp; an indicator of 1, 4 or 8 appends exactly one event with the text of the decoded length and that timestamp; any other indicator appends nothing and consumes only itself |
| `Samples.EventLoop` | xdf.cpp:365-411 | a string chunk only extends the event log, by at most numSamp events, and changes only the stream's last timestamp |
| `SamplesFacts.EventRecordCarries` | xdf.cpp:367-410 | a string record adds one event exactly when its length indicator is 1, 4 or 8, and that event is its text up to the first 0 byte at its timestamp; otherwise the log is unchanged |
| `SamplesFacts.EventLoopIsEventsAt` | xdf.cpp:365-411 | the string-record loop from record i of numSamp reads the same records as the first numSamp - i records read from its start |
| `SamplesFacts.EventTimeAt` | xdf.cpp:367-381 | string record k takes the 8-byte time after a presence byte of 8, otherwise the previous record's timestamp plus the interval (for the first record, the stream's last timestamp before the chunk) |
| `SamplesFacts.EventTextAt` | xdf.cpp:382-410 | when string record k carries text, the final log holds its text up to the first 0 byte, at its timestamp, at the position the log had reached before it |
| `SamplesFacts.EventCount` | xdf.cpp:365-411 | a string chunk appends exactly numSamp events if and only if every record's length indicator is 1, 4 or 8 |
| `Samples.SamplesPayload` | xdf.cpp:160-412 | a Samples chunk keeps header, footer, interval and clock vectors; a non-string format leaves the event log and the last timestamp unchanged; the string format leaves rows and timestamps unchanged; an unrecognised format consumes only the count |
| `Samples.ReadNumericRecord` | xdf.cpp:173-194 | the record read equals the specification of one numeric record |
| `Samples.ReadNumericRecords` | xdf.cpp:171-195 | the numeric record loop's result equals the record-loop specification |
| `Samples.ReadEventRecords` | xdf.cpp:365-411 | the string record loop's result equals the event-loop specification |
| `Samples.ReadSamples` | xdf.cpp:160-412 | the Samples handler's result equals the Samples-payload specification |
| `SamplesFacts.SamplesKeepShape` | xdf.cpp:164-195 | a Samples chunk of any format keeps every row of a shaped stream as long as its timestamp list |
| `SamplesFacts.FreshStreamImplicitTime` | xdf.h:55 | a new stream starts with last timestamp 0, so the implicit time of its first record is its sampling interval |
| `SamplesFacts.NumericImplicitTimeIgnoresExplicit` | xdf.cpp:184 | in a float32 stream at 10 Hz, an explicit 1.0 followed by an implicit record gives timestamps 1.0 and 0.1 |
| `SamplesFacts.TextImplicitTimeFollowsExplicit` | xdf.cpp:410 | in a string stream at 10 Hz, the same two records give events at 1.0 and 1.1 |
| `Chunks.StreamPayload` | xdf.cpp:90-142 | a StreamHeader payload installs the header parsed from exactly the ChLen-6 bytes after the id and the sampling interval of its rate, and changes nothing else; a StreamFooter payload installs the parsed footer the same way; a ClockOffset payload appends the collection time and then the offset value, consumes 16 bytes and changes nothing else; only a Samples payload extends the event log, and it never drops an event |
| `Chunks.StreamChunk` | xdf.cpp:415-440 | a stream-bearing chunk keeps the registry invariant; it leaves the id list unchanged for a known id and appends the id for a new one; it only extends the event log |
| `Chunks.Payload` | xdf.cpp:72-479 | only tag 1 changes the version; a chunk that names no stream leaves the id list, the streams and the event log unchanged; one that names a known id keeps the id list, one that names a new id appends it |
| `Chunks.Chunk` | xdf.cpp:61-72 | one chunk always advances the cursor or ends decoding; it keeps the registry invariant and only extends the event log |
| `Chunks.ChunkLoop` | xdf.cpp:61-480 | the loop keeps the registry invariant and only extends the id list and the event log |
| `Chunks.Decode` | xdf.cpp:43-58 | decoding succeeds exactly when the magic scan gives `XDF:`; the result keeps the registry invariant and extends the prior event log |
| `Chunks.ReadChunk` | xdf.cpp:63-479 | one pass of the loop body equals the one-chunk specification |
| `Chunks.ReadChunks` | xdf.cpp:61-480 | the while loop's final state equals the chunk-loop specification |
| `ChunksFacts.ZeroLengthEndsDecoding` | xdf.cpp:65-67 | a chunk length of 0, of any width, ends decoding and changes nothing |
| `ChunksFacts.TagAt` | xdf.cpp:69-70 | a tag is a 2-byte unsigned value, below 65536 |
| `ChunksFacts.BoundarySkipped` | xdf.cpp:473-475 | a Boundary chunk advances the cursor to ChLen bytes after the length prefix and changes no state |
| `ChunksFacts.FileHeaderRead` | xdf.cpp:74-89 | a FileHeader chunk takes the version from the ChLen-2 bytes after the tag and changes nothing else |
| `ChunksFacts.UnknownTagConsumesOnlyTag` | xdf.cpp:476-478 | an unknown tag changes no state and the next chunk starts just after the tag |
| `ChunksFacts.MetadataChunkFramed` | xdf.cpp:107-112 | a StreamHeader or StreamFooter chunk names a stream and consumes exactly ChLen bytes after its length prefix |
| `ChunksFacts.ClockOffsetAppends` | xdf.cpp:415-440 | a ClockOffset chunk resolves its id, appends the two decoded doubles to that stream's clock_times and clock_values, consumes 20 bytes after the tag, and changes no other stream, field or event |
| `ChunksFacts.StreamHeaderInstalls` | xdf.cpp:90-142 | a StreamHeader chunk resolves its id and gives that stream the header parsed from its XML and the matching sampling interval, changing no other stream, field or event |
| `ChunksFacts.ChunkRegisters` | xdf.cpp:149-157 | one chunk appends to the id list the id it names, if that id is new |
| `ChunksFacts.StreamsInFirstReferenceOrder` | xdf.cpp:96-104 | after decoding, the id list is the prior list followed by every id the chunks name, each once, in order of first reference, whatever the chunk types |
| `ChunksFacts.ChunkLoopKeepsClocksParallel` | xdf.cpp:437-438 | through the whole chunk loop every stream's clock_times and clock_values keep equal lengths |
| `Dictionary.Intern` | xdf.cpp:809-827 | eventType grows by exactly one entry per visited event and dictionary only grows, both keeping their prior contents as prefixes |
| `Dictionary.InternWords` | xdf.cpp:815-820 | the dictionary grows by the event texts it did not hold, each once, in first-occurrence order |
| `Dictionary.InternTypes` | xdf.cpp:818-825 | each new eventType entry is the position, modulo 2^16, of its event's text in the final dictionary |
| `Dictionary.InternLooksUp` | xdf.h:85 | with a repeat-free dictionary of at most 65536 entries, the final dictionary is repeat-free and every new eventType entry looks up its event's text |
| `Dictionary.InternMembers` | xdf.cpp:812-819 | a text is in the final dictionary exactly when it was there before or is some event's text |
| `Dictionary.InternOrder` | xdf.cpp:819 | new dictionary entries appear in the order their texts first occur in the event log |
| `Dictionary.InternTwice` | xdf.cpp:806-828 | interning the same log again adds no texts |
| `Dictionary.InternTwiceTypes` | xdf.cpp:822-825 | on a second pass each eventType entry repeats the entry of the first pass |
| `Dictionary.InternEvents` | xdf.cpp:809-827 | the loop's dictionary and eventType equal the interning specification |
| `Stats.MinFronts` | xdf.cpp:668-673 | the result is at most its start and every non-empty stream's first timestamp, and is one of them |
| `Stats.MaxBacks` | xdf.cpp:683-688 | the result is at least its start and every non-empty stream's last timestamp, and is one of them |
| `Stats.MinEvents` | xdf.cpp:676-680 | the result is at most its start and every event timestamp, and is one of them |
| `Stats.MaxEvents` | xdf.cpp:691-695 | the result is at least its start and every event timestamp, and is one of them |
| `Stats.FirstFrontIsAFront` | xdf.cpp:660-667 | the first loop sets minTS to some stream's first timestamp when one has any, and leaves it when none has |
| `Stats.TimestampBounds` | xdf.cpp:657-696 | minTS is at most every stream's first timestamp and every event timestamp; maxTS is at least every stream's last timestamp, every event timestamp and its prior value; with a timestamp present, minTS is one of the timestamps |
| `Stats.EarliestTimestamp` | xdf.cpp:660-680 | the three minTS loops give the minTS specification |
| `Stats.LatestTimestamp` | xdf.cpp:683-695 | the two maxTS loops give the maxTS specification |
| `Stats.RateTableSpec` | xdf.cpp:707-724 | srateMap lists the distinct nonzero rates in first-occurrence order, each with the channel count summed over the streams of that rate |
| `Stats.FirstMax` | xdf.cpp:727-731 | the index of the first entry with the most channels |
| `Stats.MajorRateIsHeaviest` | xdf.cpp:698-734 | with a regular stream present, majSR is a nonzero rate with the largest summed channel count, the first such rate in stream order on a tie, and the as-written computation agrees |
| `Stats.MajorRateAsWrittenOnMarkerStream` | xdf.cpp:727-733 | a file whose only stream has rate 0 leaves srateMap empty, so the written code indexes an empty vector; the corrected rate is 0 |
| `Stats.MajorRateNoRegularStream` | xdf.cpp:698-734 | for every file, the written computation finds no srateMap entry exactly when no stream has a nonzero rate, and the corrected majSR is then 0 |
| `Stats.MajorSamplingRate` | xdf.cpp:704-733 | the loop's result equals the major-rate specification |
| `Layout.ChannelMap` | xdf.cpp:739-749 | calcTotalChannel never shortens streamMap |
| `Layout.ChannelMapKeepsPrior` | xdf.cpp:744-747 | the prior entries of streamMap stay as its prefix |
| `Layout.TotalChannels` | xdf.cpp:743 | totalCh after the loop is below 2^64 |
| `Layout.ChannelMapStreams` | xdf.cpp:741-747 | the new entries name streams with samples, in strictly increasing stream order |
| `Layout.ChannelMapCovers` | xdf.cpp:741-747 | every stream with samples has an entry in streamMap |
| `Layout.ChannelMapEntry` | xdf.cpp:744-747 | each entry holds, modulo 2^32, the prior total plus the channels of the streams with samples up to and including its stream |
| `Layout.ChannelMapTotal` | xdf.h:74-78 | with totalCh and streamMap starting empty and counts that fit, the last streamMap entry equals totalCh, the channel sum over streams with samples |
| `Layout.ChannelMapExact` | xdf.cpp:744-747 | in that case each entry is the exact running total, and it is at least the total before it |
| `Layout.ChannelMapMonotone` | xdf.h:78 | in that case the running totals of streamMap never decrease |
| `Layout.Widened` | xdf.cpp:768-778 | totalLen ends at least its prior value and at least the first-row length of every stream with samples, and equals one of them |
| `Layout.Decimal` | xdf.cpp:786 | `std::to_string` of a natural number is a non-empty digit string without a leading zero |
| `Layout.DecimalRoundTrip` | xdf.cpp:793 | reading the digits back gives the number |
| `Layout.Owner` | xdf.cpp:788-799 | the first streamMap entry whose running total exceeds the channel, or none |
| `Layout.LabelsDistinct` | xdf.cpp:785-786 | different channels get different labels |
| `Layout.LabelNamesOwner` | xdf.cpp:781-804 | in the untruncated case each channel below totalCh has an owning entry whose stream spans the channel, and the label names that stream's number, name and type |
| `Layout.ChannelMapIndexes` | xdf.cpp:745-747 | calcTotalChannel keeps every streamMap entry naming a stream |
| `Layout.CalcChannels` | xdf.cpp:739-749 | the loop's totalCh and streamMap equal their specifications |
| `Layout.WidenLength` | xdf.cpp:770-777 | the loop's totalLen equals the widening specification |
| `Layout.FindOwner` | xdf.cpp:788-800 | the inner search returns the owning entry |
| `Layout.MakeLabels` | xdf.cpp:783-803 | the outer loop's labels equal the label specification |
| `Resampling.ResampleRowLocal` | xdf.cpp:540-584 | a resampled channel row depends only on that row and the two rates: streams of the same rate that agree on row w agree on it afterwards |
| `Resampling.Resample` | xdf.cpp:518-593 | resampling changes only a stream's rows and keeps their count; the header keeps its nominal rate |
| `Resampling.ResampleSkips` | xdf.cpp:520-522 | streams without samples, at the target rate, or irregular are unchanged |
| `Resampling.ResampledStaysEligible` | xdf.cpp:592 | a resampled stream is still eligible for the same target |
| `Resampling.ResampleAllKeeps` | xdf.cpp:518-594 | the stream loop keeps the stream count, each stream's timestamps, its row count and its clock pairing |
| `Resampling.FreedAsWritten` | xdf.cpp:758-763 | the written code fails exactly for a regular stream with no timestamps |
| `Resampling.HeaderOnlyStreamHasNoFront` | xdf.cpp:762 | a regular stream that never got samples makes the written code read the front of an empty vector |
| `Resampling.FreedKeepsFront` | xdf.cpp:752-766 | the corrected trim agrees with the written one where that is defined; it keeps at most one timestamp of a regular stream and keeps the first one; irregular streams are whole |
| `Resampling.FreedIdempotent` | xdf.cpp:755-764 | trimming twice trims no further |
| `Resampling.FreedKeepsMinimum` | xdf.cpp:761 | the trim keeps every stream's first timestamp, so findMinMax would find the same minTS |
| `Resampling.ResampleStream` | xdf.cpp:524-590 | the per-channel loop gives the resampled stream |
| `Resampling.ResampleStreams` | xdf.cpp:518-594 | the stream loop gives every stream resampled |
| `Resampling.FreeTimeStamps` | xdf.cpp:755-765 | the loop gives every stream trimmed |
| `Xdf.Xdf.constructor` | xdf.h:74-76 | a new object has no streams, events, dictionary or labels, and minTS, maxTS and totalCh of 0 |
| `Xdf.Xdf.LoadXdf` | xdf.cpp:17-508 | the result is true exactly when the magic code is `XDF:`; on false nothing changes; on true version, streams and eventMap are the decoded ones, minTS, maxTS and majSR are recomputed, and every other field is unchanged |
| `Xdf.Xdf.FindMinMax` | xdf.cpp:657-696 | only minTS and maxTS change, to the bounds over the streams and events |
| `Xdf.Xdf.FindMajSR` | xdf.cpp:698-734 | only majSR changes, to the major rate |
| `Xdf.Xdf.CalcTotalChannel` | xdf.cpp:736-750 | only totalCh and streamMap change, extended by the streams with samples, and streamMap keeps naming streams |
| `Xdf.Xdf.AdjustTotalLength` | xdf.cpp:768-778 | only totalLen changes, widened to every first-row length |
| `Xdf.Xdf.LoadDictionary` | xdf.cpp:806-828 | only dictionary and eventType change, by interning eventMap |
| `Xdf.Xdf.CreateLabels` | xdf.cpp:781-804 | only labels changes, by appending one label per channel below totalCh |
| `Xdf.Xdf.FreeUpTimeStamps` | xdf.cpp:752-766 | only streams changes, each trimmed |
| `Xdf.Xdf.ResampleXdf` | xdf.cpp:510-621 | streams are resampled then trimmed; totalCh and streamMap are extended over the resampled streams; totalLen is the estimate widened; the dictionary is interned; labels are appended; nothing else changes |

## Left out

- File opening, `seekg`, `exit(EXIT_FAILURE)`, console messages and the `clock()` timing printouts: the input is a byte sequence, and a failed magic check is a `false` result with no change of state.
- The unreadable-file branch (xdf.cpp:502-506) is not modelled, because with a byte sequence as input there is no file to fail to open.
- The XML metadata parser (pugixml): the file version, the stream header fields and the footer fields are function values of the chunk's XML bytes (`Model.Codecs`). Only the framing of those chunks is modelled.
- IEEE-754 decoding: an 8-byte timestamp or clock value is a function value of its bytes. float32 and double64 samples are kept as their raw bytes.
- `Model.DecodeValue`: keeps intN samples as exact integers, whereas the source stores every sample into a `float` row, which rounds integers above 2^24 in magnitude.
- `Samples.RecordTime`: timestamps are exact reals, whereas the source narrows them to `float` when storing them in `time_stamps`, `last_timestamp` and `eventMap`.
- `Model.SamplingInterval`: is the exact 1/rate, without the rounding of the double division and the narrowing to float.
- `Stats.RateTable`: per-rate channel sums are exact integers, whereas in `findMajSR` (xdf.cpp:701-721) they are `int` and `srateMap[index].second += channel_count` has undefined behaviour on signed 32-bit overflow.
- Nominal rates are integers. The comparison in `findMajSR` of the truncated `int` key with the `double` rate is therefore not modelled.
- `totalLen = (maxTS - minTS) * userSrate` with its float to `uint64_t` conversion: `Xdf.Xdf.ResampleXdf` takes the resulting natural number as a parameter.
- The smarc polyphase resampler: whether a filter can be built, and the output a channel row becomes (resample plus flush, with the state reset per row), are function values (`Resampling.Resampler`). Buffer sizes and copying are not modelled.
- `majSR`, `totalLen` and `version` (xdf.h:69) are not initialised by the C++ class. The constructor starts them at 0.
- The commented-out `.xdfz` decompression (xdf.cpp:23-31).
- `userPreferredSrate` (xdf.h:98) is never read by the core.
- test.cpp is not part of this model. It is a command-line printer.
- `Chunks.StreamPayload`, `Chunks.Payload`, `Samples.SamplesPayload`: a too-short chunk length for tags 1, 2 and 6 and a negative `channel_count` end decoding with no result, whereas the source throws an exception (`std::bad_array_new_length`, `std::length_error`) out of `load_xdf`; the model does not promise that exception. A numeric Samples chunk whose `channel_count` exceeds the sized rows also ends decoding, where the source's write past the rows is undefined.

## Findings

| source | as written | input that shows it | evidently intended | confidence | as-written member | corrected member |
|---|---|---|---|---|---|---|
| xdf.cpp:727-733 | `srateMap[index]` is read even when `srateMap` is empty, past the end of the vector | a file whose only stream is a marker stream with `nominal_srate` 0 | `majSR` is 0 when no stream has a nonzero rate | not executed; high | `Stats.MajorRateAsWrittenOnMarkerStream` | `Stats.MajorRateNoRegularStream` |
| xdf.cpp:758-763 | `time_stamps.front()` is read for every regular stream, including one with no timestamps | a StreamHeader with `nominal_srate` 100 and no Samples chunk for that stream | a regular stream with no timestamps keeps its empty vector | not executed; high | `Resampling.HeaderOnlyStreamHasNoFront` | `Resampling.FreedKeepsFront` |
