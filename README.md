# A verified model of the pyotdr-next SOR reader

This project models the decode path of pyotdr-next. That is a reader for Bellcore/Telcordia SOR files (Standard OTDR Record, Telcordia SR-4731), the binary traces that optical time-domain reflectometers write.

The reader works on one immutable byte sequence with one shared cursor, in these steps:

1. It sniffs the layout: a first string "Map" means version 2; anything else means version 1.
2. It decodes the map block, which is the block directory. The map starts at offset 0 in version 1 and at offset 4 in version 2.
3. By name, it gives every directory entry it knows a block parser, in directory order.
4. It runs those parsers in order and appends the map block last.

The block decoders modelled are GenParams, SupParams, KeyEvents, DataPts and Cksum, in both layouts. The Cksum decoder uses a CRC-16/CCITT-FALSE written out in Dafny.

Modules, one per source file:

| module | file | what it holds |
|---|---|---|
| `SorTypes` | sor_types.dfy | bytes, the decode errors, `Result`/`Option`, `Parsed` (a value with the cursor after it) |
| `FileHandles` | file_handle.dfy | the shared binary file as a class: immutable `data`, mutable `pos`; `read(n)` returns fewer bytes at the end |
| `TypeParser` | type_parser.dfy | `StringParser` and the six little-endian integer parsers, each as a spec function and a method over the file handle |
| `Rendering` | rendering.dfy | `str(n)` and `f"{x:.2f}"` over integer hundredths |
| `BlockData` | block_data.dfy | the records and the FiberType/EventType/EventModeType enums with their value tables and renderings |
| `AbstractParser` | abstract_parser.dfy | the package's `BlockParser` (records the offset; `parse` seeks) and the "<Name>\0" prefix check |
| `MapBlockDecoder` | map_block.dfy | the directory decode with its running-sum positions |
| `GenParamsDecoder`, `SupParamsDecoder`, `KeyEventsDecoder`, `DataPointsDecoder`, `CksumDecoder` | gen_params.dfy, sup_params.dfy, key_events.dfy, data_points.dfy, checksum.dfy | the per-block decoders, versions 1 and 2 |
| `Crc16` | crc16.dfy | CRC-16/CCITT-FALSE: polynomial 0x1021, init 0xFFFF, no reflection, no final XOR |
| `EagerParsers` | block_parser.dfy | the parsers the file reader imports: they seek when built; only the map parser decodes |
| `SorFileParser` | file_parser.dfy | version sniffing, the lookup tables, `PartParser`, the file readers and the whole-file result |

Every decoder has two forms, proved to agree:

- A pure function `XAt(data, pos)` gives the decoded record and the position just past it, or the error that stops the decode.
- A method performs the same reads one call at a time over the shared `FileHandle`. Its postcondition ties its result and the final cursor to that function.

What the functions promise is proved as lemmas about the functions:

- Shapes: what a successful decode consists of.
- Error conditions.
- Round trips: a block laid out field by field by a writer reads back as exactly that record, and the decode ends where the writer's bytes end.
- Properties of the CRC.

Scaled quantities (×0.01, ×0.001, /1000) are kept as the stored integers. Where a scaled value is stated, a `real` function gives its exact value.

Two error paths of the code are kept as they are:

- A string read at the end of the input fails. `read(1)` then returns `b""`, which never equals `""`, so the loop goes on and `struct.unpack` raises (otdr/type_parser.py:20-21). The model reports a truncation error and never returns partial text.
- An event code that matches `(.)(.)9999LS` but whose subtype is not 0, 1 or 2, or whose mode is not A, E, F, M or D, fails the decode. The enum constructors `EventType(int(subtype))` and `EventModeType(mode)` raise on such values (otdr/block_parsers/key_events.py:32, otdr/block_data_structure.py:178-189).

## Model

| member | source | states |
|---|---|---|
| TypeParser.StringAtSpec | otdr/type_parser.py:17-27 | a string read fails exactly when no 0x00 follows the cursor; otherwise it returns the bytes up to the first 0x00, which contain no 0x00, and the cursor ends just past that terminator |
| TypeParser.StringAtOneTerminator | otdr/type_parser.py:18-25 | the bytes a string read consumes hold exactly one 0x00, as their last byte |
| TypeParser.StringAtEncoded | otdr/type_parser.py:17-27 | a terminator-free text followed by 0x00 reads back as that text, leaving the cursor on the byte after the terminator |
| TypeParser.ParseString | otdr/type_parser.py:17-27 | the byte-at-a-time loop returns what StringAt specifies and leaves the cursor after the terminator; an empty read ends it with an error, never with partial text |
| TypeParser.LittleEndianOfTo | otdr/type_parser.py:35-36 | decoding the w-byte little-endian encoding of any n below 256^w gives n back |
| TypeParser.ToLittleEndianOf | otdr/type_parser.py:35-36 | re-encoding the value of any byte run at its own width gives the same bytes: the encoding is a bijection |
| TypeParser.UnsignedAt | otdr/type_parser.py:30-46 | an unsigned w-byte read succeeds exactly when w bytes remain, advances by exactly w and yields a value below 256^w; fewer bytes is a truncation error, never a short value |
| TypeParser.UShortValue | otdr/type_parser.py:39-41 | a u16 read yields b0 + 256·b1 |
| TypeParser.SignedAt | otdr/type_parser.py:49-61 | a signed w-byte read succeeds exactly when w bytes remain, advances by w, and lies in [-256^w/2, 256^w/2) |
| TypeParser.SignedRoundTrip | otdr/type_parser.py:49-61 | the two's-complement reinterpretation inverts the unsigned pattern of every in-range signed value |
| TypeParser.UnsignedAtEncoded | otdr/type_parser.py:30-46 | an in-range value stored little-endian reads back as itself, and the rest of the input begins exactly w bytes on |
| TypeParser.SignedAtEncoded | otdr/type_parser.py:49-61 | an in-range signed value stored as its two's-complement pattern reads back as itself, w bytes consumed |
| TypeParser.ParseUShort | otdr/type_parser.py:39-41 | the method returns the u16 at the cursor (or a truncation error) and moves the cursor as `read(2)` does |
| TypeParser.ParseUint | otdr/type_parser.py:30-36 | likewise for the u32 |
| TypeParser.ParseULong | otdr/type_parser.py:44-46 | likewise for the u64 |
| TypeParser.ParseShort | otdr/type_parser.py:54-56 | likewise for the i16 |
| TypeParser.ParseInt | otdr/type_parser.py:49-51 | likewise for the i32 |
| TypeParser.ParseLong | otdr/type_parser.py:59-61 | likewise for the i64 |
| TypeParser.RepeatChain | otdr/block_parsers/key_events.py:54-55 | a counted loop of reads, each succeeding where the previous one ended, returns the items in file order and ends where the last one ended |
| Rendering.DecimalText | otdr/block_data_structure.py:144-145 | `str(n)` is a non-empty run of decimal digits without a leading zero, one digit exactly when n < 10 |
| Rendering.DecimalRoundTrip | otdr/block_data_structure.py:144-145 | reading the digits of `str(n)` back gives n |
| Rendering.DecimalTextInjective | otdr/block_data_structure.py:144-145 | different numbers print differently |
| Rendering.HundredthsText | otdr/block_parsers/map_block.py:29-31 | `f"{raw * 0.01:.2f}"` is digits, a dot and exactly two decimal digits |
| Rendering.HundredthsRoundTrip | otdr/block_parsers/map_block.py:29-31 | the rendered text reads back to the raw stored value |
| Rendering.HundredthsTextInjective | otdr/block_parsers/map_block.py:29-31 | two different raw versions never print alike |
| Rendering.HundredthsExample | otdr/block_parsers/map_block.py:29-31 | 200 prints "2.00" and 1234 prints "12.34" |
| BlockData.VersionText | otdr/block_parsers/map_block.py:31 | a directory entry's version text has the two-decimal shape |
| BlockData.VersionTextDeterminesVersion | otdr/block_parsers/map_block.py:29-31 | two entries print the same version text exactly when they store the same raw version |
| BlockData.FiberCode | otdr/block_data_structure.py:135-142 | every fiber type is valued between 651 and 657 |
| BlockData.FiberTypeOf | otdr/block_data_structure.py:135-142 | `FiberType(code)` is defined exactly for 651..657, gives the member with that value, and otherwise fails with that code |
| BlockData.FiberTypeOfCode | otdr/block_data_structure.py:135-142 | converting a member's value gives the member back |
| BlockData.FiberTypeText | otdr/block_data_structure.py:144-145 | `str(fiber_type)` is five bytes starting "G." |
| BlockData.FiberTypeTextNamesCode | otdr/block_data_structure.py:144-145 | the digits after "G." read back as the member's code |
| BlockData.FiberTypeTextInjective | otdr/block_data_structure.py:144-145 | different fiber types render differently |
| BlockData.FiberTypeTextExample | otdr/block_data_structure.py:144-145 | G652 renders as "G.652" |
| BlockData.EventTypeValue | otdr/block_data_structure.py:186-189 | event types are valued 0, 1 or 2 |
| BlockData.EventTypeOf | otdr/block_data_structure.py:186-189 | `EventType(v)` is defined exactly for 0, 1 and 2 and gives the member with that value |
| BlockData.EventTypeText | otdr/block_data_structure.py:24-25 | an event type renders as its bare value, one digit |
| BlockData.EventTypeTextRoundTrip | otdr/block_data_structure.py:24-25 | reading the rendered digit back and converting it gives the same member |
| BlockData.EventModeOf | otdr/block_data_structure.py:178-183 | `EventModeType(c)` is defined exactly for the letters A, E, F, M, D, each member valued as its own letter |
| BlockData.EventModeText | otdr/block_data_structure.py:24-25 | a mode renders as its letter alone, which converts back to the same mode |
| AbstractParser.BlockParser.constructor | otdr/block_parsers/abstract_parser.py:19-24 | building a block parser records the file, the decoder and the start offset (0 unless given) and does not move the cursor |
| AbstractParser.BlockParser.Seek | otdr/block_parsers/abstract_parser.py:26-29 | the first step of every `parse` puts the cursor at the start offset, wherever it was |
| AbstractParser.BlockNameAt | otdr/block_parsers/checksum.py:27-29 | the version 2 prefix check succeeds exactly when the next bytes are "<Name>\0" and gives the position after them; otherwise it fails, naming what was expected and what was found |
| AbstractParser.BlockNameAtEncoded | otdr/block_parsers/sup_params.py:29-31 | a block that starts with its own name and 0x00 passes the check, and the body begins right after |
| AbstractParser.ExpectBlockName | otdr/block_parsers/gen_params.py:42-44 | the check over the file handle reads `len(name) + 1` bytes and agrees with BlockNameAt |
| MapBlockDecoder.EntryCount | otdr/block_parsers/map_block.py:24 | the number of entries read is the stored block count minus the map block itself, and none for a count of 0 or 1 |
| MapBlockDecoder.MapBlockAt | otdr/block_parsers/map_block.py:18-34 | any failure of the directory decode is a truncation |
| MapBlockDecoder.BlocksFromShape | otdr/block_parsers/map_block.py:27-33 | the entry loop appends exactly n entries to those already read, numbered on from them and each starting where the previous one ends |
| MapBlockDecoder.MapBlockAtShape | otdr/block_parsers/map_block.py:18-34 | a decoded directory has the header's u16 version and u32 length, one entry fewer than the stored count, entries numbered 0, 1, … in file order, the first at the header length and each later one after its predecessor |
| MapBlockDecoder.MapPositionsAreRunningSums | otdr/block_parsers/map_block.py:25-33 | every entry's position is the header length plus the sizes of all entries before it |
| MapBlockDecoder.MapBlockAtEncoded | otdr/block_parsers/map_block.py:18-34 | a directory laid out by a writer reads back as exactly the entries it describes, with the running-sum positions, ending where the writer's bytes end |
| MapBlockDecoder.EmptyDirectory | otdr/block_parsers/map_block.py:24-27 | a stored count of 0 or 1 gives an empty directory right after the 8 header bytes |
| MapBlockDecoder.BlocksFromStop | otdr/block_parsers/map_block.py:27-33 | one failed entry read fails the whole directory with that error |
| MapBlockDecoder.ReadEntries | otdr/block_parsers/map_block.py:27-33 | the `for` loop appending entries and accumulating `block_position` computes the directory the spec function describes and leaves the cursor after the last entry |
| MapBlockDecoder.ReadMapBlock | otdr/block_parsers/map_block.py:20-34 | the header-then-entries reads from the cursor agree with MapBlockAt, cursor included |
| MapBlockDecoder.ParseMapBlock | otdr/block_parsers/map_block.py:18-34 | the package parser seeks to its offset first, so its result is MapBlockAt at that offset, whatever the cursor was before |
| GenParamsDecoder.GenParamsV1At | otdr/block_parsers/gen_params.py:18-34 | a version 1 decode fails only by truncation and never carries a fiber type or a user offset distance |
| GenParamsDecoder.V2StartAt | otdr/block_parsers/gen_params.py:42-49 | a wrong prefix fails with the prefix error before anything else is read; the fiber type code is converted as soon as it is read |
| GenParamsDecoder.GenParamsV2At | otdr/block_parsers/gen_params.py:37-59 | a wrong prefix fails with the prefix error; failures are truncation, prefix or unsupported fiber type; a success carries both version 2 fields |
| GenParamsDecoder.GenParamsV1Encoded | otdr/block_parsers/gen_params.py:22-33 | the eleven version 1 fields, in their order (2 raw bytes of language, …, 2 raw bytes of build condition, i32 offset, …), read back as the record and end where the writer's bytes end |
| GenParamsDecoder.GenParamsV2Encoded | otdr/block_parsers/gen_params.py:45-58 | the version 2 layout, with "GenParams\0", the fiber code after the fiber id and the i32 distance after the user offset, reads back as the record |
| GenParamsDecoder.GenParamsV2UnsupportedFiber | otdr/block_parsers/gen_params.py:49 | a version 2 block whose fiber code is outside 651..657 fails with that code, whatever follows |
| GenParamsDecoder.ParseGenParamsV1 | otdr/block_parsers/gen_params.py:18-34 | the seek and the sequence of cursor reads return what GenParamsV1At gives at the block's offset |
| GenParamsDecoder.ParseGenParamsV2 | otdr/block_parsers/gen_params.py:37-59 | likewise for version 2 |
| SupParamsDecoder.SupParamsV1At | otdr/block_parsers/sup_params.py:10-22 | a version 1 decode fails only by truncation and consumes at least one byte |
| SupParamsDecoder.SupParamsV2At | otdr/block_parsers/sup_params.py:25-40 | a wrong "SupParams\0" prefix fails with the prefix error; other failures are truncation |
| SupParamsDecoder.SupParamsV2Body | otdr/block_parsers/sup_params.py:32-40 | behind a correct prefix, version 2 reads exactly what version 1 reads 10 bytes further on |
| SupParamsDecoder.SupParamsV1Positions | otdr/block_parsers/sup_params.py:14-22 | the decode is seven string reads in a row, each starting where the previous ended |
| SupParamsDecoder.SupParamsV1Terminators | otdr/block_parsers/sup_params.py:14-22 | the bytes consumed hold exactly seven 0x00 and end with one: the cursor stops just past the seventh terminator |
| SupParamsDecoder.SupParamsV1Encoded | otdr/block_parsers/sup_params.py:14-22 | seven terminator-free strings, in the order supplier, OTDR, serial, module, module serial, software, other, read back as the record |
| SupParamsDecoder.SupParamsV2Encoded | otdr/block_parsers/sup_params.py:29-40 | the same after "SupParams\0" |
| SupParamsDecoder.ParseSupParamsV1 | otdr/block_parsers/sup_params.py:10-22 | the seek and seven string reads return what SupParamsV1At gives at the block's offset |
| SupParamsDecoder.ParseSupParamsV2 | otdr/block_parsers/sup_params.py:25-40 | likewise for version 2 |
| KeyEventsDecoder.SubtypeOf | otdr/block_parsers/key_events.py:30-32 | `EventType(int(c))` succeeds exactly for the digits 0, 1 and 2 |
| KeyEventsDecoder.ClassifyEventCode | otdr/block_parsers/key_events.py:26-34 | a code matching `(.)(.)9999LS` gets both a type and a mode, and one that does not match gets neither; the code is kept; a matching code fails exactly when its subtype or mode names no member, with that character |
| KeyEventsDecoder.ClassifyEventCodeOf | otdr/block_parsers/key_events.py:26-34 | the code stored for any type and mode classifies back to that type and mode |
| KeyEventsDecoder.ClassifiedIsEventCode | otdr/block_parsers/key_events.py:26-34 | a code classified with a type and mode is, in its first eight bytes, the code stored for them |
| KeyEventsDecoder.ClassifyEventCodeExamples | otdr/block_parsers/key_events.py:26-34 | "1F9999LS" is a reflection in mode F, "ZZ000000" is unknown, "3A9999LS" and "0X9999LS" fail |
| KeyEventsDecoder.EventCode | otdr/block_parsers/key_events.py:68 | a stored type code is 8 bytes |
| KeyEventsDecoder.EventHeadAt | otdr/block_parsers/key_events.py:63-69 | the fixed fields of an event need 14 bytes before the type code, and the head ends 22 bytes on (or at the end of input) |
| KeyEventsDecoder.MarkersAt | otdr/block_parsers/key_events.py:110-114 | the five version 2 positions succeed exactly when 20 bytes remain and consume exactly 20 |
| KeyEventsDecoder.EventAt | otdr/block_parsers/key_events.py:60-116 | an event has its version 2 positions exactly in the version 2 layout; failures are truncation or an unsupported type or mode |
| KeyEventsDecoder.EventCommentSpan | otdr/block_parsers/key_events.py:63-76 | an event is 22 fixed bytes (42 in version 2), then its comment and that comment's terminator |
| KeyEventsDecoder.EventsFrom | otdr/block_parsers/key_events.py:54-55 | the event loop appends exactly n events to those already read |
| KeyEventsDecoder.SummaryAt | otdr/block_parsers/key_events.py:36-45 | the summary succeeds exactly when 22 bytes remain and consumes exactly 22 |
| KeyEventsDecoder.KeyEventsAt | otdr/block_parsers/key_events.py:48-92 | in version 2 a wrong "KeyEvents\0" prefix fails with the prefix error; failures are truncation, prefix or an unsupported type or mode |
| KeyEventsDecoder.KeyEventsEncoded | otdr/block_parsers/key_events.py:48-116 | a count, that many events in the layout's order and a summary, laid out by a writer, read back as exactly those events in file order and that summary |
| KeyEventsDecoder.ReadEvents | otdr/block_parsers/key_events.py:53-55 | the loop appending `number_of_events` events returns what EventsFrom gives and leaves the cursor after the last one |
| KeyEventsDecoder.ParseKeyEvents | otdr/block_parsers/key_events.py:47-92 | the seek and the reads return what KeyEventsAt gives at the block's offset |
| DataPointsDecoder.SampleMin | otdr/block_parsers/data_points.py:26 | `min(points)` is a sample and is at most every sample |
| DataPointsDecoder.SampleMax | otdr/block_parsers/data_points.py:27 | `max(points)` is a sample and is at least every sample |
| DataPointsDecoder.ReportedMinAtMostMax | otdr/block_parsers/data_points.py:24-27 | for every block that decodes, the reported minimum, min × 0.001 × raw/1000, is never above the reported maximum, and every sample scaled the same way lies between the two |
| DataPointsDecoder.DataPtsBodyAt | otdr/block_parsers/data_points.py:13-32 | the body fails only by truncation or for an empty sample list |
| DataPointsDecoder.DataPtsAt | otdr/block_parsers/data_points.py:10-60 | in version 2 a wrong "DataPts\0" prefix fails with the prefix error; other failures are truncation or no samples |
| DataPointsDecoder.DataPtsV2Body | otdr/block_parsers/data_points.py:39-59 | behind a correct prefix, version 2 reads exactly what version 1 reads 8 bytes further on |
| DataPointsDecoder.DataPtsBodyShape | otdr/block_parsers/data_points.py:14-26 | the body decodes exactly when its 12 header bytes and 2N sample bytes are there and N > 0, and then consumes 12 + 2N bytes; N = 0 fails with no samples; the trace count plays no part |
| DataPointsDecoder.DataPointsContents | otdr/block_parsers/data_points.py:14-31 | a decoded block holds N samples, the i-th being the u16 at its place after the header in file order, all between the reported minimum and maximum, which are samples themselves; it ends after the last sample (12 + 2N bytes, 20 + 2N in version 2) |
| DataPointsDecoder.DataPtsEncoded | otdr/block_parsers/data_points.py:11-32 | a block laid out by a writer (count, trace count, count again, scale, samples) reads back as the record |
| DataPointsDecoder.ReadSamples | otdr/block_parsers/data_points.py:23 | the comprehension of N u16 reads returns what `SamplesFrom` gives, in order, with the cursor after the last sample |
| DataPointsDecoder.ParseDataPts | otdr/block_parsers/data_points.py:10-60 | the seek and the reads return what DataPtsAt gives at the block's offset |
| Crc16.CrcValue | otdr/block_parsers/checksum.py:18-20 | the computed checksum is below 2^16 |
| Crc16.CrcFromAppend | otdr/block_parsers/checksum.py:19 | feeding two runs one after the other is feeding their concatenation |
| Crc16.SingleByteChangeDetected | otdr/block_parsers/checksum.py:18-19 | two inputs differing in exactly one byte have different CRCs |
| Crc16.CheckValue | otdr/block_parsers/checksum.py:18 | the CRC of "123456789" is 0x29B1, the catalogue check value of CRC-16/CCITT-FALSE |
| Crc16.ComputeCrc | otdr/block_parsers/checksum.py:19 | updating the 16-bit register in place once per byte computes the CRC of the whole buffer |
| CksumDecoder.CksumAt | otdr/block_parsers/checksum.py:12-34 | the Cksum decode fails only by truncation or a wrong prefix; a mismatch is never an error |
| CksumDecoder.CksumShape | otdr/block_parsers/checksum.py:12-34 | the block decodes exactly when any prefix is in place and the two stored bytes are there; the record holds the stored u16 and the CRC of every byte before it (below 2^16), and `match` holds exactly when they are equal |
| CksumDecoder.SingleByteChangeBreaksMatch | otdr/block_parsers/checksum.py:18-20 | changing any one covered byte turns an agreeing checksum into a disagreeing one (version 2 may instead fail on a spoiled prefix); in version 1 the decode still succeeds |
| CksumDecoder.CksumWritten | otdr/block_parsers/checksum.py:12-34 | a writer storing the CRC of everything before the value (including "Cksum\0" in version 2) produces a block that reads back as agreeing |
| CksumDecoder.ParseCksum | otdr/block_parsers/checksum.py:12-34 | the seek, prefix check, u16 read, rewind and CRC update return what CksumAt gives and leave the cursor where the covered span ends |
| EagerParsers.EagerParser.constructor | otdr/block_parser.py:19-25 | building one of these parsers moves the cursor to its start offset (0 unless given) at once |
| EagerParsers.EagerParser.Parse | otdr/block_parser.py:32-88 | the map parser decodes at wherever the cursor is, without a seek of its own; a stub returns nothing and leaves the cursor alone |
| EagerParsers.ReadMapAt | otdr/block_parser.py:19-48 | building the map parser at an offset and parsing at once yields the same directory as the package map parser at that offset |
| EagerParsers.RunStub | otdr/block_parser.py:51-88 | a stub built at any offset returns nothing and leaves the cursor at that offset |
| SorFileParser.VersionAt | otdr/file_parser.py:151-157 | sniffing fails only by truncation |
| SorFileParser.VersionAtShape | otdr/file_parser.py:151-157 | sniffing fails exactly when the file holds no 0x00, and answers version 2 exactly when the file starts with "Map\0" |
| SorFileParser.SniffVersion | otdr/file_parser.py:147-153 | rewind, read the first string, rewind: the answer depends only on the bytes (so sniffing twice agrees) and the cursor ends at 0 |
| SorFileParser.MapOffset | otdr/file_parser.py:117 | the version 2 map starts just past "Map\0" |
| SorFileParser.KnownNamesGetParsers | otdr/file_parser.py:96-109 | an entry gets a parser exactly when its name is one of the eight table names; any other name is skipped |
| SorFileParser.AsWrittenTablesDiffer | otdr/file_parser.py:124-137 | as written, the two layouts' tables differ in the GenParams, SupParams and KeyEvents entries and nowhere else |
| SorFileParser.AsWrittenOmitsSamplesAndChecksum | otdr/file_parser.py:96-109 | as written, no entry gets a parser that returns a sample or checksum record |
| SorFileParser.IntendedSamplesAndChecksum | otdr/file_parser.py:124-137 | with the intended wiring, DataPts and Cksum entries get the decoders of the file's own layout |
| SorFileParser.IntendedTablesDiffer | otdr/file_parser.py:124-137 | with the intended wiring, the tables differ exactly in the five entries that have a real decoder |
| SorFileParser.WiringsDiffer | otdr/file_parser.py:96-109 | the as-written and intended tables disagree on the DataPts and Cksum entries only |
| SorFileParser.DecodersMatchTheirBlocks | otdr/file_parser.py:124-137 | with the intended wiring, every real decoder reads the block it is named after in the file's own layout, and each decodable block gets one; as written, DataPts and Cksum get stubs |
| SorFileParser.Registered | otdr/file_parser.py:90-94 | the loop registers at most one parser per directory entry |
| SorFileParser.RegisteredStep | otdr/file_parser.py:90-94 | one more entry registers one more parser exactly when its name is in the table, appended after the others |
| SorFileParser.RecognisedIndices | otdr/file_parser.py:90-94 | the entries whose names get a parser, in increasing directory order, and exactly those |
| SorFileParser.RegisteredFollowsDirectory | otdr/file_parser.py:90-109 | one registered parser per recognised entry, in directory order, each running the table's parser for that name from that entry's position |
| SorFileParser.DecodeBlock | otdr/block_parser.py:32-88 | a registered parser that succeeds returns the record kind its decoder produces: the map parser of this file and the stubs here (which return nothing), and, through the tables of otdr/file_parser.py:96-137, the GenParams, SupParams, KeyEvents, DataPts and Cksum decoders of otdr/block_parsers/ for the file's layout |
| SorFileParser.RunParser | otdr/file_parser.py:81 | running one block parser returns what DecodeBlock gives at its offset |
| SorFileParser.Collect | otdr/file_parser.py:80-81 | collecting `p.parse()` in order succeeds exactly when every parser does, and then holds each parser's record at its index |
| SorFileParser.CollectReportsFirstError | otdr/file_parser.py:80-81 | a failed collection reports the error of the first parser that fails, all earlier ones having succeeded |
| SorFileParser.CollectFirstError | otdr/file_parser.py:80-81 | once a parser fails, the later parsers change nothing |
| SorFileParser.PartsAtOutcome | otdr/file_parser.py:80-81 | running the registered parsers succeeds exactly when every one of them decodes its block, and then holds each one's record at its index; otherwise it fails with the error of the first parser that fails, all earlier ones having succeeded |
| SorFileParser.PartParser.constructor | otdr/file_parser.py:74-75 | a new part parser has no parsers |
| SorFileParser.PartParser.RegisterParser | otdr/file_parser.py:77-78 | registering appends the parser after all earlier ones |
| SorFileParser.PartParser.Parse | otdr/file_parser.py:80-81 | running the registered parsers in order returns every record, or the first error |
| SorFileParser.WithMap | otdr/file_parser.py:61-64 | the file's result is the parsers' records followed by the map block, one longer; a parser's error is the file's error |
| SorFileParser.RecordsFollowDirectory | otdr/file_parser.py:80-94 | the records hold one entry per recognised directory entry, in directory order, each the decode of that entry's block at its offset |
| SorFileParser.EntryOfRecord | otdr/file_parser.py:80-94 | every record comes from a recognised directory entry |
| SorFileParser.RecordOfEntry | otdr/file_parser.py:80-94 | every recognised directory entry gives a record |
| SorFileParser.AsWrittenRecordsDrop | otdr/file_parser.py:96-109 | as written, the registered parsers never return a sample or checksum record |
| SorFileParser.DecodedSamples | otdr/block_parsers/data_points.py:10-60 | a sample decoder that succeeds returns that block's sample record |
| SorFileParser.DecodedChecksum | otdr/block_parsers/checksum.py:12-34 | a checksum decoder that succeeds returns that block's checksum record |
| SorFileParser.SorFileShape | otdr/file_parser.py:61-64 | the whole file: one record per recognised entry in directory order, each the decode at that entry's offset, then the map block; length = recognised entries + 1 |
| SorFileParser.AsWrittenDropsSamplesAndChecksum | otdr/file_parser.py:96-109 | as written, the reader's result never holds a sample or checksum record, whatever the file |
| SorFileParser.IntendedKeepsSamplesAndChecksum | otdr/file_parser.py:124-137 | with the intended wiring, every DataPts and Cksum entry's record, decoded in the file's own layout at its offset, is in the result |
| SorFileParser.SorParser.constructor | otdr/file_parser.py:84-94 | a reader holds its file, layout, map block and part parser |
| SorFileParser.SorParser.Parse | otdr/file_parser.py:61-64 | the reader's `parse` runs the registered parsers and appends the map block |
| SorFileParser.OpenSor | otdr/file_parser.py:87-94 | the reader's constructor fails exactly when the map at the layout's offset fails, with that error; otherwise it holds that map and the parsers the table assigns to its entries, in directory order |
| SorFileParser.CreateParser | otdr/file_parser.py:29-39 | sniff, then build that layout's reader: fails exactly when sniffing or the map fails, with the first error |
| SorFileParser.ParseSorFile | otdr/file_parser.py:29-39 | building the reader and parsing returns the whole-file result SorFileAt specifies |

## Left out

- Logging: every `logger` call. The one condition that is logged, a trace count above 1, is the predicate `BlockData.MultipleTraces`, and the decode goes on.
- Floating point: ×0.01, ×0.001, /1000.0 and `%.2f`. Records keep the raw integers. `MapVersion`, `ScalingFactor`, `ReportedMin` and `ReportedMax` give the exact `real` values, and two-decimal text is rendered from integer hundredths.
- `FloatParser` and `DoubleParser`: they read IEEE floats, and no modelled decoder uses them.
- UTF-8 and ASCII decoding: names, strings, codes and raw fields are byte sequences. A `decode` that fails on non-ASCII or non-UTF-8 bytes is not modelled. Where such bytes sit in a version 2 prefix, the model reports a prefix mismatch, which is also an error.
- File opening and argument checks: the `Path` branch and `TypeError` in `create_parser` and `BaseSorParser.__init__`. The model starts from an open file handle.
- `otdr/cli.py`: argument handling and JSON output. `otdr/base_parser.py` holds a file handle and nothing else.
- `otdr/block_parsers/proprietary.py` and FxdParams: no decoder logic exists for them. Their table entries run a stub that returns nothing.
- Import errors: `otdr/file_parser.py` imports version-split parser names that `otdr/block_parser.py` does not define, so the module does not load as written. The model binds GenParams, SupParams and KeyEvents to the package decoders of the matching layout, which is what the tables name.
- `otdr/block_parsers/data_points.py` imports a `DataPoints` class that the record module does not define. The model gives it a `DataPoints` record whose fields follow the decoder's call: minimum, maximum, count, traces, scale, samples.
- Python dataclass mismatches are not reproduced. `Event.peak` and `Event.refl_loss` are class attributes, the version 1 event passes no positions, and version 1 GenParams passes neither `fiber_type` nor `user_offset_distance`. The model keeps the intended records: reflection loss and the version 2 positions as fields, and the version 2-only fields as `Option`s.
- The unknown branch of event-code classification names enum members that do not exist. The model keeps such a code with neither a type nor a mode.
- SorFileParser.OpenSor: does not state where the cursor ends. In the source, building each parser from the eagerly seeking set moves it. With the intended wiring the parsers seek only when they parse, and no result depends on the cursor between construction and `parse`.

## Findings

| source | as written | input that shows it | evidently intended | confidence | as-written member | corrected member |
|---|---|---|---|---|---|---|
| otdr/file_parser.py:96-109 | both lookup tables bind "Cksum" and "DataPts" to `CksumParser` and `DataPtsParser` of `otdr/block_parser.py`, whose `parse` does nothing, so a file's checksum and trace samples are never decoded | any file whose map lists a DataPts or Cksum block: its result holds no sample record and no checksum record | the layout-matched `CksumParserV1`/`CksumParserV2` and `DataPtsParserV1`/`DataPtsParserV2` of the block parser package, as the tables already do for GenParams, SupParams and KeyEvents | not executed | SorFileParser.AsWrittenDropsSamplesAndChecksum | SorFileParser.IntendedKeepsSamplesAndChecksum |
