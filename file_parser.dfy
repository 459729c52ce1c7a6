/**
 * The file-level reader: it tells the two layouts apart by the file's first
 * string, decodes the map block at the layout's offset, builds one block parser
 * for every directory entry whose name it knows, and finally runs them all in
 * directory order, with the map block appended last.
 *
 * The lookup tables of the reader bind the Cksum and DataPts entries to stubs
 * that decode nothing, in both layouts. `AsWritten` is that wiring; `Intended`
 * binds those two entries to the decoders of the file's own layout, and it is
 * the wiring the methods below use.
 */
module SorFileParser {
  import opened SorTypes
  import opened FileHandles
  import opened TypeParser
  import opened BlockData
  import opened AbstractParser
  import opened MapBlockDecoder
  import opened GenParamsDecoder
  import opened SupParamsDecoder
  import opened KeyEventsDecoder
  import opened DataPointsDecoder
  import opened CksumDecoder
  import opened EagerParsers

  // ----- the layout -----

  const MapName: Bytes := [0x4D, 0x61, 0x70]  // "Map"

  /** The layout the first string of the file announces: "Map" for version 2, anything else for version 1. */
  function VersionAt(data: Bytes): (r: Result<Version>)
    ensures r.Err? ==> r.error == Truncated
  {
    var s := StringAt(data, 0);
    if s.Err? then Err(s.error) else Ok(if s.value.value == MapName then V2 else V1)
  }

  /**
   * Sniffing fails exactly when the file holds no 0x00 at all, and it answers
   * version 2 exactly when the file starts with "Map\0".
   */
  lemma VersionAtShape(data: Bytes)
    ensures VersionAt(data).Err? <==> NoZeroFrom(data, 0)
    ensures VersionAt(data) == Ok(V2) <==> 4 <= |data| && data[..4] == MapName + [0]
  {
    StringAtSpec(data, 0);
    var r := StringAt(data, 0);
    if 4 <= |data| && data[..4] == MapName + [0] {
      assert data[0..] == MapName + [0] + data[4..];
      StringAtEncoded(data, 0, MapName, data[4..]);
    }
    if r.Ok? && r.value.value == MapName {
      assert data[..4] == r.value.value + [data[3]];
    }
  }

  /**
   * `VersionParser.parse` up to its choice: rewind, read the first string, rewind
   * again. The answer does not depend on where the cursor was.
   */
  method SniffVersion(fh: FileHandle) returns (r: Result<Version>)
    modifies fh
    ensures r == VersionAt(fh.data)
    ensures r.Ok? ==> fh.pos == 0
  {
    fh.Seek(0);
    var s :- ParseString(fh);
    fh.Seek(0);
    r := Ok(if s == MapName then V2 else V1);
  }

  /** Where the map block starts: at 0 in version 1, after "Map\0" in version 2. */
  function MapOffset(v: Version): (p: nat)
    ensures v == V2 ==> p == |MapName| + 1
  {
    if v == V1 then 0 else 4
  }

  // ----- which parser each directory entry gets -----

  const FxdParamsName: Bytes := [0x46, 0x78, 0x64, 0x50, 0x61, 0x72, 0x61, 0x6D, 0x73]  // "FxdParams"
  const LnkParamsName: Bytes := [0x4C, 0x6E, 0x6B, 0x50, 0x61, 0x72, 0x61, 0x6D, 0x73]  // "LnkParams"
  const ProprietaryBlockName: Bytes :=                                                  // "ProprietaryBlock"
    [0x50, 0x72, 0x6F, 0x70, 0x72, 0x69, 0x65, 0x74, 0x61, 0x72, 0x79, 0x42, 0x6C, 0x6F, 0x63, 0x6B]

  /** The eight block names the lookup tables know. */
  predicate KnownName(name: Bytes) {
    name == CksumName || name == DataPtsName || name == GenParamsName || name == SupParamsName ||
    name == FxdParamsName || name == KeyEventsName || name == LnkParamsName || name == ProprietaryBlockName
  }

  /** The lookup table as the reader has it, or with Cksum and DataPts bound to real decoders. */
  datatype Wiring = AsWritten | Intended

  /** `_find_parser_for_block` of the version 1 or version 2 reader: the parser for an entry's name, if any. */
  function DecoderFor(w: Wiring, name: Bytes, v: Version): Option<DecoderKind> {
    if name == CksumName then Some(if w == AsWritten then Stub else if v == V1 then CksumV1 else CksumV2)
    else if name == DataPtsName then Some(if w == AsWritten then Stub else if v == V1 then DataPtsV1 else DataPtsV2)
    else if name == GenParamsName then Some(if v == V1 then GenParamsV1 else GenParamsV2)
    else if name == SupParamsName then Some(if v == V1 then SupParamsV1 else SupParamsV2)
    else if name == FxdParamsName then Some(Stub)
    else if name == KeyEventsName then Some(if v == V1 then KeyEventsV1 else KeyEventsV2)
    else if name == LnkParamsName then Some(Stub)
    else if name == ProprietaryBlockName then Some(Stub)
    else None
  }

  /** The block name and layout version a decoder reads; none for the map block parser and the stubs. */
  function DecodedLayout(k: DecoderKind): Option<(Bytes, Version)> {
    match k
    case GenParamsV1 => Some((GenParamsName, V1))
    case GenParamsV2 => Some((GenParamsName, V2))
    case SupParamsV1 => Some((SupParamsName, V1))
    case SupParamsV2 => Some((SupParamsName, V2))
    case KeyEventsV1 => Some((KeyEventsName, V1))
    case KeyEventsV2 => Some((KeyEventsName, V2))
    case DataPtsV1 => Some((DataPtsName, V1))
    case DataPtsV2 => Some((DataPtsName, V2))
    case CksumV1 => Some((CksumName, V1))
    case CksumV2 => Some((CksumName, V2))
    case _ => None
  }

  /** The five block names a decoder of the block parser package reads. */
  predicate DecodableName(name: Bytes) {
    name == GenParamsName || name == SupParamsName || name == KeyEventsName || name == DataPtsName || name == CksumName
  }

  /** The decoders that return a sample record or a checksum record. */
  predicate ReadsSamplesOrChecksum(k: DecoderKind) {
    k.DataPtsV1? || k.DataPtsV2? || k.CksumV1? || k.CksumV2?
  }

  /** As written, no entry gets a decoder that returns a sample record or a checksum record. */
  lemma AsWrittenOmitsSamplesAndChecksum(name: Bytes, v: Version)
    ensures DecoderFor(AsWritten, name, v).Some? ==> !ReadsSamplesOrChecksum(DecoderFor(AsWritten, name, v).value)
  {
  }

  /** With the intended wiring, DataPts and Cksum entries get the decoders of the file's own layout. */
  lemma IntendedSamplesAndChecksum(v: Version)
    ensures DecoderFor(Intended, DataPtsName, v) == Some(if v == V1 then DataPtsV1 else DataPtsV2)
    ensures DecoderFor(Intended, CksumName, v) == Some(if v == V1 then CksumV1 else CksumV2)
  {
  }

  /** Both wirings give a parser exactly to the eight known names. */
  lemma KnownNamesGetParsers(w: Wiring, name: Bytes, v: Version)
    ensures DecoderFor(w, name, v).Some? <==> KnownName(name)
  {
  }

  /** As the reader has it, the two layouts' tables differ in the GenParams, SupParams and KeyEvents entries and nowhere else. */
  lemma AsWrittenTablesDiffer(name: Bytes)
    ensures DecoderFor(AsWritten, name, V1) != DecoderFor(AsWritten, name, V2) <==>
      name == GenParamsName || name == SupParamsName || name == KeyEventsName
  {
  }

  /** With the intended wiring the Cksum and DataPts entries differ between the layouts too. */
  lemma IntendedTablesDiffer(name: Bytes)
    ensures DecoderFor(Intended, name, V1) != DecoderFor(Intended, name, V2) <==> DecodableName(name)
  {
  }

  /** The two wirings disagree on the Cksum and DataPts entries only. */
  lemma WiringsDiffer(name: Bytes, v: Version)
    ensures DecoderFor(AsWritten, name, v) != DecoderFor(Intended, name, v) <==>
      name == DataPtsName || name == CksumName
  {
  }

  /**
   * With the intended wiring every parser that decodes anything reads the block it
   * is named after in the file's own layout, and each of the five decodable blocks
   * gets such a parser. As written, Cksum and DataPts entries get stubs.
   */
  lemma DecodersMatchTheirBlocks(w: Wiring, name: Bytes, v: Version)
    ensures w == Intended && DecoderFor(w, name, v).Some? ==>
      DecoderFor(w, name, v).value == Stub || DecodedLayout(DecoderFor(w, name, v).value) == Some((name, v))
    ensures w == Intended && DecodableName(name) ==> DecodedLayout(DecoderFor(w, name, v).value) == Some((name, v))
    ensures w == AsWritten && (name == DataPtsName || name == CksumName) ==> DecoderFor(w, name, v) == Some(Stub)
  {
  }

  // ----- the registered parsers -----

  /** A registered block parser: what it runs, and the offset it starts from. */
  datatype Registration = Registration(kind: DecoderKind, position: nat)

  /** A lookup table: the parser for an entry's name, if any. */
  type Table = Bytes -> Option<DecoderKind>

  /** The table of the version `v` reader under wiring `w`. */
  function TableOf(w: Wiring, v: Version): Table {
    (name: Bytes) => DecoderFor(w, name, v)
  }

  /** The parsers a reader registers for a directory, in directory order. */
  function Registered(table: Table, bs: seq<Block>): (rs: seq<Registration>)
    ensures |rs| <= |bs|
  {
    if bs == [] then [] else
    var init := Registered(table, bs[..|bs| - 1]);
    var b := bs[|bs| - 1];
    match table(b.name)
    case None => init
    case Some(k) => init + [Registration(k, b.position)]
  }

  /** Registering for one more directory entry. */
  lemma RegisteredStep(table: Table, bs: seq<Block>, i: nat)
    requires i < |bs|
    ensures Registered(table, bs[..i + 1]) ==
      match table(bs[i].name)
      case None => Registered(table, bs[..i])
      case Some(k) => Registered(table, bs[..i]) + [Registration(k, bs[i].position)]
  {
    assert bs[..i + 1][..i] == bs[..i];
  }

  /** The entries, by index and in increasing order, whose names get a parser. */
  function RecognisedIndices(table: Table, bs: seq<Block>): (idx: seq<nat>)
    ensures forall j :: 0 <= j < |idx| ==> idx[j] < |bs|
    ensures forall j, k :: 0 <= j < k < |idx| ==> idx[j] < idx[k]
    ensures forall i :: 0 <= i < |bs| ==> (i in idx <==> table(bs[i].name).Some?)
  {
    if bs == [] then [] else
    var init := RecognisedIndices(table, bs[..|bs| - 1]);
    if table(bs[|bs| - 1].name).Some? then init + [|bs| - 1] else init
  }

  /**
   * One registration per recognised entry, in directory order, each starting at
   * its entry's offset and running the parser the table gives for its name.
   */
  lemma {:induction false} RegisteredFollowsDirectory(table: Table, bs: seq<Block>)
    ensures var rs, idx := Registered(table, bs), RecognisedIndices(table, bs);
      && |rs| == |idx|
      && forall j :: 0 <= j < |idx| ==>
        table(bs[idx[j]].name).Some? && rs[j] == Registration(table(bs[idx[j]].name).value, bs[idx[j]].position)
  {
    if bs != [] {
      var init := bs[..|bs| - 1];
      RegisteredFollowsDirectory(table, init);
      var rs0, idx0 := Registered(table, init), RecognisedIndices(table, init);
      var rs, idx := Registered(table, bs), RecognisedIndices(table, bs);
      forall j | 0 <= j < |idx0|
        ensures idx[j] == idx0[j] && rs[j] == rs0[j] && bs[idx0[j]] == init[idx0[j]]
      {
      }
    }
  }

  // ----- running the parsers -----

  /** The record kind a parser yields. */
  predicate Yields(k: DecoderKind, b: BlockResult) {
    match k
    case MapBlockDecoder => b.MapResult?
    case GenParamsV1 => b.GenParamsResult?
    case GenParamsV2 => b.GenParamsResult?
    case SupParamsV1 => b.SupParamsResult?
    case SupParamsV2 => b.SupParamsResult?
    case KeyEventsV1 => b.KeyEventsResult?
    case KeyEventsV2 => b.KeyEventsResult?
    case DataPtsV1 => b.DataPointsResult?
    case DataPtsV2 => b.DataPointsResult?
    case CksumV1 => b.CksumResult?
    case CksumV2 => b.CksumResult?
    case Stub => b == NotDecoded
  }

  /** What `parse` of a registered parser returns: the decoder's record, or the error it raises. */
  function DecodeBlock(data: Bytes, r: Registration): (res: Result<BlockResult>)
    ensures res.Ok? ==> Yields(r.kind, res.value)
  {
    var pos := r.position;
    match r.kind
    case MapBlockDecoder => MapResultAt(data, pos)
    case GenParamsV1 =>
      var g := GenParamsV1At(data, pos);
      if g.Err? then Err(g.error) else Ok(GenParamsResult(g.value.value))
    case GenParamsV2 =>
      var g := GenParamsV2At(data, pos);
      if g.Err? then Err(g.error) else Ok(GenParamsResult(g.value.value))
    case SupParamsV1 =>
      var s := SupParamsV1At(data, pos);
      if s.Err? then Err(s.error) else Ok(SupParamsResult(s.value.value))
    case SupParamsV2 =>
      var s := SupParamsV2At(data, pos);
      if s.Err? then Err(s.error) else Ok(SupParamsResult(s.value.value))
    case KeyEventsV1 =>
      var e := KeyEventsAt(data, pos, V1);
      if e.Err? then Err(e.error) else Ok(KeyEventsResult(e.value.value))
    case KeyEventsV2 =>
      var e := KeyEventsAt(data, pos, V2);
      if e.Err? then Err(e.error) else Ok(KeyEventsResult(e.value.value))
    case DataPtsV1 =>
      var d := DataPtsAt(data, pos, V1);
      if d.Err? then Err(d.error) else Ok(DataPointsResult(d.value.value))
    case DataPtsV2 =>
      var d := DataPtsAt(data, pos, V2);
      if d.Err? then Err(d.error) else Ok(DataPointsResult(d.value.value))
    case CksumV1 =>
      var c := CksumAt(data, pos, V1);
      if c.Err? then Err(c.error) else Ok(CksumResult(c.value))
    case CksumV2 =>
      var c := CksumAt(data, pos, V2);
      if c.Err? then Err(c.error) else Ok(CksumResult(c.value))
    case Stub => Ok(NotDecoded)
  }

  /** `parse` of one block parser, dispatched on what it runs. */
  method RunParser(p: BlockParser) returns (r: Result<BlockResult>)
    modifies p.fh
    ensures r == DecodeBlock(p.fh.data, Registration(p.kind, p.startPosition))
  {
    match p.kind
    case MapBlockDecoder =>
      var m :- ParseMapBlock(p);
      r := Ok(MapResult(m));
    case GenParamsV1 =>
      var g :- ParseGenParamsV1(p);
      r := Ok(GenParamsResult(g));
    case GenParamsV2 =>
      var g :- ParseGenParamsV2(p);
      r := Ok(GenParamsResult(g));
    case SupParamsV1 =>
      var s :- ParseSupParamsV1(p);
      r := Ok(SupParamsResult(s));
    case SupParamsV2 =>
      var s :- ParseSupParamsV2(p);
      r := Ok(SupParamsResult(s));
    case KeyEventsV1 =>
      var e :- ParseKeyEvents(p, V1);
      r := Ok(KeyEventsResult(e));
    case KeyEventsV2 =>
      var e :- ParseKeyEvents(p, V2);
      r := Ok(KeyEventsResult(e));
    case DataPtsV1 =>
      var d :- ParseDataPts(p, V1);
      r := Ok(DataPointsResult(d));
    case DataPtsV2 =>
      var d :- ParseDataPts(p, V2);
      r := Ok(DataPointsResult(d));
    case CksumV1 =>
      var c :- ParseCksum(p, V1);
      r := Ok(CksumResult(c));
    case CksumV2 =>
      var c :- ParseCksum(p, V2);
      r := Ok(CksumResult(c));
    case Stub =>
      r := Ok(NotDecoded);
  }

  /**
   * `[p.parse() for p in parsers]` over the outcomes of the parsers: every record
   * in order, or the error of the first parser that fails.
   */
  function Collect<T>(outs: seq<Result<T>>): (r: Result<seq<T>>)
    ensures r.Ok? <==> forall j :: 0 <= j < |outs| ==> outs[j].Ok?
    ensures r.Ok? ==> |r.value| == |outs| && forall j :: 0 <= j < |outs| ==> outs[j] == Ok(r.value[j])
  {
    if outs == [] then Ok([]) else
    var init := Collect(outs[..|outs| - 1]);
    if init.Err? then init else
    var last := outs[|outs| - 1];
    if last.Err? then Err(last.error) else Ok(init.value + [last.value])
  }

  /** A failed collection reports the error of the first outcome that failed. */
  lemma {:induction false} CollectReportsFirstError<T>(outs: seq<Result<T>>) returns (j: nat)
    requires Collect(outs).Err?
    ensures j < |outs| && outs[j] == Err(Collect(outs).error) && forall i :: 0 <= i < j ==> outs[i].Ok?
  {
    var init := outs[..|outs| - 1];
    if Collect(init).Err? {
      j := CollectReportsFirstError(init);
    } else {
      j := |outs| - 1;
    }
  }

  lemma PrefixSnoc<T>(s: seq<T>, i: nat)
    requires i < |s|
    ensures s[..i + 1] == s[..i] + [s[i]]
  {
  }

  /** Collecting one more outcome. */
  lemma CollectSnoc<T>(outs: seq<Result<T>>, x: Result<T>)
    ensures Collect(outs + [x]) ==
      if Collect(outs).Err? then Collect(outs)
      else if x.Err? then Err(x.error)
      else Ok(Collect(outs).value + [x.value])
  {
    assert (outs + [x])[..|outs|] == outs;
  }

  /** Once a parser fails, the later parsers change nothing: the whole list fails with that error. */
  lemma {:induction false} CollectFirstError<T>(outs: seq<Result<T>>, k: nat)
    requires k <= |outs| && Collect(outs[..k]).Err?
    ensures Collect(outs) == Collect(outs[..k])
    decreases |outs|
  {
    if k < |outs| {
      var init := outs[..|outs| - 1];
      assert init[..k] == outs[..k];
      CollectFirstError(init, k);
    } else {
      assert outs[..k] == outs;
    }
  }

  /** What each registered parser returns, in order. */
  function Outcomes(decode: Decoder, plan: seq<Registration>): seq<Result<BlockResult>> {
    seq(|plan|, j requires 0 <= j < |plan| => decode(plan[j]))
  }

  /** What running a registered parser gives, over a file's bytes. */
  type Decoder = Registration -> Result<BlockResult>

  function BlockDecoder(data: Bytes): Decoder {
    (r: Registration) => DecodeBlock(data, r)
  }

  /** `PartParser.parse` for a plan: the parsers' records, or the first error. */
  function PartsAt(data: Bytes, plan: seq<Registration>): Result<seq<BlockResult>> {
    Collect(Outcomes(BlockDecoder(data), plan))
  }

  /**
   * Running a plan succeeds exactly when every registered parser does, and then
   * holds each parser's record at its index; otherwise it fails with the error of
   * the first parser that fails, `j`, all earlier ones having succeeded.
   */
  lemma PartsAtOutcome(data: Bytes, plan: seq<Registration>) returns (j: nat)
    ensures PartsAt(data, plan).Ok? <==> forall i | 0 <= i < |plan| :: DecodeBlock(data, plan[i]).Ok?
    ensures PartsAt(data, plan).Ok? ==>
      |PartsAt(data, plan).value| == |plan|
      && forall i | 0 <= i < |plan| :: DecodeBlock(data, plan[i]) == Ok(PartsAt(data, plan).value[i])
    ensures PartsAt(data, plan).Err? ==>
      j < |plan| && DecodeBlock(data, plan[j]) == Err(PartsAt(data, plan).error)
      && forall i | 0 <= i < j :: DecodeBlock(data, plan[i]).Ok?
  {
    var outs := Outcomes(BlockDecoder(data), plan);
    assert |outs| == |plan| && forall i | 0 <= i < |plan| :: outs[i] == DecodeBlock(data, plan[i]);
    j := 0;
    if Collect(outs).Err? {
      j := CollectReportsFirstError(outs);
    }
  }

  /** The plan a list of block parsers carries out. */
  function PlanOf(ps: seq<BlockParser>): (plan: seq<Registration>)
    ensures |plan| == |ps|
  {
    seq(|ps|, i requires 0 <= i < |ps| => Registration(ps[i].kind, ps[i].startPosition))
  }

  lemma PlanOfSnoc(ps: seq<BlockParser>, p: BlockParser)
    ensures PlanOf(ps + [p]) == PlanOf(ps) + [Registration(p.kind, p.startPosition)]
  {
  }

  /** `PartParser`: the block parsers registered so far, all over one file handle. */
  class PartParser {
    const fh: FileHandle
    var parsers: seq<BlockParser>

    ghost predicate Valid()
      reads this
    {
      forall i :: 0 <= i < |parsers| ==> parsers[i].fh == fh
    }

    constructor (fh: FileHandle)
      ensures this.fh == fh && parsers == [] && Valid()
    {
      this.fh := fh;
      parsers := [];
    }

    /** `register_parser`: append one more parser. */
    method RegisterParser(p: BlockParser)
      requires Valid() && p.fh == fh
      modifies this
      ensures parsers == old(parsers) + [p] && Valid()
    {
      parsers := parsers + [p];
    }

    /** `parse`: run the parsers in registration order. */
    method Parse() returns (r: Result<seq<BlockResult>>)
      requires Valid()
      modifies fh
      ensures r == PartsAt(fh.data, PlanOf(parsers))
    {
      ghost var outs := Outcomes(BlockDecoder(fh.data), PlanOf(parsers));
      var results: seq<BlockResult> := [];
      var i := 0;
      while i < |parsers|
        invariant 0 <= i <= |parsers|
        invariant Collect(outs[..i]) == Ok(results)
      {
        var p := parsers[i];
        var res := RunParser(p);
        assert res == outs[i];
        PrefixSnoc(outs, i);
        CollectSnoc(outs[..i], res);
        if res.Err? {
          CollectFirstError(outs, i + 1);
          return Err(res.error);
        }
        results := results + [res.value];
        i := i + 1;
      }
      assert outs[..i] == outs;
      r := Ok(results);
    }
  }

  /** `BaseSorParser.parse`: the registered parsers' records, then the map block. */
  function WithMap(parts: Result<seq<BlockResult>>, m: MapBlock): (r: Result<seq<BlockResult>>)
    ensures r.Ok? <==> parts.Ok?
    ensures r.Ok? ==> |r.value| == |parts.value| + 1 && r.value[..|parts.value|] == parts.value && r.value[|parts.value|] == MapResult(m)
    ensures r.Err? ==> r.error == parts.error
  {
    if parts.Err? then Err(parts.error) else Ok(parts.value + [MapResult(m)])
  }

  // ----- the whole file -----

  /** Everything the reader returns for a file: sniff, decode the map, run the registered parsers, append the map. */
  function SorFileAt(w: Wiring, data: Bytes): Result<seq<BlockResult>> {
    var v := VersionAt(data);
    if v.Err? then Err(v.error) else
    var m := MapBlockAt(data, MapOffset(v.value));
    if m.Err? then Err(m.error) else
    WithMap(PartsAt(data, Registered(TableOf(w, v.value), m.value.value.blocks)), m.value.value)
  }

  /**
   * The records of a run hold one entry per recognised directory entry, in
   * directory order, each the decode of that entry's block at its offset.
   */
  lemma RecordsFollowDirectory(decode: Decoder, table: Table, bs: seq<Block>, out: seq<BlockResult>)
    requires Collect(Outcomes(decode, Registered(table, bs))) == Ok(out)
    ensures var idx := RecognisedIndices(table, bs);
      && |out| == |idx|
      && forall j :: 0 <= j < |idx| ==>
        table(bs[idx[j]].name).Some? && decode(Registration(table(bs[idx[j]].name).value, bs[idx[j]].position)) == Ok(out[j])
  {
    RegisteredFollowsDirectory(table, bs);
  }

  /** Each record comes from one recognised directory entry. */
  lemma EntryOfRecord(decode: Decoder, table: Table, bs: seq<Block>, out: seq<BlockResult>, j: nat) returns (i: nat)
    requires Collect(Outcomes(decode, Registered(table, bs))) == Ok(out) && j < |out|
    ensures i < |bs| && table(bs[i].name).Some? && decode(Registration(table(bs[i].name).value, bs[i].position)) == Ok(out[j])
  {
    RecordsFollowDirectory(decode, table, bs, out);
    i := RecognisedIndices(table, bs)[j];
  }

  /** Each recognised directory entry gives one record. */
  lemma RecordOfEntry(decode: Decoder, table: Table, bs: seq<Block>, out: seq<BlockResult>, i: nat) returns (j: nat)
    requires Collect(Outcomes(decode, Registered(table, bs))) == Ok(out)
    requires i < |bs| && table(bs[i].name).Some?
    ensures j < |out| && decode(Registration(table(bs[i].name).value, bs[i].position)) == Ok(out[j])
  {
    RecordsFollowDirectory(decode, table, bs, out);
    var idx := RecognisedIndices(table, bs);
    assert i in idx;
    j :| 0 <= j < |idx| && idx[j] == i;
  }

  /** As written, the registered parsers never return a sample record or a checksum record. */
  lemma AsWrittenRecordsDrop(data: Bytes, bs: seq<Block>, v: Version, out: seq<BlockResult>)
    requires PartsAt(data, Registered(TableOf(AsWritten, v), bs)) == Ok(out)
    ensures forall j :: 0 <= j < |out| ==> !out[j].DataPointsResult? && !out[j].CksumResult?
  {
    var table := TableOf(AsWritten, v);
    forall j | 0 <= j < |out|
      ensures !out[j].DataPointsResult? && !out[j].CksumResult?
    {
      var i := EntryOfRecord(BlockDecoder(data), table, bs, out, j);
      var k := table(bs[i].name).value;
      assert k == DecoderFor(AsWritten, bs[i].name, v).value;
      AsWrittenOmitsSamplesAndChecksum(bs[i].name, v);
      assert DecodeBlock(data, Registration(k, bs[i].position)) == Ok(out[j]);
      assert Yields(k, out[j]);
    }
  }

  /** A sample decoder that succeeds returns the block's sample record. */
  lemma DecodedSamples(data: Bytes, pos: nat, v: Version, b: BlockResult)
    requires DecodeBlock(data, Registration(if v == V1 then DataPtsV1 else DataPtsV2, pos)) == Ok(b)
    ensures DataPtsAt(data, pos, v).Ok? && b == DataPointsResult(DataPtsAt(data, pos, v).value.value)
  {
    if v == V1 {
      assert DecodeBlock(data, Registration(DataPtsV1, pos)) == Ok(b);
    } else {
      assert DecodeBlock(data, Registration(DataPtsV2, pos)) == Ok(b);
    }
  }

  /** A checksum decoder that succeeds returns the block's checksum record. */
  lemma DecodedChecksum(data: Bytes, pos: nat, v: Version, b: BlockResult)
    requires DecodeBlock(data, Registration(if v == V1 then CksumV1 else CksumV2, pos)) == Ok(b)
    ensures CksumAt(data, pos, v).Ok? && b == CksumResult(CksumAt(data, pos, v).value)
  {
    if v == V1 {
      assert DecodeBlock(data, Registration(CksumV1, pos)) == Ok(b);
    } else {
      assert DecodeBlock(data, Registration(CksumV2, pos)) == Ok(b);
    }
  }

  /**
   * The whole file: one record per recognised directory entry, in directory order,
   * each the decode of that entry's block at its offset, and then the map block.
   */
  lemma SorFileShape(w: Wiring, data: Bytes)
    requires SorFileAt(w, data).Ok?
    ensures var v := VersionAt(data).value;
      var m := MapBlockAt(data, MapOffset(v)).value.value;
      var idx := RecognisedIndices(TableOf(w, v), m.blocks);
      var out := SorFileAt(w, data).value;
      && |out| == |idx| + 1
      && out[|idx|] == MapResult(m)
      && forall j :: 0 <= j < |idx| ==>
        DecoderFor(w, m.blocks[idx[j]].name, v).Some? &&
        DecodeBlock(data, Registration(DecoderFor(w, m.blocks[idx[j]].name, v).value, m.blocks[idx[j]].position)) == Ok(out[j])
  {
    var v := VersionAt(data).value;
    var m := MapBlockAt(data, MapOffset(v)).value.value;
    var parts := PartsAt(data, Registered(TableOf(w, v), m.blocks));
    RecordsFollowDirectory(BlockDecoder(data), TableOf(w, v), m.blocks, parts.value);
  }

  /** As written, the reader never returns a sample record or a checksum record. */
  lemma AsWrittenDropsSamplesAndChecksum(data: Bytes)
    requires SorFileAt(AsWritten, data).Ok?
    ensures forall b <- SorFileAt(AsWritten, data).value :: !b.DataPointsResult? && !b.CksumResult?
  {
    var v := VersionAt(data).value;
    var m := MapBlockAt(data, MapOffset(v)).value.value;
    var parts := PartsAt(data, Registered(TableOf(AsWritten, v), m.blocks));
    AsWrittenRecordsDrop(data, m.blocks, v, parts.value);
  }

  /**
   * With the intended wiring, every DataPts and Cksum entry of the directory
   * yields the record its own layout's decoder reads at the entry's offset.
   */
  lemma IntendedKeepsSamplesAndChecksum(data: Bytes, i: nat)
    requires SorFileAt(Intended, data).Ok?
    requires var m := MapBlockAt(data, MapOffset(VersionAt(data).value)).value.value;
      i < |m.blocks| && (m.blocks[i].name == DataPtsName || m.blocks[i].name == CksumName)
    ensures var v := VersionAt(data).value;
      var b := MapBlockAt(data, MapOffset(v)).value.value.blocks[i];
      var out := SorFileAt(Intended, data).value;
      && (b.name == DataPtsName ==>
          (DataPtsAt(data, b.position, v).Ok? && DataPointsResult(DataPtsAt(data, b.position, v).value.value) in out))
      && (b.name == CksumName ==> (CksumAt(data, b.position, v).Ok? && CksumResult(CksumAt(data, b.position, v).value) in out))
  {
    var v := VersionAt(data).value;
    var m := MapBlockAt(data, MapOffset(v)).value.value;
    var parts := PartsAt(data, Registered(TableOf(Intended, v), m.blocks));
    var table := TableOf(Intended, v);
    var b := m.blocks[i];
    IntendedSamplesAndChecksum(v);
    var k := if b.name == DataPtsName then (if v == V1 then DataPtsV1 else DataPtsV2) else (if v == V1 then CksumV1 else CksumV2);
    assert table(b.name) == Some(k);
    var j := RecordOfEntry(BlockDecoder(data), table, m.blocks, parts.value, i);
    if b.name == DataPtsName {
      DecodedSamples(data, b.position, v, parts.value[j]);
    } else {
      DecodedChecksum(data, b.position, v, parts.value[j]);
    }
    assert parts.value[j] in SorFileAt(Intended, data).value;
  }

  // ----- building and running the reader -----

  /** `SorParserV1` / `SorParserV2` after construction: the map block and the registered parsers. */
  class SorParser {
    const fh: FileHandle
    const version: Version
    const mapBlock: MapBlock
    const partParser: PartParser

    ghost predicate Valid()
      reads partParser
    {
      partParser.fh == fh && partParser.Valid()
    }

    constructor (fh: FileHandle, version: Version, mapBlock: MapBlock, partParser: PartParser)
      ensures this.fh == fh && this.version == version && this.mapBlock == mapBlock && this.partParser == partParser
    {
      this.fh := fh;
      this.version := version;
      this.mapBlock := mapBlock;
      this.partParser := partParser;
    }

    /** `BaseSorParser.parse`: run the registered parsers, then append the map block. */
    method Parse() returns (r: Result<seq<BlockResult>>)
      requires Valid()
      modifies fh
      ensures r == WithMap(PartsAt(fh.data, PlanOf(partParser.parsers)), mapBlock)
    {
      var parts :- partParser.Parse();
      r := Ok(parts + [MapResult(mapBlock)]);
    }
  }

  /**
   * The constructor of the version 1 or version 2 reader: decode the map block at
   * the layout's offset, then register a parser for every entry the table knows.
   */
  method OpenSor(fh: FileHandle, v: Version) returns (r: Result<SorParser>)
    modifies fh
    ensures r.Err? <==> MapBlockAt(fh.data, MapOffset(v)).Err?
    ensures r.Err? ==> r.error == MapBlockAt(fh.data, MapOffset(v)).error
    ensures r.Ok? ==> var s := r.value;
      && fresh(s) && fresh(s.partParser)
      && s.fh == fh && s.version == v && s.Valid()
      && s.mapBlock == MapBlockAt(fh.data, MapOffset(v)).value.value
      && PlanOf(s.partParser.parsers) == Registered(TableOf(Intended, v), s.mapBlock.blocks)
  {
    var m :- ReadMapAt(fh, MapOffset(v));
    var parts := new PartParser(fh);
    var i := 0;
    while i < |m.blocks|
      invariant 0 <= i <= |m.blocks|
      invariant fresh(parts) && parts.fh == fh && parts.Valid()
      invariant PlanOf(parts.parsers) == Registered(TableOf(Intended, v), m.blocks[..i])
      modifies parts
    {
      var b := m.blocks[i];
      RegisteredStep(TableOf(Intended, v), m.blocks, i);
      var k := DecoderFor(Intended, b.name, v);
      if k.Some? {
        ghost var before := parts.parsers;
        var p := new BlockParser(fh, k.value, b.position);
        parts.RegisterParser(p);
        PlanOfSnoc(before, p);
      }
      i := i + 1;
    }
    assert m.blocks[..i] == m.blocks;
    var sor := new SorParser(fh, v, m, parts);
    r := Ok(sor);
  }

  /** `ParserFactory.create_parser`: sniff the layout, rewind, and build that layout's reader. */
  method CreateParser(fh: FileHandle) returns (r: Result<SorParser>)
    modifies fh
    ensures r.Err? <==> VersionAt(fh.data).Err? || MapBlockAt(fh.data, MapOffset(VersionAt(fh.data).value)).Err?
    ensures r.Err? ==>
      r.error == if VersionAt(fh.data).Err? then VersionAt(fh.data).error else MapBlockAt(fh.data, MapOffset(VersionAt(fh.data).value)).error
    ensures r.Ok? ==> var s := r.value;
      && fresh(s) && fresh(s.partParser)
      && s.fh == fh && s.version == VersionAt(fh.data).value && s.Valid()
      && s.mapBlock == MapBlockAt(fh.data, MapOffset(s.version)).value.value
      && PlanOf(s.partParser.parsers) == Registered(TableOf(Intended, s.version), s.mapBlock.blocks)
  {
    var v :- SniffVersion(fh);
    r := OpenSor(fh, v);
  }

  /** Build the reader and parse: the whole file's records, or the first error. */
  method ParseSorFile(fh: FileHandle) returns (r: Result<seq<BlockResult>>)
    modifies fh
    ensures r == SorFileAt(Intended, fh.data)
  {
    var sor :- CreateParser(fh);
    r := sor.Parse();
  }
}
