/**
 * The records the block decoders return, and the enumerations with their value
 * tables and text renderings.
 *
 * Scaled quantities are kept as the raw integers stored in the file; where the
 * record reports a scaled number, a `real` function states its exact value.
 */
module BlockData {
  import opened SorTypes
  import opened Rendering

  // ----- block directory -----

  /**
   * One directory entry: the block's name, index, absolute offset, byte size and
   * version. The version is kept as the stored u16 (hundredths); the text the
   * entry carries is its two-decimal rendering, VersionText, from which the raw
   * value can be read back (HundredthsRoundTrip), so nothing is lost.
   */
  datatype Block = Block(name: Bytes, order: nat, position: nat, size: nat, version: nat)

  /** The printed version of a directory entry, `f"{raw * 0.01:.2f}"`. */
  function VersionText(b: Block): (s: Bytes)
    ensures |s| >= 4 && s[|s| - 3] == Dot
  {
    HundredthsText(b.version)
  }

  /** Two entries print the same version exactly when they store the same one. */
  lemma VersionTextDeterminesVersion(a: Block, b: Block)
    ensures VersionText(a) == VersionText(b) <==> a.version == b.version
  {
    if a.version != b.version {
      HundredthsTextInjective(a.version, b.version);
    }
  }

  /** The directory; `version` is the raw header u16, i.e. hundredths of the reported version. */
  datatype MapBlock = MapBlock(blocks: seq<Block>, version: nat, size: nat)

  /** The version the map reports (`raw * 0.01`). */
  function MapVersion(m: MapBlock): real {
    m.version as real / 100.0
  }

  // ----- fiber type -----

  /** The ITU-T fiber recommendations G.651 to G.657. */
  datatype FiberType = G651 | G652 | G653 | G654 | G655 | G656 | G657

  function FiberCode(f: FiberType): (c: nat)
    ensures 651 <= c <= 657
  {
    match f
    case G651 => 651
    case G652 => 652
    case G653 => 653
    case G654 => 654
    case G655 => 655
    case G656 => 656
    case G657 => 657
  }

  /** `FiberType(code)`: defined exactly for the codes 651..657. */
  function FiberTypeOf(code: int): (r: Result<FiberType>)
    ensures r.Ok? <==> 651 <= code <= 657
    ensures r.Ok? ==> FiberCode(r.value) == code
    ensures r.Err? ==> r.error == UnsupportedFiberType(code)
  {
    if code == 651 then Ok(G651)
    else if code == 652 then Ok(G652)
    else if code == 653 then Ok(G653)
    else if code == 654 then Ok(G654)
    else if code == 655 then Ok(G655)
    else if code == 656 then Ok(G656)
    else if code == 657 then Ok(G657)
    else Err(UnsupportedFiberType(code))
  }

  lemma FiberTypeOfCode(f: FiberType)
    ensures FiberTypeOf(FiberCode(f)) == Ok(f)
  {
  }

  /** `str(fiber_type)`: "G." followed by the code. */
  function FiberTypeText(f: FiberType): (s: Bytes)
    ensures |s| == 5 && s[..2] == [0x47, Dot]
  {
    [0x47, Dot] + DecimalText(FiberCode(f))
  }

  /** The rendering names the code: reading back the digits after "G." gives it. */
  lemma FiberTypeTextNamesCode(f: FiberType)
    ensures AllDigits(FiberTypeText(f)[2..])
    ensures DecimalValue(FiberTypeText(f)[2..]) == FiberCode(f)
  {
    assert FiberTypeText(f)[2..] == DecimalText(FiberCode(f));
    DecimalRoundTrip(FiberCode(f));
  }

  lemma FiberTypeTextInjective(f: FiberType, g: FiberType)
    requires f != g
    ensures FiberTypeText(f) != FiberTypeText(g)
  {
    FiberTypeTextNamesCode(f);
    FiberTypeTextNamesCode(g);
  }

  lemma FiberTypeTextExample()
    ensures FiberTypeText(G652) == [0x47, Dot, 0x36, 0x35, 0x32]   // "G.652"
  {
    assert DecimalText(652) == DecimalText(65) + [DigitChar(2)];
    assert DecimalText(65) == DecimalText(6) + [DigitChar(5)];
  }

  // ----- general and supplier parameters -----

  /**
   * General parameters. `fiberType` and `userOffsetDistance` exist only in the
   * version 2 layout; the version 1 decoder leaves them out.
   */
  datatype GenParams = GenParams(
    language: Bytes,
    cableId: Bytes,
    fiberId: Bytes,
    fiberType: Option<FiberType>,
    wavelength: nat,            // nm, unscaled
    locationA: Bytes,
    locationB: Bytes,
    cableCode: Bytes,
    buildCondition: Bytes,
    userOffset: int,
    userOffsetDistance: Option<int>,
    operator: Bytes,
    comment: Bytes)

  datatype SupParams = SupParams(
    supplier: Bytes,
    otdr: Bytes,
    otdrSerialNumber: Bytes,
    moduleName: Bytes,
    moduleSerialNumber: Bytes,
    software: Bytes,
    other: Bytes)

  // ----- checksum -----

  /** The stored checksum, the one computed over the file, and whether they agree. */
  datatype Cksum = Cksum(checksum: nat, checksumOurs: nat, matches: bool)

  // ----- trace data -----

  /**
   * The first trace of a DataPts block. `minRaw`/`maxRaw` are the extreme samples,
   * `scalingRaw` the stored scale factor in thousandths.
   */
  datatype DataPoints = DataPoints(
    minRaw: nat,
    maxRaw: nat,
    count: nat,
    numTraces: int,
    scalingRaw: nat,
    points: seq<nat>)

  /** The scale factor the decoder reports (`raw / 1000.0`). */
  function ScalingFactor(d: DataPoints): real {
    d.scalingRaw as real / 1000.0
  }

  /**
   * The reported minimum, `min(points) * 0.001 * scaling_factor` with the factor
   * raw / 1000: exactly min × raw / 10^6.
   */
  function ReportedMin(d: DataPoints): real {
    (d.minRaw * d.scalingRaw) as real / 1000000.0
  }

  /** The reported maximum, exactly max × raw / 10^6. */
  function ReportedMax(d: DataPoints): real {
    (d.maxRaw * d.scalingRaw) as real / 1000000.0
  }

  /** The condition under which the decoder logs that only the first trace is handled. */
  predicate MultipleTraces(d: DataPoints) {
    d.numTraces > 1
  }

  // ----- key events -----

  datatype EventType = LossDropGain | Reflection | Multiple

  function EventTypeValue(t: EventType): (v: nat)
    ensures v <= 2
  {
    match t
    case LossDropGain => 0
    case Reflection => 1
    case Multiple => 2
  }

  /** `EventType(v)`: defined exactly for 0, 1 and 2. */
  function EventTypeOf(v: int): (r: Option<EventType>)
    ensures r.Some? <==> 0 <= v <= 2
    ensures r.Some? ==> EventTypeValue(r.value) == v
  {
    if v == 0 then Some(LossDropGain)
    else if v == 1 then Some(Reflection)
    else if v == 2 then Some(Multiple)
    else None
  }

  /** `str(t)`: the bare value, no enum name. */
  function EventTypeText(t: EventType): (s: Bytes)
    ensures |s| == 1 && IsDigit(s[0])
  {
    DecimalText(EventTypeValue(t))
  }

  lemma EventTypeTextRoundTrip(t: EventType)
    ensures EventTypeOf(DecimalValue(EventTypeText(t))) == Some(t)
  {
    DecimalRoundTrip(EventTypeValue(t));
  }

  datatype EventModeType = A | E | F | M | D

  /** Each mode is valued as its own letter. */
  function ModeLetter(m: EventModeType): Byte {
    match m
    case A => 0x41
    case E => 0x45
    case F => 0x46
    case M => 0x4D
    case D => 0x44
  }

  /** `EventModeType(c)`: defined exactly for the letters A, E, F, M and D. */
  function EventModeOf(c: Byte): (r: Option<EventModeType>)
    ensures r.Some? <==> c in {0x41, 0x45, 0x46, 0x4D, 0x44}
    ensures r.Some? ==> ModeLetter(r.value) == c
  {
    if c == 0x41 then Some(A)
    else if c == 0x45 then Some(E)
    else if c == 0x46 then Some(F)
    else if c == 0x4D then Some(M)
    else if c == 0x44 then Some(D)
    else None
  }

  /** `str(m)`: the letter alone. */
  function EventModeText(m: EventModeType): (s: Bytes)
    ensures |s| == 1 && EventModeOf(s[0]) == Some(m)
  {
    [ModeLetter(m)]
  }

  /**
   * The classified 8-byte event code. `eventType`/`mode` are None when the code
   * is not of the form X Y "9999LS" (the unknown branch).
   */
  datatype EventDataType = EventDataType(reference: Bytes, eventType: Option<EventType>, mode: Option<EventModeType>)

  /** The five extra positions of a version 2 event. */
  datatype EventMarkers = EventMarkers(endOfPrevious: nat, startOfCurrent: nat, endOfCurrent: nat, startOfNext: nat, peak: nat)

  /**
   * One key event. `slope`, `spliceLoss` and `reflLoss` are thousandths of a dB;
   * `markers` is None in the version 1 layout.
   */
  datatype Event = Event(
    comment: Bytes,
    distance: nat,
    slope: nat,
    spliceLoss: nat,
    reflLoss: nat,
    eventType: EventDataType,
    markers: Option<EventMarkers>)

  /** The summary; `totalLoss` and `orl` are thousandths of a dB, the rest unscaled. */
  datatype KeyEventSummary = KeyEventSummary(
    totalLoss: int,
    lossStart: int,
    lossEnd: nat,
    orl: nat,
    orlStart: int,
    orlFinish: nat)

  datatype KeyEvents = KeyEvents(summary: KeyEventSummary, events: seq<Event>)

  // ----- what one block parser returns -----

  /** The result of one block parser; `NotDecoded` is the `None` of a parser whose `parse` does nothing. */
  datatype BlockResult =
    | MapResult(mapBlock: MapBlock)
    | GenParamsResult(genParams: GenParams)
    | SupParamsResult(supParams: SupParams)
    | KeyEventsResult(keyEvents: KeyEvents)
    | DataPointsResult(dataPoints: DataPoints)
    | CksumResult(cksum: Cksum)
    | NotDecoded
}
