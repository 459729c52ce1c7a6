/**
 * The GenParams block: general parameters of the measurement. Version 1 stores
 * 2 raw bytes of language, the cable and fiber ids, a u16 wavelength in nm, the
 * two locations, the cable code, 2 raw bytes of build condition, an i32 user
 * offset, the operator and a comment. Version 2 starts with "GenParams\0" and
 * inserts a u16 fiber type code after the fiber id and an i32 user offset
 * distance after the user offset.
 *
 * The two layouts share three runs of reads (head, middle and tail below); each
 * decoder reads them in the source's order, with its own fields in between.
 */
module GenParamsDecoder {
  import opened SorTypes
  import opened FileHandles
  import opened TypeParser
  import opened BlockData
  import opened AbstractParser

  /** Language, cable id, fiber id. */
  datatype GenHead = GenHead(language: Bytes, cableId: Bytes, fiberId: Bytes)

  /** Wavelength, locations A and B, cable code, build condition, user offset. */
  datatype GenMiddle = GenMiddle(wavelength: nat, locationA: Bytes, locationB: Bytes, cableCode: Bytes,
                                 buildCondition: Bytes, userOffset: int)

  /** Operator, comment. */
  datatype GenTail = GenTail(operator: Bytes, comment: Bytes)

  function GenParamsOf(h: GenHead, fiberType: Option<FiberType>, m: GenMiddle, distance: Option<int>, t: GenTail): GenParams {
    GenParams(h.language, h.cableId, h.fiberId, fiberType, m.wavelength, m.locationA, m.locationB,
              m.cableCode, m.buildCondition, m.userOffset, distance, t.operator, t.comment)
  }

  function HeadAt(data: Bytes, pos: nat): (r: Result<Parsed<GenHead>>)
    ensures r.Err? ==> r.error == Truncated
  {
    var language, p := Take(data, pos, 2), After(data, pos, 2);
    var cableId := StringAt(data, p);
    if cableId.Err? then Err(cableId.error) else
    var fiberId := StringAt(data, cableId.value.next);
    if fiberId.Err? then Err(fiberId.error) else
    Ok(Parsed(GenHead(language, cableId.value.value, fiberId.value.value), fiberId.value.next))
  }

  function MiddleAt(data: Bytes, pos: nat): (r: Result<Parsed<GenMiddle>>)
    ensures r.Err? ==> r.error == Truncated
  {
    var wavelength := UnsignedAt(data, pos, 2);
    if wavelength.Err? then Err(wavelength.error) else
    var locationA := StringAt(data, wavelength.value.next);
    if locationA.Err? then Err(locationA.error) else
    var locationB := StringAt(data, locationA.value.next);
    if locationB.Err? then Err(locationB.error) else
    var cableCode := StringAt(data, locationB.value.next);
    if cableCode.Err? then Err(cableCode.error) else
    var build, p := Take(data, cableCode.value.next, 2), After(data, cableCode.value.next, 2);
    var userOffset := SignedAt(data, p, 4);
    if userOffset.Err? then Err(userOffset.error) else
    Ok(Parsed(GenMiddle(wavelength.value.value, locationA.value.value, locationB.value.value,
                        cableCode.value.value, build, userOffset.value.value), userOffset.value.next))
  }

  function TailAt(data: Bytes, pos: nat): (r: Result<Parsed<GenTail>>)
    ensures r.Err? ==> r.error == Truncated
  {
    var operator := StringAt(data, pos);
    if operator.Err? then Err(operator.error) else
    var comment := StringAt(data, operator.value.next);
    if comment.Err? then Err(comment.error) else
    Ok(Parsed(GenTail(operator.value.value, comment.value.value), comment.value.next))
  }

  /** `GenParamsParserV1.parse` after its seek; fiber type and user offset distance are absent. */
  function GenParamsV1At(data: Bytes, pos: nat): (r: Result<Parsed<GenParams>>)
    ensures r.Err? ==> r.error == Truncated
    ensures r.Ok? ==> r.value.value.fiberType == None && r.value.value.userOffsetDistance == None
  {
    var head := HeadAt(data, pos);
    if head.Err? then Err(head.error) else
    var middle := MiddleAt(data, head.value.next);
    if middle.Err? then Err(middle.error) else
    var tail := TailAt(data, middle.value.next);
    if tail.Err? then Err(tail.error) else
    Ok(Parsed(GenParamsOf(head.value.value, None, middle.value.value, None, tail.value.value), tail.value.next))
  }

  /** The version 2 fields after the fiber type: the middle run, the user offset distance, the tail. */
  function V2FieldsAt(data: Bytes, pos: nat, head: GenHead, fiberType: FiberType): (r: Result<Parsed<GenParams>>)
    ensures r.Err? ==> r.error == Truncated
  {
    var middle := MiddleAt(data, pos);
    if middle.Err? then Err(middle.error) else
    var distance := SignedAt(data, middle.value.next, 4);
    if distance.Err? then Err(distance.error) else
    var tail := TailAt(data, distance.value.next);
    if tail.Err? then Err(tail.error) else
    Ok(Parsed(GenParamsOf(head, Some(fiberType), middle.value.value, Some(distance.value.value), tail.value.value),
              tail.value.next))
  }

  /** What a version 2 block holds before the fields it shares with version 1's middle run. */
  datatype V2Start = V2Start(head: GenHead, fiberType: FiberType)

  /**
   * The prefix check, the head run and the fiber type code of a version 2 block. The
   * code is converted as soon as it is read, so an unsupported code fails before the
   * fields after it.
   */
  function V2StartAt(data: Bytes, pos: nat): (r: Result<Parsed<V2Start>>)
    ensures BlockNameAt(data, pos, GenParamsName).Err? ==> r == Err(BlockNameAt(data, pos, GenParamsName).error)
    ensures r.Err? ==> r.error == Truncated || r.error.BlockNameMismatch? || r.error.UnsupportedFiberType?
  {
    var start := BlockNameAt(data, pos, GenParamsName);
    if start.Err? then Err(start.error) else
    var head := HeadAt(data, start.value);
    if head.Err? then Err(head.error) else
    var code := UnsignedAt(data, head.value.next, 2);
    if code.Err? then Err(code.error) else
    var fiberType := FiberTypeOf(code.value.value);
    if fiberType.Err? then Err(fiberType.error) else
    Ok(Parsed(V2Start(head.value.value, fiberType.value), code.value.next))
  }

  /** `GenParamsParserV2.parse` after its seek. */
  function GenParamsV2At(data: Bytes, pos: nat): (r: Result<Parsed<GenParams>>)
    ensures BlockNameAt(data, pos, GenParamsName).Err? ==> r == Err(BlockNameAt(data, pos, GenParamsName).error)
    ensures r.Err? ==> r.error == Truncated || r.error.BlockNameMismatch? || r.error.UnsupportedFiberType?
    ensures r.Ok? ==> r.value.value.fiberType.Some? && r.value.value.userOffsetDistance.Some?
  {
    var start := V2StartAt(data, pos);
    if start.Err? then Err(start.error) else
    V2FieldsAt(data, start.value.next, start.value.value.head, start.value.value.fiberType)
  }

  // ----- the writer's side -----
  //
  // A layout is the list of fields a writer stores; each lemma below reads one run
  // of fields off the front of a stored layout and returns where the rest begins.

  /** The fields both layouts store, in a form a writer can lay out. */
  predicate StorableCommon(g: GenParams) {
    && |g.language| == 2 && NoZero(g.cableId) && NoZero(g.fiberId)
    && g.wavelength < 0x1_0000 && NoZero(g.locationA) && NoZero(g.locationB) && NoZero(g.cableCode)
    && |g.buildCondition| == 2 && FitsSigned(g.userOffset, 4)
    && NoZero(g.operator) && NoZero(g.comment)
  }

  /** A version 1 record: storable, and without the version 2 fields. */
  predicate StorableV1(g: GenParams) {
    StorableCommon(g) && g.fiberType == None && g.userOffsetDistance == None
  }

  /** A version 2 record: storable, with both version 2 fields. */
  predicate StorableV2(g: GenParams) {
    StorableCommon(g) && g.fiberType.Some? && g.userOffsetDistance.Some? && FitsSigned(g.userOffsetDistance.value, 4)
  }

  function HeadFields(g: GenParams): seq<Field> {
    [Raw(g.language), Text(g.cableId), Text(g.fiberId)]
  }

  function MiddleFields(g: GenParams): seq<Field> {
    [Unsigned(g.wavelength, 2), Text(g.locationA), Text(g.locationB), Text(g.cableCode),
     Raw(g.buildCondition), Signed(g.userOffset, 4)]
  }

  function TailFields(g: GenParams): seq<Field> {
    [Text(g.operator), Text(g.comment)]
  }

  /** The version 1 layout. */
  function GenParamsV1Fields(g: GenParams): seq<Field> {
    HeadFields(g) + (MiddleFields(g) + TailFields(g))
  }

  /** The version 2 layout: the prefix, then the version 1 fields with the fiber code and the distance inserted. */
  function GenParamsV2Fields(g: GenParams): seq<Field>
    requires g.fiberType.Some? && g.userOffsetDistance.Some?
  {
    [Raw(GenParamsName + [0])] + (HeadFields(g) + ([Unsigned(FiberCode(g.fiberType.value), 2)] +
      (MiddleFields(g) + ([Signed(g.userOffsetDistance.value, 4)] + TailFields(g)))))
  }

  lemma HeadParts(data: Bytes, pos: nat, language: Bytes, q1: nat, cableId: Bytes, q2: nat, fiberId: Bytes, q3: nat)
    requires Take(data, pos, 2) == language && After(data, pos, 2) == q1
    requires StringAt(data, q1) == Ok(Parsed(cableId, q2))
    requires StringAt(data, q2) == Ok(Parsed(fiberId, q3))
    ensures HeadAt(data, pos) == Ok(Parsed(GenHead(language, cableId, fiberId), q3))
  {
  }

  lemma HeadEncoded(data: Bytes, pos: nat, g: GenParams, more: seq<Field>, rest: Bytes) returns (next: nat)
    requires StorableCommon(g) && pos <= |data| && data[pos..] == EncodeFields(HeadFields(g) + more) + rest
    ensures next <= |data| && HeadAt(data, pos) == Ok(Parsed(GenHead(g.language, g.cableId, g.fiberId), next))
    ensures data[next..] == EncodeFields(more) + rest
  {
    var f0 := HeadFields(g) + more;
    var f1 := f0[1..];
    var f2 := f1[1..];
    assert f2[1..] == more;
    var q1 := RawFirst(data, pos, f0, 2, rest);
    var q2 := TextFirst(data, q1, f1, rest);
    next := TextFirst(data, q2, f2, rest);
    HeadParts(data, pos, g.language, q1, g.cableId, q2, g.fiberId, next);
  }

  lemma MiddleParts(data: Bytes, pos: nat, wavelength: nat, q1: nat, locationA: Bytes, q2: nat, locationB: Bytes, q3: nat,
                    cableCode: Bytes, q4: nat, build: Bytes, q5: nat, userOffset: int, q6: nat)
    requires UnsignedAt(data, pos, 2) == Ok(Parsed(wavelength, q1))
    requires StringAt(data, q1) == Ok(Parsed(locationA, q2))
    requires StringAt(data, q2) == Ok(Parsed(locationB, q3))
    requires StringAt(data, q3) == Ok(Parsed(cableCode, q4))
    requires Take(data, q4, 2) == build && After(data, q4, 2) == q5
    requires SignedAt(data, q5, 4) == Ok(Parsed(userOffset, q6))
    ensures MiddleAt(data, pos) == Ok(Parsed(GenMiddle(wavelength, locationA, locationB, cableCode, build, userOffset), q6))
  {
  }

  lemma MiddleEncoded(data: Bytes, pos: nat, g: GenParams, more: seq<Field>, rest: Bytes) returns (next: nat)
    requires StorableCommon(g) && pos <= |data| && data[pos..] == EncodeFields(MiddleFields(g) + more) + rest
    ensures next <= |data|
    ensures MiddleAt(data, pos) == Ok(Parsed(GenMiddle(g.wavelength, g.locationA, g.locationB, g.cableCode,
                                                       g.buildCondition, g.userOffset), next))
    ensures data[next..] == EncodeFields(more) + rest
  {
    Pow256Widths();
    var f0 := MiddleFields(g) + more;
    var f1 := f0[1..];
    var f2 := f1[1..];
    var f3 := f2[1..];
    var f4 := f3[1..];
    var f5 := f4[1..];
    assert f5[1..] == more;
    var q1 := UnsignedFirst(data, pos, f0, 2, rest);
    var q2 := TextFirst(data, q1, f1, rest);
    var q3 := TextFirst(data, q2, f2, rest);
    var q4 := TextFirst(data, q3, f3, rest);
    var q5 := RawFirst(data, q4, f4, 2, rest);
    next := SignedFirst(data, q5, f5, 4, rest);
    MiddleParts(data, pos, g.wavelength, q1, g.locationA, q2, g.locationB, q3, g.cableCode, q4,
                g.buildCondition, q5, g.userOffset, next);
  }

  lemma TailParts(data: Bytes, pos: nat, operator: Bytes, q1: nat, comment: Bytes, q2: nat)
    requires StringAt(data, pos) == Ok(Parsed(operator, q1))
    requires StringAt(data, q1) == Ok(Parsed(comment, q2))
    ensures TailAt(data, pos) == Ok(Parsed(GenTail(operator, comment), q2))
  {
  }

  lemma TailEncoded(data: Bytes, pos: nat, g: GenParams, more: seq<Field>, rest: Bytes) returns (next: nat)
    requires StorableCommon(g) && pos <= |data| && data[pos..] == EncodeFields(TailFields(g) + more) + rest
    ensures next <= |data| && TailAt(data, pos) == Ok(Parsed(GenTail(g.operator, g.comment), next))
    ensures data[next..] == EncodeFields(more) + rest
  {
    var f0 := TailFields(g) + more;
    var f1 := f0[1..];
    assert f1[1..] == more;
    var q1 := TextFirst(data, pos, f0, rest);
    next := TextFirst(data, q1, f1, rest);
    TailParts(data, pos, g.operator, q1, g.comment, next);
  }

  /** A record is put back together from its three runs and its version 2 fields. */
  lemma GenParamsOfRuns(g: GenParams, h: GenHead, m: GenMiddle, t: GenTail)
    requires h == GenHead(g.language, g.cableId, g.fiberId)
    requires m == GenMiddle(g.wavelength, g.locationA, g.locationB, g.cableCode, g.buildCondition, g.userOffset)
    requires t == GenTail(g.operator, g.comment)
    ensures g == GenParamsOf(h, g.fiberType, m, g.userOffsetDistance, t)
  {
  }

  /** GenParamsV1At in terms of its three runs. */
  lemma GenParamsV1Parts(data: Bytes, pos: nat, h: GenHead, q1: nat, m: GenMiddle, q2: nat, t: GenTail, q3: nat, g: GenParams)
    requires HeadAt(data, pos) == Ok(Parsed(h, q1))
    requires MiddleAt(data, q1) == Ok(Parsed(m, q2))
    requires TailAt(data, q2) == Ok(Parsed(t, q3))
    requires g == GenParamsOf(h, None, m, None, t)
    ensures GenParamsV1At(data, pos) == Ok(Parsed(g, q3))
  {
  }

  /** A version 1 block laid out by a writer is read back as the record, up to `end`, where `rest` begins. */
  lemma GenParamsV1Encoded(data: Bytes, pos: nat, g: GenParams, rest: Bytes, end: nat)
    requires StorableV1(g) && pos <= |data| && data[pos..] == EncodeFields(GenParamsV1Fields(g)) + rest
    requires end == |data| - |rest|
    ensures GenParamsV1At(data, pos) == Ok(Parsed(g, end))
  {
    var tf := TailFields(g);
    assert tf + [] == tf;
    var q1 := HeadEncoded(data, pos, g, MiddleFields(g) + tf, rest);
    var q2 := MiddleEncoded(data, q1, g, tf, rest);
    var q3 := TailEncoded(data, q2, g, [], rest);
    FieldsDone(data, q3, [], rest);
    var h, m, t := GenHead(g.language, g.cableId, g.fiberId),
      GenMiddle(g.wavelength, g.locationA, g.locationB, g.cableCode, g.buildCondition, g.userOffset),
      GenTail(g.operator, g.comment);
    GenParamsOfRuns(g, h, m, t);
    GenParamsV1Parts(data, pos, h, q1, m, q2, t, q3, g);
    assert q3 == end;
    assert Ok(Parsed(g, q3)) == Ok(Parsed(g, end));
  }

  /** V2FieldsAt in terms of its three reads. */
  lemma V2FieldsParts(data: Bytes, pos: nat, h: GenHead, f: FiberType, m: GenMiddle, q1: nat, d: int, q2: nat, t: GenTail, q3: nat,
                      g: GenParams)
    requires MiddleAt(data, pos) == Ok(Parsed(m, q1))
    requires SignedAt(data, q1, 4) == Ok(Parsed(d, q2))
    requires TailAt(data, q2) == Ok(Parsed(t, q3))
    requires g == GenParamsOf(h, Some(f), m, Some(d), t)
    ensures V2FieldsAt(data, pos, h, f) == Ok(Parsed(g, q3))
  {
  }

  /** V2StartAt in terms of its prefix check, head run and fiber type code. */
  lemma V2StartParts(data: Bytes, pos: nat, q0: nat, h: GenHead, q1: nat, code: nat, f: FiberType, q2: nat)
    requires BlockNameAt(data, pos, GenParamsName) == Ok(q0)
    requires HeadAt(data, q0) == Ok(Parsed(h, q1))
    requires UnsignedAt(data, q1, 2) == Ok(Parsed(code, q2)) && FiberTypeOf(code) == Ok(f)
    ensures V2StartAt(data, pos) == Ok(Parsed(V2Start(h, f), q2))
  {
  }

  /** GenParamsV2At in terms of its start and its remaining fields. */
  lemma GenParamsV2Parts(data: Bytes, pos: nat, h: GenHead, f: FiberType, q2: nat, r: Result<Parsed<GenParams>>)
    requires V2StartAt(data, pos) == Ok(Parsed(V2Start(h, f), q2))
    requires r == V2FieldsAt(data, q2, h, f)
    ensures GenParamsV2At(data, pos) == r
  {
  }

  /** The prefix, head run and fiber code at the front of a stored version 2 layout. */
  lemma V2StartEncoded(data: Bytes, pos: nat, g: GenParams, code: nat, more: seq<Field>, rest: Bytes)
    returns (q0: nat, q1: nat, q2: nat)
    requires StorableCommon(g) && code < 0x1_0000 && pos <= |data|
    requires data[pos..] == EncodeFields([Raw(GenParamsName + [0])] + (HeadFields(g) + ([Unsigned(code, 2)] + more))) + rest
    ensures q2 <= |data| && BlockNameAt(data, pos, GenParamsName) == Ok(q0)
    ensures HeadAt(data, q0) == Ok(Parsed(GenHead(g.language, g.cableId, g.fiberId), q1))
    ensures UnsignedAt(data, q1, 2) == Ok(Parsed(code, q2))
    ensures data[q2..] == EncodeFields(more) + rest
  {
    Pow256Widths();
    var f0 := [Raw(GenParamsName + [0])] + (HeadFields(g) + ([Unsigned(code, 2)] + more));
    var fc := [Unsigned(code, 2)] + more;
    assert f0[1..] == HeadFields(g) + fc;
    assert fc[1..] == more;
    q0 := BlockNameFirst(data, pos, f0, GenParamsName, rest);
    q1 := HeadEncoded(data, q0, g, fc, rest);
    q2 := UnsignedFirst(data, q1, fc, 2, rest);
  }

  /** The fields after the fiber type code at the front of a stored version 2 layout. */
  lemma V2FieldsEncoded(data: Bytes, pos: nat, g: GenParams, rest: Bytes, h: GenHead, end: nat)
    requires StorableV2(g) && pos <= |data|
    requires data[pos..] == EncodeFields(MiddleFields(g) + ([Signed(g.userOffsetDistance.value, 4)] + TailFields(g))) + rest
    requires h == GenHead(g.language, g.cableId, g.fiberId) && end == |data| - |rest|
    ensures V2FieldsAt(data, pos, h, g.fiberType.value) == Ok(Parsed(g, end))
  {
    var tf := TailFields(g);
    var df := [Signed(g.userOffsetDistance.value, 4)] + tf;
    assert df[1..] == tf && tf + [] == tf;
    var q1 := MiddleEncoded(data, pos, g, df, rest);
    var q2 := SignedFirst(data, q1, df, 4, rest);
    var q3 := TailEncoded(data, q2, g, [], rest);
    FieldsDone(data, q3, [], rest);
    var m, t := GenMiddle(g.wavelength, g.locationA, g.locationB, g.cableCode, g.buildCondition, g.userOffset),
      GenTail(g.operator, g.comment);
    GenParamsOfRuns(g, h, m, t);
    V2FieldsParts(data, pos, h, g.fiberType.value, m, q1, g.userOffsetDistance.value, q2, t, q3, g);
    assert q3 == end;
    assert Ok(Parsed(g, q3)) == Ok(Parsed(g, end));
  }

  /** A version 2 block laid out by a writer is read back as the record, up to `end`, where `rest` begins. */
  lemma GenParamsV2Encoded(data: Bytes, pos: nat, g: GenParams, rest: Bytes, end: nat)
    requires StorableV2(g) && pos <= |data| && data[pos..] == EncodeFields(GenParamsV2Fields(g)) + rest
    requires end == |data| - |rest|
    ensures GenParamsV2At(data, pos) == Ok(Parsed(g, end))
  {
    var code := FiberCode(g.fiberType.value);
    var more := MiddleFields(g) + ([Signed(g.userOffsetDistance.value, 4)] + TailFields(g));
    var h := GenHead(g.language, g.cableId, g.fiberId);
    var q0, q1, q2 := V2StartEncoded(data, pos, g, code, more, rest);
    FiberTypeOfCode(g.fiberType.value);
    V2StartParts(data, pos, q0, h, q1, code, g.fiberType.value, q2);
    V2FieldsEncoded(data, q2, g, rest, h, end);
    GenParamsV2Parts(data, pos, h, g.fiberType.value, q2, Ok(Parsed(g, end)));
  }

  /**
   * A version 2 block whose fiber type code is not 651..657 fails with that code,
   * whatever follows the code (even nothing).
   */
  lemma GenParamsV2UnsupportedFiber(data: Bytes, pos: nat, g: GenParams, code: nat, rest: Bytes)
    requires StorableCommon(g) && code < 0x1_0000 && !(651 <= code <= 657)
    requires pos <= |data| && data[pos..] == EncodeFields([Raw(GenParamsName + [0])] + (HeadFields(g) + [Unsigned(code, 2)])) + rest
    ensures GenParamsV2At(data, pos) == Err(UnsupportedFiberType(code))
  {
    assert [Unsigned(code, 2)] + [] == [Unsigned(code, 2)];
    var q0, q1, q2 := V2StartEncoded(data, pos, g, code, [], rest);
  }

  // ----- the decoders over the shared file handle -----

  method ReadHead(fh: FileHandle) returns (r: Result<GenHead>)
    modifies fh
    ensures r == ValueOf(HeadAt(fh.data, old(fh.pos)))
    ensures r.Ok? ==> fh.pos == HeadAt(fh.data, old(fh.pos)).value.next
  {
    var language := fh.Read(2);
    var cableId :- ParseString(fh);
    var fiberId :- ParseString(fh);
    r := Ok(GenHead(language, cableId, fiberId));
  }

  method ReadMiddle(fh: FileHandle) returns (r: Result<GenMiddle>)
    modifies fh
    ensures r == ValueOf(MiddleAt(fh.data, old(fh.pos)))
    ensures r.Ok? ==> fh.pos == MiddleAt(fh.data, old(fh.pos)).value.next
  {
    var wavelength :- ParseUShort(fh);
    var locationA :- ParseString(fh);
    var locationB :- ParseString(fh);
    var cableCode :- ParseString(fh);
    var build := fh.Read(2);
    var userOffset :- ParseInt(fh);
    r := Ok(GenMiddle(wavelength, locationA, locationB, cableCode, build, userOffset));
  }

  method ReadTail(fh: FileHandle) returns (r: Result<GenTail>)
    modifies fh
    ensures r == ValueOf(TailAt(fh.data, old(fh.pos)))
    ensures r.Ok? ==> fh.pos == TailAt(fh.data, old(fh.pos)).value.next
  {
    var operator :- ParseString(fh);
    var comment :- ParseString(fh);
    r := Ok(GenTail(operator, comment));
  }

  method ReadGenParamsV1(fh: FileHandle) returns (r: Result<GenParams>)
    modifies fh
    ensures r == ValueOf(GenParamsV1At(fh.data, old(fh.pos)))
    ensures r.Ok? ==> fh.pos == GenParamsV1At(fh.data, old(fh.pos)).value.next
  {
    var head :- ReadHead(fh);
    var middle :- ReadMiddle(fh);
    var tail :- ReadTail(fh);
    r := Ok(GenParamsOf(head, None, middle, None, tail));
  }

  method ReadV2Fields(fh: FileHandle, head: GenHead, fiberType: FiberType) returns (r: Result<GenParams>)
    modifies fh
    ensures r == ValueOf(V2FieldsAt(fh.data, old(fh.pos), head, fiberType))
    ensures r.Ok? ==> fh.pos == V2FieldsAt(fh.data, old(fh.pos), head, fiberType).value.next
  {
    var middle :- ReadMiddle(fh);
    var distance :- ParseInt(fh);
    var tail :- ReadTail(fh);
    r := Ok(GenParamsOf(head, Some(fiberType), middle, Some(distance), tail));
  }

  method ReadV2Start(fh: FileHandle) returns (r: Result<V2Start>)
    modifies fh
    ensures r == ValueOf(V2StartAt(fh.data, old(fh.pos)))
    ensures r.Ok? ==> fh.pos == V2StartAt(fh.data, old(fh.pos)).value.next
  {
    var start :- ExpectBlockName(fh, GenParamsName);
    var head :- ReadHead(fh);
    var code :- ParseUShort(fh);
    var fiberType :- FiberTypeOf(code);
    r := Ok(V2Start(head, fiberType));
  }

  method ReadGenParamsV2(fh: FileHandle) returns (r: Result<GenParams>)
    modifies fh
    ensures r == ValueOf(GenParamsV2At(fh.data, old(fh.pos)))
    ensures r.Ok? ==> fh.pos == GenParamsV2At(fh.data, old(fh.pos)).value.next
  {
    var start :- ReadV2Start(fh);
    r := ReadV2Fields(fh, start.head, start.fiberType);
  }

  /** `GenParamsParserV1.parse`: seek to the block, then read it. */
  method ParseGenParamsV1(p: BlockParser) returns (r: Result<GenParams>)
    modifies p.fh
    ensures r == ValueOf(GenParamsV1At(p.fh.data, p.startPosition))
  {
    p.Seek();
    r := ReadGenParamsV1(p.fh);
  }

  /** `GenParamsParserV2.parse`: seek to the block, then read it. */
  method ParseGenParamsV2(p: BlockParser) returns (r: Result<GenParams>)
    modifies p.fh
    ensures r == ValueOf(GenParamsV2At(p.fh.data, p.startPosition))
  {
    p.Seek();
    r := ReadGenParamsV2(p.fh);
  }
}
