/**
 * The SupParams block: seven NUL-terminated strings naming the supplier, the
 * OTDR, its serial number, the module, its serial number, the software and any
 * other information. Version 2 starts with "SupParams\0" and is otherwise the
 * version 1 block.
 */
module SupParamsDecoder {
  import opened SorTypes
  import opened FileHandles
  import opened TypeParser
  import opened BlockData
  import opened AbstractParser

  /** `SupParamsParserV1.parse` after its seek: the seven strings in their order. */
  function SupParamsV1At(data: Bytes, pos: nat): (r: Result<Parsed<SupParams>>)
    ensures r.Err? ==> r.error == Truncated
    ensures r.Ok? ==> pos < r.value.next <= |data|
  {
    var supplier := StringAt(data, pos);
    if supplier.Err? then Err(supplier.error) else
    var otdr := StringAt(data, supplier.value.next);
    if otdr.Err? then Err(otdr.error) else
    var otdrSerial := StringAt(data, otdr.value.next);
    if otdrSerial.Err? then Err(otdrSerial.error) else
    var moduleName := StringAt(data, otdrSerial.value.next);
    if moduleName.Err? then Err(moduleName.error) else
    var moduleSerial := StringAt(data, moduleName.value.next);
    if moduleSerial.Err? then Err(moduleSerial.error) else
    var software := StringAt(data, moduleSerial.value.next);
    if software.Err? then Err(software.error) else
    var other := StringAt(data, software.value.next);
    if other.Err? then Err(other.error) else
    Ok(Parsed(SupParams(supplier.value.value, otdr.value.value, otdrSerial.value.value, moduleName.value.value,
                        moduleSerial.value.value, software.value.value, other.value.value), other.value.next))
  }

  /** `SupParamsParserV2.parse` after its seek: the prefix check, then the version 1 body. */
  function SupParamsV2At(data: Bytes, pos: nat): (r: Result<Parsed<SupParams>>)
    ensures BlockNameAt(data, pos, SupParamsName).Err? ==> r == Err(BlockNameAt(data, pos, SupParamsName).error)
    ensures r.Err? ==> r.error == Truncated || r.error.BlockNameMismatch?
  {
    var start := BlockNameAt(data, pos, SupParamsName);
    if start.Err? then Err(start.error) else
    SupParamsV1At(data, start.value)
  }

  /** Behind a correct prefix, version 2 reads exactly what version 1 reads 10 bytes further on. */
  lemma SupParamsV2Body(data: Bytes, pos: nat)
    requires pos + 10 <= |data| && data[pos..pos + 10] == SupParamsName + [0]
    ensures SupParamsV2At(data, pos) == SupParamsV1At(data, pos + 10)
  {
  }

  /** SupParamsV1At in terms of the positions after each of its strings. */
  lemma SupParamsV1Positions(data: Bytes, pos: nat) returns (q: seq<nat>)
    requires SupParamsV1At(data, pos).Ok?
    ensures |q| == 8 && q[0] == pos && q[7] == SupParamsV1At(data, pos).value.next
    ensures forall i | 0 <= i < 7 :: StringAt(data, q[i]).Ok? && StringAt(data, q[i]).value.next == q[i + 1]
  {
    var q1 := StringAt(data, pos).value.next;
    var q2 := StringAt(data, q1).value.next;
    var q3 := StringAt(data, q2).value.next;
    var q4 := StringAt(data, q3).value.next;
    var q5 := StringAt(data, q4).value.next;
    var q6 := StringAt(data, q5).value.next;
    var q7 := StringAt(data, q6).value.next;
    q := [pos, q1, q2, q3, q4, q5, q6, q7];
  }

  /**
   * A version 1 block ends just past the seventh terminator it meets: the bytes it
   * consumes hold exactly seven 0x00 and end with one.
   */
  lemma SupParamsV1Terminators(data: Bytes, pos: nat)
    requires SupParamsV1At(data, pos).Ok?
    ensures var next := SupParamsV1At(data, pos).value.next;
      ZeroCount(data[pos..next]) == 7 && data[next - 1] == 0
  {
    var q := SupParamsV1Positions(data, pos);
    var i := 0;
    while i < 7
      invariant 0 <= i <= 7
      invariant pos <= q[i] <= |data| && ZeroCount(data[pos..q[i]]) == i
      invariant i > 0 ==> data[q[i] - 1] == 0
    {
      StringAtOneTerminator(data, q[i]);
      ZeroCountSplit(data, pos, q[i], q[i + 1]);
      i := i + 1;
    }
  }

  // ----- the writer's side -----

  /** A record a writer can lay out: no string holds a terminator. */
  predicate StorableSup(s: SupParams) {
    NoZero(s.supplier) && NoZero(s.otdr) && NoZero(s.otdrSerialNumber) && NoZero(s.moduleName)
    && NoZero(s.moduleSerialNumber) && NoZero(s.software) && NoZero(s.other)
  }

  /** The version 1 layout: the seven strings, each with its terminator. */
  function SupParamsFields(s: SupParams): seq<Field> {
    [Text(s.supplier), Text(s.otdr), Text(s.otdrSerialNumber), Text(s.moduleName),
     Text(s.moduleSerialNumber), Text(s.software), Text(s.other)]
  }

  /** The version 2 layout: the prefix, then the version 1 layout. */
  function SupParamsV2Fields(s: SupParams): seq<Field> {
    [Raw(SupParamsName + [0])] + SupParamsFields(s)
  }

  lemma SupParamsV1Parts(data: Bytes, pos: nat, s: SupParams, q1: nat, q2: nat, q3: nat, q4: nat, q5: nat, q6: nat, q7: nat)
    requires StringAt(data, pos) == Ok(Parsed(s.supplier, q1))
    requires StringAt(data, q1) == Ok(Parsed(s.otdr, q2))
    requires StringAt(data, q2) == Ok(Parsed(s.otdrSerialNumber, q3))
    requires StringAt(data, q3) == Ok(Parsed(s.moduleName, q4))
    requires StringAt(data, q4) == Ok(Parsed(s.moduleSerialNumber, q5))
    requires StringAt(data, q5) == Ok(Parsed(s.software, q6))
    requires StringAt(data, q6) == Ok(Parsed(s.other, q7))
    ensures SupParamsV1At(data, pos) == Ok(Parsed(s, q7))
  {
  }

  /** A version 1 block laid out by a writer is read back as the record, up to `end`, where `rest` begins. */
  lemma SupParamsV1Encoded(data: Bytes, pos: nat, s: SupParams, rest: Bytes, end: nat)
    requires StorableSup(s) && pos <= |data| && data[pos..] == EncodeFields(SupParamsFields(s)) + rest
    requires end == |data| - |rest|
    ensures SupParamsV1At(data, pos) == Ok(Parsed(s, end))
  {
    var f0 := SupParamsFields(s);
    var f1 := f0[1..];
    var f2 := f1[1..];
    var f3 := f2[1..];
    var f4 := f3[1..];
    var f5 := f4[1..];
    var f6 := f5[1..];
    var q1 := TextFirst(data, pos, f0, rest);
    var q2 := TextFirst(data, q1, f1, rest);
    var q3 := TextFirst(data, q2, f2, rest);
    var q4 := TextFirst(data, q3, f3, rest);
    var q5 := TextFirst(data, q4, f4, rest);
    var q6 := TextFirst(data, q5, f5, rest);
    var q7 := TextFirst(data, q6, f6, rest);
    FieldsDone(data, q7, f6[1..], rest);
    SupParamsV1Parts(data, pos, s, q1, q2, q3, q4, q5, q6, q7);
    assert q7 == end;
    assert Ok(Parsed(s, q7)) == Ok(Parsed(s, end));
  }

  /** A version 2 block laid out by a writer is read back as the record, up to `end`, where `rest` begins. */
  lemma SupParamsV2Encoded(data: Bytes, pos: nat, s: SupParams, rest: Bytes, end: nat)
    requires StorableSup(s) && pos <= |data| && data[pos..] == EncodeFields(SupParamsV2Fields(s)) + rest
    requires end == |data| - |rest|
    ensures SupParamsV2At(data, pos) == Ok(Parsed(s, end))
  {
    var fs := SupParamsV2Fields(s);
    assert fs[1..] == SupParamsFields(s);
    var q0 := BlockNameFirst(data, pos, fs, SupParamsName, rest);
    SupParamsV1Encoded(data, q0, s, rest, end);
  }

  // ----- the decoders over the shared file handle -----

  method ReadSupParamsV1(fh: FileHandle) returns (r: Result<SupParams>)
    modifies fh
    ensures r == ValueOf(SupParamsV1At(fh.data, old(fh.pos)))
    ensures r.Ok? ==> fh.pos == SupParamsV1At(fh.data, old(fh.pos)).value.next
  {
    var supplier :- ParseString(fh);
    var otdr :- ParseString(fh);
    var otdrSerial :- ParseString(fh);
    var moduleName :- ParseString(fh);
    var moduleSerial :- ParseString(fh);
    var software :- ParseString(fh);
    var other :- ParseString(fh);
    r := Ok(SupParams(supplier, otdr, otdrSerial, moduleName, moduleSerial, software, other));
  }

  method ReadSupParamsV2(fh: FileHandle) returns (r: Result<SupParams>)
    modifies fh
    ensures r == ValueOf(SupParamsV2At(fh.data, old(fh.pos)))
    ensures r.Ok? ==> fh.pos == SupParamsV2At(fh.data, old(fh.pos)).value.next
  {
    var start :- ExpectBlockName(fh, SupParamsName);
    r := ReadSupParamsV1(fh);
  }

  /** `SupParamsParserV1.parse`: seek to the block, then read it. */
  method ParseSupParamsV1(p: BlockParser) returns (r: Result<SupParams>)
    modifies p.fh
    ensures r == ValueOf(SupParamsV1At(p.fh.data, p.startPosition))
  {
    p.Seek();
    r := ReadSupParamsV1(p.fh);
  }

  /** `SupParamsParserV2.parse`: seek to the block, then read it. */
  method ParseSupParamsV2(p: BlockParser) returns (r: Result<SupParams>)
    modifies p.fh
    ensures r == ValueOf(SupParamsV2At(p.fh.data, p.startPosition))
  {
    p.Seek();
    r := ReadSupParamsV2(p.fh);
  }
}
