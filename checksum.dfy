/**
 * The Cksum block: a stored u16 and the CRC-16/CCITT-FALSE the reader computes
 * over the start of the file. Version 1 stores the value at the block's offset
 * and the CRC covers every byte before it; version 2 starts with "Cksum\0" and
 * the CRC also covers that prefix, so again it ends where the stored value
 * begins. A mismatch is reported in the record, never as an error.
 */
module CksumDecoder {
  import opened SorTypes
  import opened FileHandles
  import opened TypeParser
  import opened Crc16
  import opened BlockData
  import opened AbstractParser

  /** Where the stored u16 starts, and so where the bytes the CRC covers end. */
  function StoredAt(pos: nat, v: Version): nat {
    if v == V1 then pos else pos + |CksumName| + 1
  }

  /** `CksumParserV1.parse` (v = V1) and `CksumParserV2.parse` (v = V2) after their seek. */
  function CksumAt(data: Bytes, pos: nat, v: Version): (r: Result<Cksum>)
    ensures r.Err? ==> r.error == Truncated || r.error.BlockNameMismatch?
  {
    var start := if v == V1 then Ok(pos) else BlockNameAt(data, pos, CksumName);
    if start.Err? then Err(start.error) else
    var stored := UnsignedAt(data, start.value, 2);
    if stored.Err? then Err(stored.error) else
    var computed := CrcValue(Take(data, 0, StoredAt(pos, v)));
    Ok(Cksum(stored.value.value, computed, stored.value.value == computed))
  }

  /** The version 2 prefix is in place (version 1 has none). */
  predicate PrefixIntact(data: Bytes, pos: nat, v: Version) {
    v == V2 ==> pos + 6 <= |data| && data[pos..pos + 6] == CksumName + [0]
  }

  /**
   * The block decodes exactly when the prefix is in place and the two stored bytes
   * are there. The record then holds the stored u16, the CRC of every byte before
   * it, which is below 2^16, and whether the two agree.
   */
  lemma CksumShape(data: Bytes, pos: nat, v: Version)
    ensures CksumAt(data, pos, v).Ok? <==> PrefixIntact(data, pos, v) && StoredAt(pos, v) + 2 <= |data|
    ensures CksumAt(data, pos, v).Ok? ==> var c := CksumAt(data, pos, v).value;
      && StoredAt(pos, v) + 2 <= |data|
      && c.checksum == UnsignedAt(data, StoredAt(pos, v), 2).value.value
      && c.checksumOurs == CrcValue(data[..StoredAt(pos, v)]) < 0x1_0000
      && (c.matches <==> c.checksum == c.checksumOurs)
  {
  }

  /**
   * Changing any single byte the CRC covers turns an agreeing checksum into a
   * disagreeing one; in version 2 it may instead spoil the prefix, which fails the
   * decode. In version 1 the decode still succeeds.
   */
  lemma SingleByteChangeBreaksMatch(data: Bytes, pos: nat, v: Version, k: nat, b: Byte)
    requires CksumAt(data, pos, v).Ok? && CksumAt(data, pos, v).value.matches
    requires k < StoredAt(pos, v) && data[k] != b
    ensures CksumAt(data[k := b], pos, v).Ok? ==> !CksumAt(data[k := b], pos, v).value.matches
    ensures v == V1 ==> CksumAt(data[k := b], pos, v).Ok?
  {
    var changed := data[k := b];
    var s := StoredAt(pos, v);
    CksumShape(data, pos, v);
    CksumShape(changed, pos, v);
    if CksumAt(changed, pos, v).Ok? {
      var before, after := CksumAt(data, pos, v).value, CksumAt(changed, pos, v).value;
      assert changed[s..s + 2] == data[s..s + 2];
      assert after.checksum == before.checksum;
      assert changed[..s] == data[..s][k := b];
      SingleByteChangeDetected(data[..s], k, b);
      assert after.checksumOurs != before.checksumOurs;
    }
  }

  // ----- the writer's side -----

  /** What a writer puts before the stored value: nothing in version 1, "Cksum\0" in version 2. */
  function CksumPrefix(v: Version): Bytes {
    if v == V1 then [] else CksumName + [0]
  }

  /**
   * A writer that stores the CRC of everything before the value, at the block's
   * offset `|file|`, produces a block that reads back as agreeing.
   */
  lemma CksumWritten(file: Bytes, v: Version, rest: Bytes)
    ensures var covered := file + CksumPrefix(v);
      var c := CrcValue(covered);
      CksumAt(covered + ToLittleEndian(c, 2) + rest, |file|, v) == Ok(Cksum(c, c, true))
  {
    var covered := file + CksumPrefix(v);
    var c := CrcValue(covered);
    var stored := ToLittleEndian(c, 2) + rest;
    var data := covered + stored;
    assert data == covered + ToLittleEndian(c, 2) + rest;
    var pos, s := |file|, |covered|;
    assert StoredAt(pos, v) == s;
    if v == V2 {
      assert data[pos..] == CksumName + [0] + stored;
      BlockNameAtEncoded(data, pos, CksumName, stored);
    }
    assert data[s..] == ToLittleEndian(c, 2) + rest;
    Pow256Widths();
    UnsignedAtEncoded(data, s, c, 2, rest);
    assert Take(data, 0, s) == covered;
  }

  // ----- the decoder over the shared file handle -----

  /**
   * `CksumParserV1.parse` and `CksumParserV2.parse`: seek to the block, check any
   * prefix, read the stored value, then go back to the start and feed the covered
   * bytes to the CRC register.
   */
  method ParseCksum(p: BlockParser, v: Version) returns (r: Result<Cksum>)
    modifies p.fh
    ensures r == CksumAt(p.fh.data, p.startPosition, v)
    ensures r.Ok? ==> p.fh.pos == StoredAt(p.startPosition, v)
  {
    p.Seek();
    var fh := p.fh;
    if v == V2 {
      var start :- ExpectBlockName(fh, CksumName);
    }
    var fileCs :- ParseUShort(fh);
    fh.Seek(0);
    var covered := fh.Read(StoredAt(p.startPosition, v));
    var crc := ComputeCrc(covered);
    var computed := RegisterValue(crc);
    r := Ok(Cksum(fileCs, computed, fileCs == computed));
  }
}
