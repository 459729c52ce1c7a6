/**
 * The block parser object every decoder is built on: it records the file handle
 * and the absolute offset of its block, and decoding starts by seeking there.
 * The block parsers of the SOR reader differ only in their `parse` method; here
 * that is the `kind` of the parser, which the reader dispatches on.
 */
module AbstractParser {
  import opened SorTypes
  import opened FileHandles
  import opened TypeParser

  /** Which `parse` a block parser runs. `Stub` is a parser whose `parse` decodes nothing. */
  datatype DecoderKind =
    | MapBlockDecoder
    | GenParamsV1 | GenParamsV2
    | SupParamsV1 | SupParamsV2
    | KeyEventsV1 | KeyEventsV2
    | DataPtsV1 | DataPtsV2
    | CksumV1 | CksumV2
    | Stub

  class BlockParser {
    const fh: FileHandle
    const kind: DecoderKind
    const startPosition: nat

    /** Records where the block starts (0 unless given); the cursor is not moved. */
    constructor (fh: FileHandle, kind: DecoderKind, startPosition: nat := 0)
      ensures this.fh == fh && this.kind == kind && this.startPosition == startPosition
      ensures fh.pos == old(fh.pos)
    {
      this.fh := fh;
      this.kind := kind;
      this.startPosition := startPosition;
    }

    /** The shared first step of `parse`: put the cursor at the block's offset. */
    method Seek()
      modifies fh
      ensures fh.pos == startPosition
    {
      fh.Seek(startPosition);
    }
  }

  // ----- the self-description prefix of version 2 blocks -----

  const GenParamsName: Bytes := [0x47, 0x65, 0x6E, 0x50, 0x61, 0x72, 0x61, 0x6D, 0x73]  // "GenParams"
  const SupParamsName: Bytes := [0x53, 0x75, 0x70, 0x50, 0x61, 0x72, 0x61, 0x6D, 0x73]  // "SupParams"
  const KeyEventsName: Bytes := [0x4B, 0x65, 0x79, 0x45, 0x76, 0x65, 0x6E, 0x74, 0x73]  // "KeyEvents"
  const DataPtsName: Bytes := [0x44, 0x61, 0x74, 0x61, 0x50, 0x74, 0x73]                // "DataPts"
  const CksumName: Bytes := [0x43, 0x6B, 0x73, 0x75, 0x6D]                              // "Cksum"

  /**
   * A version 2 block starts with its own name and a 0x00. The check reads
   * `|name| + 1` bytes, however many are left, and fails unless they are exactly
   * that prefix; on success it gives the position after the prefix.
   */
  function BlockNameAt(data: Bytes, pos: nat, name: Bytes): (r: Result<nat>)
    ensures r.Ok? <==> pos + |name| + 1 <= |data| && data[pos..pos + |name| + 1] == name + [0]
    ensures r.Ok? ==> r.value == pos + |name| + 1
    ensures r.Err? ==> r.error == BlockNameMismatch(name + [0], Take(data, pos, |name| + 1))
  {
    var found := Take(data, pos, |name| + 1);
    if found == name + [0] then Ok(pos + |name| + 1) else Err(BlockNameMismatch(name + [0], found))
  }

  /** A block written with its prefix passes the check. */
  lemma BlockNameAtEncoded(data: Bytes, pos: nat, name: Bytes, rest: Bytes)
    requires pos <= |data| && data[pos..] == name + [0] + rest
    ensures BlockNameAt(data, pos, name) == Ok(pos + |name| + 1)
    ensures data[pos + |name| + 1..] == rest
  {
    assert data[pos..pos + |name| + 1] == data[pos..][..|name| + 1];
    assert data[pos + |name| + 1..] == data[pos..][|name| + 1..];
  }

  /** The prefix stored as the first field of a layout passes the check. */
  lemma BlockNameFirst(data: Bytes, pos: nat, fs: seq<Field>, name: Bytes, rest: Bytes) returns (next: nat)
    requires fs != [] && fs[0] == Raw(name + [0])
    requires pos <= |data| && data[pos..] == EncodeFields(fs) + rest
    ensures next <= |data| && BlockNameAt(data, pos, name) == Ok(next)
    ensures data[next..] == EncodeFields(fs[1..]) + rest
  {
    next := RawFirst(data, pos, fs, |name| + 1, rest);
  }

  method ExpectBlockName(fh: FileHandle, name: Bytes) returns (r: Result<nat>)
    modifies fh
    ensures r == BlockNameAt(fh.data, old(fh.pos), name)
    ensures fh.pos == After(fh.data, old(fh.pos), |name| + 1)
  {
    var found := fh.Read(|name| + 1);
    if found != name + [0] {
      return Err(BlockNameMismatch(name + [0], found));
    }
    r := Ok(fh.pos);
  }
}
