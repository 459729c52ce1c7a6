/**
 * The block parsers the file parser is wired to. Unlike the parsers of the block
 * parser package, these move the cursor when they are built, and `parse` then
 * reads from wherever the cursor is. Only the map block parser decodes anything;
 * the parsers for the other blocks are stubs whose `parse` returns nothing.
 */
module EagerParsers {
  import opened SorTypes
  import opened FileHandles
  import opened BlockData
  import opened MapBlockDecoder

  /** Which `parse` an eager parser runs: the map block's, or a stub's. */
  datatype EagerKind = MapBlockReader | StubReader

  /** The map block as a block result, or the error that stopped it. */
  function MapResultAt(data: Bytes, pos: nat): Result<BlockResult> {
    var m := MapBlockAt(data, pos);
    if m.Err? then Err(m.error) else Ok(MapResult(m.value.value))
  }

  class EagerParser {
    const fh: FileHandle
    const kind: EagerKind
    const startPosition: nat

    /** Records the block's offset (0 unless given) and seeks there at once. */
    constructor (fh: FileHandle, kind: EagerKind, startPosition: nat := 0)
      modifies fh
      ensures this.fh == fh && this.kind == kind && this.startPosition == startPosition
      ensures fh.pos == startPosition
    {
      this.fh := fh;
      this.kind := kind;
      this.startPosition := startPosition;
      fh.Seek(startPosition);
    }

    /**
     * The map block parser decodes the directory at the cursor as it is now, with
     * no seek of its own; a stub decodes nothing and leaves the cursor alone.
     */
    method Parse() returns (r: Result<BlockResult>)
      modifies fh
      ensures kind == MapBlockReader ==> r == MapResultAt(fh.data, old(fh.pos))
      ensures kind == MapBlockReader && r.Ok? ==> fh.pos == MapBlockAt(fh.data, old(fh.pos)).value.next
      ensures kind == StubReader ==> r == Ok(NotDecoded) && fh.pos == old(fh.pos)
    {
      if kind == StubReader {
        return Ok(NotDecoded);
      }
      var m :- ReadMapBlock(fh);
      r := Ok(MapResult(m));
    }
  }

  /**
   * Building the map block parser at `start` and parsing at once, as the file
   * parser does, decodes the directory at `start`: the same record the package's
   * map block parser gives for that offset.
   */
  method ReadMapAt(fh: FileHandle, start: nat) returns (r: Result<MapBlock>)
    modifies fh
    ensures r == ValueOf(MapBlockAt(fh.data, start))
    ensures r.Ok? ==> fh.pos == MapBlockAt(fh.data, start).value.next
  {
    var parser := new EagerParser(fh, MapBlockReader, start);
    var res :- parser.Parse();
    return Ok(res.mapBlock);
  }

  /** A stub built at any offset leaves the cursor at that offset and returns nothing. */
  method RunStub(fh: FileHandle, start: nat) returns (r: Result<BlockResult>)
    modifies fh
    ensures r == Ok(NotDecoded) && fh.pos == start
  {
    var parser := new EagerParser(fh, StubReader, start);
    r := parser.Parse();
  }
}
