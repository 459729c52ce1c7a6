/**
 * The Map block, the directory of a SOR file. Its header is a u16 version in
 * hundredths, the u32 byte length of the Map block itself, and a u16 count of
 * blocks that includes the Map block; then one entry per other block: its name,
 * a u16 version and a u32 size. Blocks are stored one after another in directory
 * order starting right after the Map block, so each entry's absolute position is
 * the header length plus the sizes of the entries before it.
 */
module MapBlockDecoder {
  import opened SorTypes
  import opened FileHandles
  import opened TypeParser
  import opened Rendering
  import opened BlockData
  import opened AbstractParser

  /** `range(total - 1)`: the number of entries read for a stored block count. */
  function EntryCount(total: nat): (n: nat)
    ensures total <= 1 ==> n == 0
    ensures total >= 1 ==> n == total - 1
  {
    if total >= 1 then total - 1 else 0
  }

  /** One directory entry at `pos`, given its index and the position its block starts at. */
  function EntryAt(data: Bytes, pos: nat, order: nat, position: nat): (r: Result<Parsed<Block>>)
  {
    var name := StringAt(data, pos);
    if name.Err? then Err(name.error) else
    var version := UnsignedAt(data, name.value.next, 2);
    if version.Err? then Err(version.error) else
    var size := UnsignedAt(data, version.value.next, 4);
    if size.Err? then Err(size.error) else
    Ok(Parsed(Block(name.value.value, order, position, size.value.value, version.value.value), size.value.next))
  }

  /** Entries from index `from` on carry their index as `order`. */
  predicate Numbered(bs: seq<Block>, from: nat) {
    forall j | from <= j < |bs| :: bs[j].order == j
  }

  /** From index `from` on, each block starts where the one before it ends. */
  predicate Chained(bs: seq<Block>, from: nat) {
    forall j | from <= j < |bs| - 1 :: bs[j + 1].position == bs[j].position + bs[j].size
  }

  /** `n` more entries after the entries `acc` already read; the next block starts at `position`. */
  function BlocksFrom(data: Bytes, pos: nat, n: nat, position: nat, acc: seq<Block>): (r: Result<Parsed<seq<Block>>>)
    decreases n
    ensures r.Err? ==> r.error == Truncated
    ensures r.Ok? ==> |r.value.value| == |acc| + n && r.value.value[..|acc|] == acc
  {
    if n == 0 then Ok(Parsed(acc, pos))
    else
      var e := EntryAt(data, pos, |acc|, position);
      if e.Err? then Err(e.error)
      else BlocksFrom(data, e.value.next, n - 1, position + e.value.value.size, acc + [e.value.value])
  }

  /**
   * The entries read after `acc` are numbered by their index, the first starts at
   * `position`, and each later one starts where the previous one ends.
   */
  lemma {:induction false} BlocksFromShape(data: Bytes, pos: nat, n: nat, position: nat, acc: seq<Block>)
    requires BlocksFrom(data, pos, n, position, acc).Ok?
    ensures var bs := BlocksFrom(data, pos, n, position, acc).value.value;
      Numbered(bs, |acc|) && Chained(bs, |acc|) && (n > 0 ==> bs[|acc|].position == position)
    decreases n
  {
    if n > 0 {
      var e := EntryAt(data, pos, |acc|, position).value;
      var acc' := acc + [e.value];
      BlocksFromShape(data, e.next, n - 1, position + e.value.size, acc');
      var bs := BlocksFrom(data, pos, n, position, acc).value.value;
      assert bs[..|acc'|] == acc';
      assert bs[|acc|] == e.value;
      if n > 1 {
        assert bs[|acc'|].position == position + e.value.size;
      }
    }
  }

  /** `MapBlockParser.parse` after its seek: the directory stored at `pos`. */
  function MapBlockAt(data: Bytes, pos: nat): (r: Result<Parsed<MapBlock>>)
    ensures r.Err? ==> r.error == Truncated
  {
    var version := UnsignedAt(data, pos, 2);
    if version.Err? then Err(version.error) else
    var nbytes := UnsignedAt(data, version.value.next, 4);
    if nbytes.Err? then Err(nbytes.error) else
    var total := UnsignedAt(data, nbytes.value.next, 2);
    if total.Err? then Err(total.error) else
    var entries := BlocksFrom(data, total.value.next, EntryCount(total.value.value), nbytes.value.value, []);
    if entries.Err? then Err(entries.error) else
    Ok(Parsed(MapBlock(entries.value.value, version.value.value, nbytes.value.value), entries.value.next))
  }

  /**
   * A decoded directory has the header's version and length, one entry fewer
   * than the stored block count, entries numbered 0, 1, ..., the first starting
   * right after the Map block and each later one where the previous one ends.
   */
  lemma MapBlockAtShape(data: Bytes, pos: nat)
    requires MapBlockAt(data, pos).Ok?
    ensures pos + 8 <= |data|
    ensures var m := MapBlockAt(data, pos).value.value;
      m.version == UnsignedAt(data, pos, 2).value.value &&
      m.size == UnsignedAt(data, pos + 2, 4).value.value &&
      |m.blocks| == EntryCount(UnsignedAt(data, pos + 6, 2).value.value) &&
      Numbered(m.blocks, 0) && Chained(m.blocks, 0) &&
      (|m.blocks| > 0 ==> m.blocks[0].position == m.size)
  {
    var total := UnsignedAt(data, pos + 6, 2).value.value;
    BlocksFromShape(data, pos + 8, EntryCount(total), UnsignedAt(data, pos + 2, 4).value.value, []);
  }

  // ----- positions are running sums -----

  function SumSizes(bs: seq<Block>): nat {
    if bs == [] then 0 else SumSizes(bs[..|bs| - 1]) + bs[|bs| - 1].size
  }

  lemma {:induction false} PositionsFrom(m: MapBlock, j: nat)
    requires |m.blocks| > 0 ==> m.blocks[0].position == m.size
    requires Chained(m.blocks, 0)
    requires j < |m.blocks|
    ensures m.blocks[j].position == m.size + SumSizes(m.blocks[..j])
  {
    if j > 0 {
      PositionsFrom(m, j - 1);
      assert m.blocks[j].position == m.blocks[j - 1].position + m.blocks[j - 1].size;
      assert m.blocks[..j][..j - 1] == m.blocks[..j - 1];
    }
  }

  /** Every block's position is the header length plus the sizes of all blocks listed before it. */
  lemma MapPositionsAreRunningSums(data: Bytes, pos: nat)
    requires MapBlockAt(data, pos).Ok?
    ensures var m := MapBlockAt(data, pos).value.value;
      forall j | 0 <= j < |m.blocks| :: m.blocks[j].position == m.size + SumSizes(m.blocks[..j])
  {
    var m := MapBlockAt(data, pos).value.value;
    MapBlockAtShape(data, pos);
    forall j | 0 <= j < |m.blocks|
      ensures m.blocks[j].position == m.size + SumSizes(m.blocks[..j])
    {
      PositionsFrom(m, j);
    }
  }

  // ----- the writer's side -----
  //
  // The lemmas below take the positions and counts of the next step as parameters,
  // tied to their values by `requires`, so that the reads of one step and those of
  // the next name the same terms.

  /** What a writer stores for one directory entry: name, raw version and size. */
  datatype EntrySpec = EntrySpec(name: Bytes, version: nat, size: nat)

  predicate Storable(e: EntrySpec) {
    NoZero(e.name) && e.version < 0x1_0000 && e.size < 0x1_0000_0000
  }

  /** One entry as stored: the name, its terminator, the u16 version and the u32 size. */
  function EncodeEntry(e: EntrySpec): Bytes {
    e.name + ([0] + (ToLittleEndian(e.version, 2) + ToLittleEndian(e.size, 4)))
  }

  function EncodeMapHeader(version: nat, nbytes: nat, count: nat): Bytes {
    ToLittleEndian(version, 2) + (ToLittleEndian(nbytes, 4) + ToLittleEndian(count, 2))
  }

  /** An entry is read back field for field, in the order name, version, size, and takes |name| + 7 bytes. */
  lemma EntryAtEncoded(data: Bytes, pos: nat, e: EntrySpec, order: nat, position: nat, rest: Bytes)
    requires Storable(e) && pos <= |data| && data[pos..] == EncodeEntry(e) + rest
    ensures EntryAt(data, pos, order, position) ==
      Ok(Parsed(Block(e.name, order, position, e.size, e.version), pos + |e.name| + 7))
    ensures data[pos + |e.name| + 7..] == rest
  {
    Pow256Widths();
    var v, z := ToLittleEndian(e.version, 2), ToLittleEndian(e.size, 4);
    assert EncodeEntry(e) + rest == e.name + [0] + (v + (z + rest));
    StringAtEncoded(data, pos, e.name, v + (z + rest));
    UnsignedAtEncoded(data, pos + |e.name| + 1, e.version, 2, z + rest);
    UnsignedAtEncoded(data, pos + |e.name| + 3, e.size, 4, rest);
  }

  /** The header is read back as u16 version, u32 header length, u16 block count, in that order. */
  lemma MapHeaderEncoded(data: Bytes, pos: nat, version: nat, nbytes: nat, count: nat, tail: Bytes, p2: nat, p6: nat, p8: nat)
    requires version < 0x1_0000 && nbytes < 0x1_0000_0000 && count < 0x1_0000
    requires pos <= |data| && data[pos..] == EncodeMapHeader(version, nbytes, count) + tail
    requires p2 == pos + 2 && p6 == pos + 6 && p8 == pos + 8
    ensures UnsignedAt(data, pos, 2) == Ok(Parsed(version, p2))
    ensures UnsignedAt(data, p2, 4) == Ok(Parsed(nbytes, p6))
    ensures UnsignedAt(data, p6, 2) == Ok(Parsed(count, p8))
    ensures data[p8..] == tail
  {
    Pow256Widths();
    var v, z, c := ToLittleEndian(version, 2), ToLittleEndian(nbytes, 4), ToLittleEndian(count, 2);
    assert EncodeMapHeader(version, nbytes, count) + tail == v + (z + (c + tail));
    UnsignedAtEncoded(data, pos, version, 2, z + (c + tail));
    UnsignedAtEncoded(data, pos + 2, nbytes, 4, c + tail);
    UnsignedAtEncoded(data, pos + 6, count, 2, tail);
  }

  function EncodeEntries(es: seq<EntrySpec>): Bytes {
    if es == [] then [] else EncodeEntry(es[0]) + EncodeEntries(es[1..])
  }

  /** A whole Map block as a writer lays it out; the count includes the Map block. */
  function EncodeMapBlock(version: nat, nbytes: nat, es: seq<EntrySpec>): Bytes {
    EncodeMapHeader(version, nbytes, |es| + 1) + EncodeEntries(es)
  }

  /** The directory a reader should see for entries `es`, numbered from `order`, the first at `position`. */
  function Directory(es: seq<EntrySpec>, order: nat, position: nat): (bs: seq<Block>)
    ensures |bs| == |es|
  {
    if es == [] then []
    else [Block(es[0].name, order, position, es[0].size, es[0].version)] + Directory(es[1..], order + 1, position + es[0].size)
  }

  /** Reading one more entry extends the directory read so far by that entry. */
  lemma DirectoryCons(acc: seq<Block>, es: seq<EntrySpec>, order: nat, position: nat,
                      b: Block, acc': seq<Block>, es': seq<EntrySpec>, order': nat, next: nat)
    requires es != [] && b == Block(es[0].name, order, position, es[0].size, es[0].version)
    requires acc' == acc + [b] && es' == es[1..] && order' == order + 1 && next == position + es[0].size
    ensures acc' + Directory(es', order', next) == acc + Directory(es, order, position)
  {
    Associate(acc, [b], Directory(es', order', next));
  }

  /** One stored entry is read as the next directory entry. */
  lemma BlocksFromEncodedStep(data: Bytes, pos: nat, n: nat, e: EntrySpec, position: nat, acc: seq<Block>, rest: Bytes,
                              b: Block, after: nat, m: nat, next: nat, acc': seq<Block>)
    requires n > 0 && Storable(e) && pos <= |data| && data[pos..] == EncodeEntry(e) + rest
    requires b == Block(e.name, |acc|, position, e.size, e.version)
    requires after == pos + |e.name| + 7 && m == n - 1 && next == position + e.size && acc' == acc + [b]
    ensures BlocksFrom(data, pos, n, position, acc) == BlocksFrom(data, after, m, next, acc')
    ensures data[after..] == rest
  {
    EntryAtEncoded(data, pos, e, |acc|, position, rest);
    BlocksFromStep(data, pos, n, position, acc, b, after);
  }

  /**
   * Entries laid out one after another are read back in order, numbered on from
   * `order`, each placed right after the one before; the cursor ends where `rest` begins.
   */
  lemma {:induction false} BlocksFromEncoded(data: Bytes, pos: nat, n: nat, es: seq<EntrySpec>, position: nat, acc: seq<Block>, order: nat, rest: Bytes)
    requires n == |es| && order == |acc| && forall k | 0 <= k < |es| :: Storable(es[k])
    requires pos <= |data| && data[pos..] == EncodeEntries(es) + rest
    ensures BlocksFrom(data, pos, n, position, acc) == Ok(Parsed(acc + Directory(es, order, position), |data| - |rest|))
    decreases n
  {
    if n > 0 {
      var e, es', tail := es[0], es[1..], EncodeEntries(es[1..]);
      var b := Block(e.name, order, position, e.size, e.version);
      var after, m, next, acc', order' := pos + |e.name| + 7, n - 1, position + e.size, acc + [b], order + 1;
      SuffixAssociate(data, pos, EncodeEntry(e), tail, rest);
      BlocksFromEncodedStep(data, pos, n, e, position, acc, tail + rest, b, after, m, next, acc');
      BlocksFromEncoded(data, after, m, es', next, acc', order', rest);
      DirectoryCons(acc, es, order, position, b, acc', es', order', next);
    } else {
      assert |data[pos..]| == |rest|;
      assert acc + Directory(es, order, position) == acc;
    }
  }

  /** The entries laid out by a writer are read back as the directory they describe. */
  lemma EntriesEncoded(data: Bytes, pos: nat, n: nat, es: seq<EntrySpec>, position: nat, rest: Bytes, bs: seq<Block>, end: nat)
    requires n == |es| && forall k | 0 <= k < |es| :: Storable(es[k])
    requires pos <= |data| && data[pos..] == EncodeEntries(es) + rest
    requires bs == Directory(es, 0, position) && end == |data| - |rest|
    ensures BlocksFrom(data, pos, n, position, []) == Ok(Parsed(bs, end))
  {
    BlocksFromEncoded(data, pos, n, es, position, [], 0, rest);
    assert [] + bs == bs;
  }

  /** MapBlockAt in terms of its four reads. */
  lemma MapBlockAtParts(data: Bytes, pos: nat, version: nat, p2: nat, nbytes: nat, p6: nat, count: nat, p8: nat, n: nat, bs: seq<Block>, end: nat)
    requires UnsignedAt(data, pos, 2) == Ok(Parsed(version, p2))
    requires UnsignedAt(data, p2, 4) == Ok(Parsed(nbytes, p6))
    requires UnsignedAt(data, p6, 2) == Ok(Parsed(count, p8))
    requires n == EntryCount(count) && BlocksFrom(data, p8, n, nbytes, []) == Ok(Parsed(bs, end))
    ensures MapBlockAt(data, pos) == Ok(Parsed(MapBlock(bs, version, nbytes), end))
  {
  }

  /** A Map block laid out by a writer is read back as exactly the directory it describes. */
  lemma MapBlockAtEncoded(data: Bytes, pos: nat, version: nat, nbytes: nat, es: seq<EntrySpec>, rest: Bytes)
    requires version < 0x1_0000 && nbytes < 0x1_0000_0000 && |es| + 1 < 0x1_0000
    requires forall k | 0 <= k < |es| :: Storable(es[k])
    requires pos <= |data| && data[pos..] == EncodeMapBlock(version, nbytes, es) + rest
    ensures MapBlockAt(data, pos) == Ok(Parsed(MapBlock(Directory(es, 0, nbytes), version, nbytes), |data| - |rest|))
  {
    var count, n := |es| + 1, |es|;
    var p2, p6, p8, end := pos + 2, pos + 6, pos + 8, |data| - |rest|;
    var bs := Directory(es, 0, nbytes);
    MapBlockEncodedReads(data, pos, version, nbytes, es, rest, count, n, p2, p6, p8, bs, end);
    MapBlockAtParts(data, pos, version, p2, nbytes, p6, count, p8, n, bs, end);
  }

  /** The four reads MapBlockAt makes on an encoded Map block, and what each gives. */
  lemma MapBlockEncodedReads(data: Bytes, pos: nat, version: nat, nbytes: nat, es: seq<EntrySpec>, rest: Bytes,
                             count: nat, n: nat, p2: nat, p6: nat, p8: nat, bs: seq<Block>, end: nat)
    requires version < 0x1_0000 && nbytes < 0x1_0000_0000 && |es| + 1 < 0x1_0000
    requires forall k | 0 <= k < |es| :: Storable(es[k])
    requires pos <= |data| && data[pos..] == EncodeMapBlock(version, nbytes, es) + rest
    requires count == |es| + 1 && n == |es| && p2 == pos + 2 && p6 == pos + 6 && p8 == pos + 8
    requires bs == Directory(es, 0, nbytes) && end == |data| - |rest|
    ensures UnsignedAt(data, pos, 2) == Ok(Parsed(version, p2))
    ensures UnsignedAt(data, p2, 4) == Ok(Parsed(nbytes, p6))
    ensures UnsignedAt(data, p6, 2) == Ok(Parsed(count, p8))
    ensures n == EntryCount(count) && BlocksFrom(data, p8, n, nbytes, []) == Ok(Parsed(bs, end))
  {
    var header, body := EncodeMapHeader(version, nbytes, count), EncodeEntries(es);
    SuffixAssociate(data, pos, header, body, rest);
    MapHeaderEncoded(data, pos, version, nbytes, count, body + rest, p2, p6, p8);
    EntriesEncoded(data, p8, n, es, nbytes, rest, bs, end);
  }

  /** A stored count of 0 or 1 gives an empty directory right after the 8 header bytes. */
  lemma EmptyDirectory(data: Bytes, pos: nat)
    requires pos + 8 <= |data| && UnsignedAt(data, pos + 6, 2).value.value <= 1
    ensures MapBlockAt(data, pos).Ok?
    ensures MapBlockAt(data, pos).value.value.blocks == []
    ensures MapBlockAt(data, pos).value.next == pos + 8
  {
  }

  // ----- the shared read loop -----

  /** One step of the entry loop: a successful entry read is appended, numbered by its index. */
  lemma BlocksFromStep(data: Bytes, pos: nat, n: nat, position: nat, acc: seq<Block>, b: Block, after: nat)
    requires n > 0 && EntryAt(data, pos, |acc|, position) == Ok(Parsed(b, after))
    ensures BlocksFrom(data, pos, n, position, acc) == BlocksFrom(data, after, n - 1, position + b.size, acc + [b])
  {
  }

  /** A failed entry read fails the whole directory with the same error. */
  lemma BlocksFromStop(data: Bytes, pos: nat, n: nat, position: nat, acc: seq<Block>)
    requires n > 0 && EntryAt(data, pos, |acc|, position).Err?
    ensures BlocksFrom(data, pos, n, position, acc) == Err(EntryAt(data, pos, |acc|, position).error)
  {
  }

  method ReadEntry(fh: FileHandle, order: nat, position: nat) returns (r: Result<Block>)
    modifies fh
    ensures r == ValueOf(EntryAt(fh.data, old(fh.pos), order, position))
    ensures r.Ok? ==> fh.pos == EntryAt(fh.data, old(fh.pos), order, position).value.next
  {
    var name :- ParseString(fh);
    var version :- ParseUShort(fh);
    var size :- ParseUint(fh);
    r := Ok(Block(name, order, position, size, version));
  }

  /** The `for` loop: `n` entries, the first starting at `position`, from wherever the cursor is. */
  method ReadEntries(fh: FileHandle, n: nat, position: nat) returns (r: Result<seq<Block>>)
    modifies fh
    ensures r == ValueOf(BlocksFrom(fh.data, old(fh.pos), n, position, []))
    ensures r.Ok? ==> fh.pos == BlocksFrom(fh.data, old(fh.pos), n, position, []).value.next
  {
    var blocks: seq<Block> := [];
    var next: nat := position;
    var i, left := 0, n;
    while left > 0
      invariant |blocks| == i && i + left == n
      invariant BlocksFrom(fh.data, old(fh.pos), n, position, []) == BlocksFrom(fh.data, fh.pos, left, next, blocks)
    {
      ghost var here := fh.pos;
      var block := ReadEntry(fh, i, next);
      if block.Err? {
        BlocksFromStop(fh.data, here, left, next, blocks);
        return Err(block.error);
      }
      BlocksFromStep(fh.data, here, left, next, blocks, block.value, fh.pos);
      blocks := blocks + [block.value];
      next := next + block.value.size;
      i, left := i + 1, left - 1;
    }
    r := Ok(blocks);
  }

  /**
   * The body of both `MapBlockParser.parse` variants: reads the header and then
   * the entries from wherever the cursor is.
   */
  method ReadMapBlock(fh: FileHandle) returns (r: Result<MapBlock>)
    modifies fh
    ensures r == ValueOf(MapBlockAt(fh.data, old(fh.pos)))
    ensures r.Ok? ==> fh.pos == MapBlockAt(fh.data, old(fh.pos)).value.next
  {
    var version :- ParseUShort(fh);
    var nbytes :- ParseUint(fh);
    var total :- ParseUShort(fh);
    var blocks :- ReadEntries(fh, EntryCount(total), nbytes);
    r := Ok(MapBlock(blocks, version, nbytes));
  }

  /** `MapBlockParser.parse` of the block parser package: seek to the block, then read it. */
  method ParseMapBlock(p: BlockParser) returns (r: Result<MapBlock>)
    modifies p.fh
    ensures r == ValueOf(MapBlockAt(p.fh.data, p.startPosition))
  {
    p.Seek();
    r := ReadMapBlock(p.fh);
  }
}
