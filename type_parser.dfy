/**
 * The field readers: NUL-terminated byte strings and little-endian integers of
 * 2, 4 and 8 bytes, unsigned and two's-complement signed.
 *
 * Each reader is a pure function `XAt(data, pos)` giving the value and the position
 * after it, plus a method over the shared `FileHandle` that performs the reads one
 * `read` call at a time and is proved to agree with that function.
 */
module TypeParser {
  import opened SorTypes
  import opened FileHandles

  /** 256^w: the number of values a w-byte field can hold. */
  function Pow256(w: nat): (p: nat)
    ensures p >= 1
  {
    if w == 0 then 1 else 256 * Pow256(w - 1)
  }

  lemma Pow256Widths()
    ensures Pow256(2) == 0x1_0000
    ensures Pow256(4) == 0x1_0000_0000
    ensures Pow256(8) == 0x1_0000_0000_0000_0000
  {
  }

  /** The unsigned value of `bs`, least significant byte first (struct format "<"). */
  function LittleEndian(bs: Bytes): (v: nat)
    ensures v < Pow256(|bs|)
  {
    if bs == [] then 0 else bs[0] + 256 * LittleEndian(bs[1..])
  }

  /** The `w` bytes that store `n` (mod 256^w) little-endian: the writer's side of LittleEndian. */
  function ToLittleEndian(n: nat, w: nat): (bs: Bytes)
    ensures |bs| == w
  {
    if w == 0 then [] else [n % 256] + ToLittleEndian(n / 256, w - 1)
  }

  lemma {:induction false} LittleEndianOfTo(n: nat, w: nat)
    requires n < Pow256(w)
    ensures LittleEndian(ToLittleEndian(n, w)) == n
  {
    if w > 0 {
      LittleEndianOfTo(n / 256, w - 1);
      assert ToLittleEndian(n, w)[1..] == ToLittleEndian(n / 256, w - 1);
    }
  }

  lemma {:induction false} ToLittleEndianOf(bs: Bytes)
    ensures ToLittleEndian(LittleEndian(bs), |bs|) == bs
  {
    if bs != [] {
      var v := LittleEndian(bs[1..]);
      assert (bs[0] + 256 * v) % 256 == bs[0];
      assert (bs[0] + 256 * v) / 256 == v;
      ToLittleEndianOf(bs[1..]);
    }
  }

  /** 256^w is even once w > 0, so its two halves are the negative and the non-negative values. */
  lemma Pow256Halves(w: nat)
    requires w > 0
    ensures Pow256(w) == 2 * (Pow256(w) / 2)
  {
    assert Pow256(w) == 256 * Pow256(w - 1);
  }

  /** Reinterprets a w-byte unsigned value as two's complement (struct formats h, i, q). */
  function ToSigned(u: nat, w: nat): (v: int)
    requires u < Pow256(w)
    ensures w > 0 ==> -(Pow256(w) / 2) <= v < Pow256(w) / 2
  {
    if w > 0 && u >= Pow256(w) / 2 then Pow256Halves(w); u - Pow256(w) else u
  }

  /** The unsigned w-byte pattern that stores the signed value `v`. */
  function FromSigned(v: int, w: nat): (u: nat)
    requires w > 0 && -(Pow256(w) / 2) <= v < Pow256(w) / 2
    ensures u < Pow256(w)
  {
    if v < 0 then v + Pow256(w) else v
  }

  lemma SignedRoundTrip(v: int, w: nat)
    requires w > 0 && -(Pow256(w) / 2) <= v < Pow256(w) / 2
    ensures ToSigned(FromSigned(v, w), w) == v
  {
    assert Pow256(w) == 256 * Pow256(w - 1);
  }

  // ----- specification of the readers -----

  /** An unsigned w-byte field at `pos`; fails exactly when fewer than w bytes remain. */
  function UnsignedAt(data: Bytes, pos: nat, w: nat): (r: Result<Parsed<nat>>)
    ensures r.Ok? <==> pos + w <= |data|
    ensures r.Err? ==> r.error == Truncated
    ensures r.Ok? ==> r.value.next == pos + w && r.value.value < Pow256(w)
  {
    if pos + w <= |data| then Ok(Parsed(LittleEndian(data[pos..pos + w]), pos + w)) else Err(Truncated)
  }

  /** A signed (two's complement) w-byte field at `pos`. */
  function SignedAt(data: Bytes, pos: nat, w: nat): (r: Result<Parsed<int>>)
    requires w > 0
    ensures r.Ok? <==> pos + w <= |data|
    ensures r.Ok? ==> r.value.next == pos + w
    ensures r.Ok? ==> -(Pow256(w) / 2) <= r.value.value < Pow256(w) / 2
  {
    var u :- UnsignedAt(data, pos, w);
    Ok(Parsed(ToSigned(u.value, w), u.next))
  }

  /** A string read from `pos` after `acc` has already been collected. */
  function StringFrom(data: Bytes, pos: nat, acc: Bytes): (r: Result<Parsed<Bytes>>)
    decreases |data| - pos
    ensures r.Err? ==> r.error == Truncated
    ensures r.Ok? ==> pos < r.value.next <= |data|
  {
    if pos >= |data| then Err(Truncated)
    else if data[pos] == 0 then Ok(Parsed(acc, pos + 1))
    else StringFrom(data, pos + 1, acc + [data[pos]])
  }

  lemma {:induction false} StringFromSpec(data: Bytes, pos: nat, acc: Bytes)
    ensures var r := StringFrom(data, pos, acc);
      && (r.Err? <==> NoZeroFrom(data, pos))
      && (r.Ok? ==>
        data[r.value.next - 1] == 0 && NoZero(data[pos..r.value.next - 1]) &&
        r.value.value == acc + data[pos..r.value.next - 1])
    decreases |data| - pos
  {
    if pos < |data| && data[pos] != 0 {
      StringFromSpec(data, pos + 1, acc + [data[pos]]);
      var r := StringFrom(data, pos + 1, acc + [data[pos]]);
      if r.Ok? {
        assert data[pos..r.value.next - 1] == [data[pos]] + data[pos + 1..r.value.next - 1];
      }
    }
  }

  /**
   * A NUL-terminated string at `pos`: the bytes before the first 0x00, which is
   * consumed but not returned. Without a 0x00 before the end of the input the read
   * fails, because the loop of `StringParser.parse` never sees an empty `bytes`
   * value as equal to the text `""` and hands the empty read to `struct.unpack`.
   */
  function StringAt(data: Bytes, pos: nat): (r: Result<Parsed<Bytes>>)
    ensures r.Err? ==> r.error == Truncated
    ensures r.Ok? ==> pos < r.value.next <= |data|
  {
    StringFrom(data, pos, [])
  }

  /** The string read ends at the first 0x00 after `pos`, and fails exactly when there is none. */
  lemma StringAtSpec(data: Bytes, pos: nat)
    ensures var r := StringAt(data, pos);
      && (r.Err? <==> NoZeroFrom(data, pos))
      && (r.Ok? ==>
        r.value.next == pos + |r.value.value| + 1 &&
        r.value.value == data[pos..r.value.next - 1] && NoZero(r.value.value) &&
        data[r.value.next - 1] == 0)
  {
    StringFromSpec(data, pos, []);
  }

  /** The number of string terminators (0x00 bytes) in `s`. */
  function ZeroCount(s: Bytes): nat {
    if s == [] then 0 else (if s[|s| - 1] == 0 then 1 else 0) + ZeroCount(s[..|s| - 1])
  }

  lemma {:induction false} ZeroCountAppend(a: Bytes, b: Bytes)
    ensures ZeroCount(a + b) == ZeroCount(a) + ZeroCount(b)
  {
    if b == [] {
      assert a + b == a;
    } else {
      assert (a + b)[..|a + b| - 1] == a + b[..|b| - 1];
      ZeroCountAppend(a, b[..|b| - 1]);
    }
  }

  lemma {:induction false} NoZeroCount(s: Bytes)
    requires NoZero(s)
    ensures ZeroCount(s) == 0
  {
    if s != [] {
      NoZeroCount(s[..|s| - 1]);
    }
  }

  /** Counting terminators over adjacent spans of the input adds up. */
  lemma ZeroCountSplit(data: Bytes, a: nat, b: nat, c: nat)
    requires a <= b <= c <= |data|
    ensures ZeroCount(data[a..c]) == ZeroCount(data[a..b]) + ZeroCount(data[b..c])
  {
    assert data[a..c] == data[a..b] + data[b..c];
    ZeroCountAppend(data[a..b], data[b..c]);
  }

  /** A string read consumes exactly one terminator, as its last byte. */
  lemma StringAtOneTerminator(data: Bytes, pos: nat)
    requires StringAt(data, pos).Ok?
    ensures var next := StringAt(data, pos).value.next;
      ZeroCount(data[pos..next]) == 1 && data[next - 1] == 0
  {
    StringAtSpec(data, pos);
    var next := StringAt(data, pos).value.next;
    assert data[pos..next] == data[pos..next - 1] + [0];
    NoZeroCount(data[pos..next - 1]);
    ZeroCountAppend(data[pos..next - 1], [0]);
  }

  /** The raw bytes of a field of `n` bytes at `pos`. */
  function RawAt(data: Bytes, pos: nat, n: nat): (r: Result<Parsed<Bytes>>)
    ensures r.Ok? <==> pos + n <= |data|
    ensures r.Ok? ==> r.value.next == pos + n && r.value.value == data[pos..pos + n]
  {
    if pos + n <= |data| then Ok(Parsed(data[pos..pos + n], pos + n)) else Err(Truncated)
  }

  // ----- the readers are inverted by the writers -----

  /** If `data[pos..]` holds `bs` then `rest`, the `|bs|` bytes after `pos` are `bs`. */
  lemma SuffixSplit(data: Bytes, pos: nat, bs: Bytes, rest: Bytes)
    requires pos <= |data| && data[pos..] == bs + rest
    ensures pos + |bs| <= |data|
    ensures data[pos..pos + |bs|] == bs && data[pos + |bs|..] == rest
  {
    assert data[pos..pos + |bs|] == data[pos..][..|bs|];
    assert data[pos + |bs|..] == data[pos..][|bs|..];
  }

  lemma SuffixAssociate(data: Bytes, pos: nat, a: Bytes, b: Bytes, rest: Bytes)
    requires pos <= |data| && data[pos..] == a + b + rest
    ensures data[pos..] == a + (b + rest)
  {
  }

  lemma UnsignedAtEncoded(data: Bytes, pos: nat, n: nat, w: nat, rest: Bytes)
    requires n < Pow256(w) && pos <= |data| && data[pos..] == ToLittleEndian(n, w) + rest
    ensures UnsignedAt(data, pos, w) == Ok(Parsed(n, pos + w))
    ensures data[pos + w..] == rest
  {
    SuffixSplit(data, pos, ToLittleEndian(n, w), rest);
    LittleEndianOfTo(n, w);
  }

  lemma SignedAtEncoded(data: Bytes, pos: nat, v: int, w: nat, rest: Bytes)
    requires w > 0 && -(Pow256(w) / 2) <= v < Pow256(w) / 2
    requires pos <= |data| && data[pos..] == ToLittleEndian(FromSigned(v, w), w) + rest
    ensures SignedAt(data, pos, w) == Ok(Parsed(v, pos + w))
    ensures data[pos + w..] == rest
  {
    UnsignedAtEncoded(data, pos, FromSigned(v, w), w, rest);
    SignedRoundTrip(v, w);
  }

  lemma RawAtEncoded(data: Bytes, pos: nat, bs: Bytes, rest: Bytes)
    requires pos <= |data| && data[pos..] == bs + rest
    ensures RawAt(data, pos, |bs|) == Ok(Parsed(bs, pos + |bs|))
    ensures data[pos + |bs|..] == rest
  {
    SuffixSplit(data, pos, bs, rest);
  }

  /** Writing `s` followed by its terminator is read back as `s`. */
  lemma StringAtEncoded(data: Bytes, pos: nat, s: Bytes, rest: Bytes)
    requires NoZero(s) && pos <= |data| && data[pos..] == s + [0] + rest
    ensures StringAt(data, pos) == Ok(Parsed(s, pos + |s| + 1))
    ensures data[pos + |s| + 1..] == rest
  {
    SuffixSplit(data, pos, s + [0], rest);
    assert data[pos + |s|] == 0;
    StringAtSpec(data, pos);
    var r := StringAt(data, pos);
    assert !NoZeroFrom(data, pos);
    assert r.value.value == data[pos..pos + |s|] == s;
  }

  // ----- field layouts: what a writer stores -----

  /** One stored field: raw bytes, a NUL-terminated string, or a w-byte integer. */
  datatype Field = Raw(bytes: Bytes) | Text(text: Bytes) | Unsigned(n: nat, w: nat) | Signed(v: int, w: nat)

  /** A w-byte signed field can hold `v`. */
  predicate FitsSigned(v: int, w: nat) {
    w > 0 && -(Pow256(w) / 2) <= v < Pow256(w) / 2
  }

  /**
   * The bytes a writer stores for a field: a signed value in its two's complement
   * pattern (a value the width cannot hold is not stored at all).
   */
  function FieldBytes(f: Field): Bytes {
    match f
    case Raw(bs) => bs
    case Text(s) => s + [0]
    case Unsigned(n, w) => ToLittleEndian(n, w)
    case Signed(v, w) => if FitsSigned(v, w) then ToLittleEndian(FromSigned(v, w), w) else []
  }

  /** A layout is stored field after field, with nothing in between. */
  function EncodeFields(fs: seq<Field>): Bytes {
    if fs == [] then [] else FieldBytes(fs[0]) + EncodeFields(fs[1..])
  }

  lemma {:induction false} EncodeFieldsAppend(a: seq<Field>, b: seq<Field>)
    ensures EncodeFields(a + b) == EncodeFields(a) + EncodeFields(b)
  {
    if a == [] {
      assert a + b == b;
    } else {
      assert (a + b)[0] == a[0] && (a + b)[1..] == a[1..] + b;
      EncodeFieldsAppend(a[1..], b);
      Associate(FieldBytes(a[0]), EncodeFields(a[1..]), EncodeFields(b));
    }
  }

  // Reading the first field of a stored layout gives that field, and leaves the
  // cursor where the encoding of the remaining fields begins.

  /** Splits off the first field of a stored layout. */
  lemma FieldsFirst(data: Bytes, pos: nat, fs: seq<Field>, rest: Bytes)
    requires fs != [] && pos <= |data| && data[pos..] == EncodeFields(fs) + rest
    ensures data[pos..] == FieldBytes(fs[0]) + (EncodeFields(fs[1..]) + rest)
  {
  }

  lemma TextFirst(data: Bytes, pos: nat, fs: seq<Field>, rest: Bytes) returns (next: nat)
    requires fs != [] && fs[0].Text? && NoZero(fs[0].text)
    requires pos <= |data| && data[pos..] == EncodeFields(fs) + rest
    ensures next <= |data| && StringAt(data, pos) == Ok(Parsed(fs[0].text, next))
    ensures data[next..] == EncodeFields(fs[1..]) + rest
  {
    FieldsFirst(data, pos, fs, rest);
    StringAtEncoded(data, pos, fs[0].text, EncodeFields(fs[1..]) + rest);
    next := pos + |fs[0].text| + 1;
  }

  lemma RawFirst(data: Bytes, pos: nat, fs: seq<Field>, n: nat, rest: Bytes) returns (next: nat)
    requires fs != [] && fs[0].Raw? && |fs[0].bytes| == n
    requires pos <= |data| && data[pos..] == EncodeFields(fs) + rest
    ensures next <= |data| && Take(data, pos, n) == fs[0].bytes && After(data, pos, n) == next
    ensures data[next..] == EncodeFields(fs[1..]) + rest
  {
    FieldsFirst(data, pos, fs, rest);
    SuffixSplit(data, pos, fs[0].bytes, EncodeFields(fs[1..]) + rest);
    next := pos + n;
  }

  lemma UnsignedFirst(data: Bytes, pos: nat, fs: seq<Field>, w: nat, rest: Bytes) returns (next: nat)
    requires fs != [] && fs[0].Unsigned? && fs[0].w == w && fs[0].n < Pow256(w)
    requires pos <= |data| && data[pos..] == EncodeFields(fs) + rest
    ensures next <= |data| && UnsignedAt(data, pos, w) == Ok(Parsed(fs[0].n, next))
    ensures data[next..] == EncodeFields(fs[1..]) + rest
  {
    FieldsFirst(data, pos, fs, rest);
    UnsignedAtEncoded(data, pos, fs[0].n, w, EncodeFields(fs[1..]) + rest);
    next := pos + w;
  }

  lemma SignedFirst(data: Bytes, pos: nat, fs: seq<Field>, w: nat, rest: Bytes) returns (next: nat)
    requires fs != [] && fs[0].Signed? && fs[0].w == w && FitsSigned(fs[0].v, w)
    requires pos <= |data| && data[pos..] == EncodeFields(fs) + rest
    ensures next <= |data| && SignedAt(data, pos, w) == Ok(Parsed(fs[0].v, next))
    ensures data[next..] == EncodeFields(fs[1..]) + rest
  {
    FieldsFirst(data, pos, fs, rest);
    SignedAtEncoded(data, pos, fs[0].v, w, EncodeFields(fs[1..]) + rest);
    next := pos + w;
  }

  /** Once every field is read, what is left is `rest`, and the cursor is where it begins. */
  lemma FieldsDone(data: Bytes, next: nat, fs: seq<Field>, rest: Bytes)
    requires fs == [] && next <= |data| && data[next..] == EncodeFields(fs) + rest
    ensures data[next..] == rest && next == |data| - |rest|
  {
    assert EncodeFields(fs) + rest == rest;
  }

  /** The two-byte unsigned field, written out: low byte first. */
  lemma UShortValue(data: Bytes, pos: nat)
    requires pos + 2 <= |data|
    ensures UnsignedAt(data, pos, 2).value.value == data[pos] as int + 256 * data[pos + 1] as int
  {
    var bs := data[pos..pos + 2];
    assert LittleEndian(bs[1..]) == bs[1] + 256 * LittleEndian(bs[1..][1..]);
    assert bs[1..][1..] == [];
  }

  // ----- a counted run of reads -----

  /** `n` more items read one after another by `parse` from `pos`, after the items `acc`, in file order. */
  function Repeat<T>(parse: nat -> Result<Parsed<T>>, pos: nat, n: nat, acc: seq<T>): (r: Result<Parsed<seq<T>>>)
    decreases n
    ensures r.Ok? ==> |r.value.value| == |acc| + n && r.value.value[..|acc|] == acc
    ensures r.Err? ==> exists p: nat :: parse(p).Err? && parse(p).error == r.error
  {
    if n == 0 then Ok(Parsed(acc, pos))
    else
      var e := parse(pos);
      if e.Err? then Err(e.error)
      else Repeat(parse, e.value.next, n - 1, acc + [e.value.value])
  }

  /** A successful read moves on to the next item. */
  lemma RepeatStep<T>(parse: nat -> Result<Parsed<T>>, pos: nat, n: nat, acc: seq<T>, e: T, after: nat, left: nat, acc': seq<T>)
    requires n == left + 1 && acc' == acc + [e] && parse(pos) == Ok(Parsed(e, after))
    ensures Repeat(parse, pos, n, acc) == Repeat(parse, after, left, acc')
  {
  }

  /** Item `i` is read at `ends[i]`, and the read stops where item `i + 1` starts. */
  ghost predicate Chained<T>(parse: nat -> Result<Parsed<T>>, ends: seq<nat>, items: seq<T>) {
    |ends| == |items| + 1 && forall i | 0 <= i < |items| :: parse(ends[i]) == Ok(Parsed(items[i], ends[i + 1]))
  }

  lemma ChainedCons<T>(parse: nat -> Result<Parsed<T>>, pos: nat, item: T, ends: seq<nat>, items: seq<T>)
    requires Chained(parse, ends, items) && parse(pos) == Ok(Parsed(item, ends[0]))
    ensures Chained(parse, [pos] + ends, [item] + items)
  {
    var ends', items' := [pos] + ends, [item] + items;
    forall i | 0 <= i < |items'|
      ensures parse(ends'[i]) == Ok(Parsed(items'[i], ends'[i + 1]))
    {
      if i > 0 {
        assert ends'[i] == ends[i - 1] && ends'[i + 1] == ends[i] && items'[i] == items[i - 1];
      }
    }
  }

  /** Reads that chain, item after item, read those items in order. */
  lemma {:induction false} RepeatChain<T>(parse: nat -> Result<Parsed<T>>, ends: seq<nat>, items: seq<T>, acc: seq<T>)
    requires Chained(parse, ends, items)
    ensures Repeat(parse, ends[0], |items|, acc) == Ok(Parsed(acc + items, ends[|items|]))
    decreases |items|
  {
    if items == [] {
      assert acc + items == acc;
    } else {
      var n, left, acc' := |items|, |items| - 1, acc + [items[0]];
      RepeatStep(parse, ends[0], n, acc, items[0], ends[1], left, acc');
      assert Chained(parse, ends[1..], items[1..]) by {
        forall i | 0 <= i < |items[1..]|
          ensures parse(ends[1..][i]) == Ok(Parsed(items[1..][i], ends[1..][i + 1]))
        {
          assert ends[1..][i] == ends[i + 1] && ends[1..][i + 1] == ends[i + 2] && items[1..][i] == items[i + 1];
        }
      }
      RepeatChain(parse, ends[1..], items[1..], acc');
      assert acc' + items[1..] == acc + items;
    }
  }

  // ----- the readers over the shared file handle -----

  lemma StringFromStep(data: Bytes, q: nat, acc: Bytes)
    requires q < |data| && data[q] != 0
    ensures StringFrom(data, q, acc) == StringFrom(data, q + 1, acc + data[q..q + 1])
  {
    assert data[q..q + 1] == [data[q]];
  }

  /**
   * `StringParser.parse`: reads one byte at a time until a 0x00 or until a read comes
   * back empty; an empty read is an error (see StringAt).
   */
  method ParseString(fh: FileHandle) returns (r: Result<Bytes>)
    modifies fh
    ensures r == ValueOf(StringAt(fh.data, old(fh.pos)))
    ensures r.Ok? ==> fh.pos == StringAt(fh.data, old(fh.pos)).value.next
  {
    var result: Bytes := [];
    ghost var q: nat := fh.pos;
    var b := fh.Read(1);
    while true
      invariant StringAt(fh.data, old(fh.pos)) == StringFrom(fh.data, q, result)
      invariant b == Take(fh.data, q, 1) && fh.pos == After(fh.data, q, 1)
      decreases |fh.data| - q
    {
      if |b| == 0 {
        return Err(Truncated);
      }
      if b[0] == 0 {
        break;
      }
      StringFromStep(fh.data, q, result);
      result := result + b;
      q := q + 1;
      b := fh.Read(1);
    }
    r := Ok(result);
  }

  /** The `struct.unpack` of a w-byte little-endian unsigned field: a short read is an error. */
  method ReadUnsigned(fh: FileHandle, w: nat) returns (r: Result<nat>)
    requires w > 0
    modifies fh
    ensures r == ValueOf(UnsignedAt(fh.data, old(fh.pos), w))
    ensures fh.pos == After(fh.data, old(fh.pos), w)
  {
    var bs := fh.Read(w);
    if |bs| < w {
      return Err(Truncated);
    }
    r := Ok(LittleEndian(bs));
  }

  method ReadSigned(fh: FileHandle, w: nat) returns (r: Result<int>)
    requires w > 0
    modifies fh
    ensures r == ValueOf(SignedAt(fh.data, old(fh.pos), w))
    ensures fh.pos == After(fh.data, old(fh.pos), w)
  {
    var u :- ReadUnsigned(fh, w);
    r := Ok(ToSigned(u, w));
  }

  /** `UShortParser` ("<H"). */
  method ParseUShort(fh: FileHandle) returns (r: Result<nat>)
    modifies fh
    ensures r == ValueOf(UnsignedAt(fh.data, old(fh.pos), 2))
    ensures fh.pos == After(fh.data, old(fh.pos), 2)
  {
    r := ReadUnsigned(fh, 2);
  }

  /** `UintParser` ("<I"). */
  method ParseUint(fh: FileHandle) returns (r: Result<nat>)
    modifies fh
    ensures r == ValueOf(UnsignedAt(fh.data, old(fh.pos), 4))
    ensures fh.pos == After(fh.data, old(fh.pos), 4)
  {
    r := ReadUnsigned(fh, 4);
  }

  /** `ULongParser` ("<Q"). */
  method ParseULong(fh: FileHandle) returns (r: Result<nat>)
    modifies fh
    ensures r == ValueOf(UnsignedAt(fh.data, old(fh.pos), 8))
    ensures fh.pos == After(fh.data, old(fh.pos), 8)
  {
    r := ReadUnsigned(fh, 8);
  }

  /** `ShortParser` ("<h"). */
  method ParseShort(fh: FileHandle) returns (r: Result<int>)
    modifies fh
    ensures r == ValueOf(SignedAt(fh.data, old(fh.pos), 2))
    ensures fh.pos == After(fh.data, old(fh.pos), 2)
  {
    r := ReadSigned(fh, 2);
  }

  /** `IntParser` ("<i"). */
  method ParseInt(fh: FileHandle) returns (r: Result<int>)
    modifies fh
    ensures r == ValueOf(SignedAt(fh.data, old(fh.pos), 4))
    ensures fh.pos == After(fh.data, old(fh.pos), 4)
  {
    r := ReadSigned(fh, 4);
  }

  /** `LongParser` ("<q"). */
  method ParseLong(fh: FileHandle) returns (r: Result<int>)
    modifies fh
    ensures r == ValueOf(SignedAt(fh.data, old(fh.pos), 8))
    ensures fh.pos == After(fh.data, old(fh.pos), 8)
  {
    r := ReadSigned(fh, 8);
  }
}
