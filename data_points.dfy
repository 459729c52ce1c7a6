/**
 * The DataPts block: the trace. Version 1 stores a u32 point count N, an i16
 * trace count, the u32 count again (ignored), a u16 scale factor in thousandths
 * and then N u16 samples; version 2 starts with "DataPts\0". Only the first
 * trace is decoded. The decoder reports the smallest and the largest sample,
 * which fails when there are none.
 */
module DataPointsDecoder {
  import opened SorTypes
  import opened FileHandles
  import opened TypeParser
  import opened BlockData
  import opened AbstractParser

  // ----- the extreme samples -----

  /** `min(points)`: Python's built-in over a non-empty list. */
  function SampleMin(s: seq<nat>): (m: nat)
    requires s != []
    ensures m in s && forall i | 0 <= i < |s| :: m <= s[i]
    decreases |s|
  {
    if |s| == 1 then s[0] else Min(s[0], SampleMin(s[1..]))
  }

  /** `max(points)`: Python's built-in over a non-empty list. */
  function SampleMax(s: seq<nat>): (m: nat)
    requires s != []
    ensures m in s && forall i | 0 <= i < |s| :: s[i] <= m
    decreases |s|
  {
    if |s| == 1 then s[0] else Max(s[0], SampleMax(s[1..]))
  }

  lemma {:induction false} ScaleMonotone(a: nat, b: nat, k: nat)
    requires a <= b
    ensures a * k <= b * k
    decreases k
  {
    if k > 0 {
      ScaleMonotone(a, b, k - 1);
      assert a * k == a * (k - 1) + a && b * k == b * (k - 1) + b;
    }
  }

  // ----- specification of the reads -----

  /** The bytes before the samples: 12 in version 1, 20 in version 2. */
  function DataPtsHeaderSize(v: Version): nat {
    if v == V1 then 12 else 20
  }

  /** The reader of one u16 sample. */
  function SampleReader(data: Bytes): nat -> Result<Parsed<nat>> {
    (p: nat) => UnsignedAt(data, p, 2)
  }

  /** The list comprehension: `n` more u16 samples from `pos`, after the samples `acc`, in file order. */
  function SamplesFrom(data: Bytes, pos: nat, n: nat, acc: seq<nat>): (r: Result<Parsed<seq<nat>>>)
    ensures r.Err? ==> r.error == Truncated
    ensures r.Ok? ==> |r.value.value| == |acc| + n && r.value.value[..|acc|] == acc
  {
    Repeat(SampleReader(data), pos, n, acc)
  }

  /**
   * The samples are read exactly when 2n bytes remain; sample i is the u16 at
   * `pos + 2i`, and the cursor ends 2n bytes on.
   */
  lemma {:induction false} SamplesFromSpec(data: Bytes, pos: nat, n: nat, acc: seq<nat>)
    requires pos <= |data|
    ensures SamplesFrom(data, pos, n, acc).Ok? <==> pos + 2 * n <= |data|
    ensures SamplesFrom(data, pos, n, acc).Ok? ==>
      && SamplesFrom(data, pos, n, acc).value.next == pos + 2 * n
      && forall i | 0 <= i < n :: SamplesFrom(data, pos, n, acc).value.value[|acc| + i] == UnsignedAt(data, pos + 2 * i, 2).value.value
    decreases n
  {
    if n > 0 {
      var first := UnsignedAt(data, pos, 2);
      assert SampleReader(data)(pos) == first;
      if first.Ok? {
        var after, left, acc' := pos + 2, n - 1, acc + [first.value.value];
        RepeatStep(SampleReader(data), pos, n, acc, first.value.value, after, left, acc');
        SamplesFromSpec(data, after, left, acc');
        var r := SamplesFrom(data, pos, n, acc);
        if r.Ok? {
          forall i | 0 <= i < n
            ensures r.value.value[|acc| + i] == UnsignedAt(data, pos + 2 * i, 2).value.value
          {
            if i == 0 {
              assert r.value.value[..|acc'|][|acc|] == acc'[|acc|];
            } else {
              var j := i - 1;
              assert |acc| + i == |acc'| + j && pos + 2 * i == after + 2 * j;
            }
          }
        }
      }
    }
  }

  /** The fields after any prefix: the counts, the scale factor and the samples. */
  function DataPtsBodyAt(data: Bytes, pos: nat): (r: Result<Parsed<DataPoints>>)
    ensures r.Err? ==> r.error == Truncated || r.error == NoDataPoints
  {
    var count := UnsignedAt(data, pos, 4);
    if count.Err? then Err(count.error) else
    var numTraces := SignedAt(data, count.value.next, 2);
    if numTraces.Err? then Err(numTraces.error) else
    var again := UnsignedAt(data, numTraces.value.next, 4);
    if again.Err? then Err(again.error) else
    var scaling := UnsignedAt(data, again.value.next, 2);
    if scaling.Err? then Err(scaling.error) else
    var points := SamplesFrom(data, scaling.value.next, count.value.value, []);
    if points.Err? then Err(points.error) else
    var ps := points.value.value;
    if ps == [] then Err(NoDataPoints) else
    Ok(Parsed(DataPoints(SampleMin(ps), SampleMax(ps), count.value.value, numTraces.value.value, scaling.value.value, ps),
              points.value.next))
  }

  /** `DataPtsParserV1.parse` (v = V1) and `DataPtsParserV2.parse` (v = V2) after their seek. */
  function DataPtsAt(data: Bytes, pos: nat, v: Version): (r: Result<Parsed<DataPoints>>)
    ensures v == V2 && BlockNameAt(data, pos, DataPtsName).Err? ==> r == Err(BlockNameAt(data, pos, DataPtsName).error)
    ensures r.Err? ==> r.error == Truncated || r.error == NoDataPoints || r.error.BlockNameMismatch?
  {
    if v == V1 then DataPtsBodyAt(data, pos) else
    var start := BlockNameAt(data, pos, DataPtsName);
    if start.Err? then Err(start.error) else
    DataPtsBodyAt(data, start.value)
  }

  /** Behind a correct prefix, version 2 reads exactly what version 1 reads 8 bytes further on. */
  lemma DataPtsV2Body(data: Bytes, pos: nat)
    requires pos + 8 <= |data| && data[pos..pos + 8] == DataPtsName + [0]
    ensures DataPtsAt(data, pos, V2) == DataPtsBodyAt(data, pos + 8)
  {
  }

  /** The stored point count, when the block is long enough to hold it. */
  function StoredCount(data: Bytes, pos: nat): nat
    requires pos + 4 <= |data|
  {
    UnsignedAt(data, pos, 4).value.value
  }

  /**
   * The body decodes exactly when its 12 header bytes and the 2N sample bytes are
   * there and N > 0; the trace count plays no part. It then ends 12 + 2N bytes on.
   */
  lemma DataPtsBodyShape(data: Bytes, pos: nat)
    ensures DataPtsBodyAt(data, pos).Ok? <==>
      pos + 12 <= |data| && StoredCount(data, pos) > 0 && pos + 12 + 2 * StoredCount(data, pos) <= |data|
    ensures DataPtsBodyAt(data, pos).Ok? ==> DataPtsBodyAt(data, pos).value.next == pos + 12 + 2 * StoredCount(data, pos)
    ensures pos + 12 <= |data| && StoredCount(data, pos) == 0 ==> DataPtsBodyAt(data, pos) == Err(NoDataPoints)
  {
    if pos + 12 <= |data| {
      var n := StoredCount(data, pos);
      var start := pos + 12;
      SamplesFromSpec(data, start, n, []);
    }
  }

  /** A decoded body in terms of its parts: the stored count, the samples after the 12 header bytes, their extremes. */
  lemma DataPtsBodyParts(data: Bytes, pos: nat)
    requires DataPtsBodyAt(data, pos).Ok?
    ensures var r := DataPtsBodyAt(data, pos).value;
      && pos + 12 <= |data| && r.value.count == StoredCount(data, pos)
      && SamplesFrom(data, pos + 12, r.value.count, []) == Ok(Parsed(r.value.points, r.next))
      && r.value.points != [] && r.value.minRaw == SampleMin(r.value.points) && r.value.maxRaw == SampleMax(r.value.points)
  {
  }

  /** The samples of a decoded body, each the u16 at its place after the 12 header bytes, and their extremes. */
  lemma DataPtsBodyContents(data: Bytes, pos: nat)
    requires DataPtsBodyAt(data, pos).Ok?
    ensures var r := DataPtsBodyAt(data, pos).value;
      var d, start := r.value, pos + 12;
      && |d.points| == d.count > 0
      && r.next == start + 2 * d.count
      && (forall i | 0 <= i < d.count :: UnsignedAt(data, start + 2 * i, 2).Ok? && d.points[i] == UnsignedAt(data, start + 2 * i, 2).value.value)
      && (forall i | 0 <= i < d.count :: d.points[i] < 0x1_0000)
      && d.minRaw in d.points && d.maxRaw in d.points && d.minRaw <= d.maxRaw
      && (forall i | 0 <= i < d.count :: d.minRaw <= d.points[i] <= d.maxRaw)
  {
    DataPtsBodyParts(data, pos);
    var r := DataPtsBodyAt(data, pos).value;
    var d, start, n := r.value, pos + 12, r.value.count;
    SamplesFromSpec(data, start, n, []);
    var samples := SamplesFrom(data, start, n, []);
    assert samples == Ok(Parsed(d.points, r.next));
    Pow256Widths();
    forall i | 0 <= i < n
      ensures UnsignedAt(data, start + 2 * i, 2).Ok? && d.points[i] == UnsignedAt(data, start + 2 * i, 2).value.value
      ensures d.points[i] < 0x1_0000
    {
      var none: seq<nat> := [];
      assert samples.value.value[|none| + i] == d.points[i];
    }
  }

  /** A version 2 block is decoded as its body after the 8-byte prefix. */
  lemma DataPtsAtBody(data: Bytes, pos: nat, v: Version) returns (body: nat)
    requires DataPtsAt(data, pos, v).Ok?
    ensures body + 12 == pos + DataPtsHeaderSize(v)
    ensures DataPtsAt(data, pos, v) == DataPtsBodyAt(data, body)
  {
    body := if v == V1 then pos else pos + 8;
  }

  /**
   * What a decoded block holds: N samples, each the u16 stored at its place after
   * the header in file order, between the reported minimum and maximum, which are
   * samples themselves; the block ends after the last sample.
   */
  lemma DataPointsContents(data: Bytes, pos: nat, v: Version)
    requires DataPtsAt(data, pos, v).Ok?
    ensures var r := DataPtsAt(data, pos, v).value;
      var d, start := r.value, pos + DataPtsHeaderSize(v);
      && |d.points| == d.count > 0
      && r.next == start + 2 * d.count
      && (forall i | 0 <= i < d.count :: UnsignedAt(data, start + 2 * i, 2).Ok? && d.points[i] == UnsignedAt(data, start + 2 * i, 2).value.value)
      && (forall i | 0 <= i < d.count :: d.points[i] < 0x1_0000)
      && d.minRaw in d.points && d.maxRaw in d.points && d.minRaw <= d.maxRaw
      && (forall i | 0 <= i < d.count :: d.minRaw <= d.points[i] <= d.maxRaw)
  {
    var body := DataPtsAtBody(data, pos, v);
    DataPtsBodyContents(data, body);
  }

  /**
   * For every decoded block, the reported minimum is never above the reported
   * maximum, and every sample, scaled the same way, lies between the two.
   */
  lemma ReportedMinAtMostMax(data: Bytes, pos: nat, v: Version)
    requires DataPtsAt(data, pos, v).Ok?
    ensures var d := DataPtsAt(data, pos, v).value.value;
      && ReportedMin(d) <= ReportedMax(d)
      && forall i | 0 <= i < |d.points| ::
           ReportedMin(d) <= (d.points[i] * d.scalingRaw) as real / 1000000.0 <= ReportedMax(d)
  {
    DataPointsContents(data, pos, v);
    var d := DataPtsAt(data, pos, v).value.value;
    ScaleMonotone(d.minRaw, d.maxRaw, d.scalingRaw);
    forall i | 0 <= i < |d.points|
      ensures ReportedMin(d) <= (d.points[i] * d.scalingRaw) as real / 1000000.0 <= ReportedMax(d)
    {
      ScaleMonotone(d.minRaw, d.points[i], d.scalingRaw);
      ScaleMonotone(d.points[i], d.maxRaw, d.scalingRaw);
    }
  }

  // ----- the writer's side -----

  /**
   * A record a writer can store: the count is the number of samples, at least one,
   * every field fits its width, and the extremes are those of the samples.
   */
  predicate StorableDataPoints(d: DataPoints) {
    && d.points != [] && d.count == |d.points| < 0x1_0000_0000
    && FitsSigned(d.numTraces, 2) && d.scalingRaw < 0x1_0000
    && (forall i | 0 <= i < |d.points| :: d.points[i] < 0x1_0000)
    && d.minRaw == SampleMin(d.points) && d.maxRaw == SampleMax(d.points)
  }

  function SampleFields(ps: seq<nat>): seq<Field>
    decreases |ps|
  {
    if ps == [] then [] else [Unsigned(ps[0], 2)] + SampleFields(ps[1..])
  }

  /** The version 1 layout: the count, the trace count, the count again, the scale factor, the samples. */
  function DataPtsFields(d: DataPoints): seq<Field> {
    [Unsigned(d.count, 4), Signed(d.numTraces, 2), Unsigned(d.count, 4), Unsigned(d.scalingRaw, 2)] + SampleFields(d.points)
  }

  function DataPtsLayout(d: DataPoints, v: Version): seq<Field> {
    if v == V1 then DataPtsFields(d) else [Raw(DataPtsName + [0])] + DataPtsFields(d)
  }

  /** Where the stored samples start: they chain from `pos` to the bytes after them. */
  lemma {:induction false} SamplesEncodedEnds(data: Bytes, pos: nat, ps: seq<nat>, rest: Bytes) returns (ends: seq<nat>)
    requires forall i | 0 <= i < |ps| :: ps[i] < 0x1_0000
    requires pos <= |data| && data[pos..] == EncodeFields(SampleFields(ps)) + rest
    ensures Chained(SampleReader(data), ends, ps) && ends[0] == pos && ends[|ps|] <= |data|
    ensures data[ends[|ps|]..] == rest
    decreases |ps|
  {
    if ps == [] {
      FieldsDone(data, pos, SampleFields(ps), rest);
      ends := [pos];
    } else {
      Pow256Widths();
      var fs := SampleFields(ps);
      assert fs[1..] == SampleFields(ps[1..]);
      var q := UnsignedFirst(data, pos, fs, 2, rest);
      var tail := SamplesEncodedEnds(data, q, ps[1..], rest);
      assert SampleReader(data)(pos) == Ok(Parsed(ps[0], q));
      ChainedCons(SampleReader(data), pos, ps[0], tail, ps[1..]);
      assert [ps[0]] + ps[1..] == ps;
      ends := [pos] + tail;
    }
  }

  /** The stored samples are read back in order, up to `end`, where `rest` begins. */
  lemma SamplesEncoded(data: Bytes, pos: nat, ps: seq<nat>, rest: Bytes, end: nat)
    requires forall i | 0 <= i < |ps| :: ps[i] < 0x1_0000
    requires pos <= |data| && data[pos..] == EncodeFields(SampleFields(ps)) + rest
    requires end == |data| - |rest|
    ensures SamplesFrom(data, pos, |ps|, []) == Ok(Parsed(ps, end))
  {
    var ends := SamplesEncodedEnds(data, pos, ps, rest);
    RepeatChain(SampleReader(data), ends, ps, []);
    var last := ends[|ps|];
    assert |data[last..]| == |rest|;
    assert last == end;
    assert [] + ps == ps;
    assert Ok(Parsed([] + ps, last)) == Ok(Parsed(ps, end));
  }

  lemma DataPtsBodyFrom(data: Bytes, pos: nat, d: DataPoints, q1: nat, q2: nat, q3: nat, q4: nat, end: nat)
    requires UnsignedAt(data, pos, 4) == Ok(Parsed(d.count, q1))
    requires SignedAt(data, q1, 2) == Ok(Parsed(d.numTraces, q2))
    requires UnsignedAt(data, q2, 4).Ok? && UnsignedAt(data, q2, 4).value.next == q3
    requires UnsignedAt(data, q3, 2) == Ok(Parsed(d.scalingRaw, q4))
    requires SamplesFrom(data, q4, d.count, []) == Ok(Parsed(d.points, end))
    requires d.points != [] && d.minRaw == SampleMin(d.points) && d.maxRaw == SampleMax(d.points)
    ensures DataPtsBodyAt(data, pos) == Ok(Parsed(d, end))
  {
  }

  /** A block laid out by a writer is read back as the record, up to `end`, where `rest` begins. */
  lemma DataPtsEncoded(data: Bytes, pos: nat, d: DataPoints, v: Version, rest: Bytes, end: nat)
    requires StorableDataPoints(d) && pos <= |data| && data[pos..] == EncodeFields(DataPtsLayout(d, v)) + rest
    requires end == |data| - |rest|
    ensures DataPtsAt(data, pos, v) == Ok(Parsed(d, end))
  {
    Pow256Widths();
    var f0 := DataPtsFields(d);
    var p0 := pos;
    if v == V2 {
      var fs := DataPtsLayout(d, v);
      assert fs[1..] == f0;
      p0 := BlockNameFirst(data, pos, fs, DataPtsName, rest);
    }
    var f1 := f0[1..];
    var f2 := f1[1..];
    var f3 := f2[1..];
    assert f3[1..] == SampleFields(d.points);
    var q1 := UnsignedFirst(data, p0, f0, 4, rest);
    var q2 := SignedFirst(data, q1, f1, 2, rest);
    var q3 := UnsignedFirst(data, q2, f2, 4, rest);
    var q4 := UnsignedFirst(data, q3, f3, 2, rest);
    SamplesEncoded(data, q4, d.points, rest, end);
    DataPtsBodyFrom(data, p0, d, q1, q2, q3, q4, end);
  }

  // ----- the decoders over the shared file handle -----

  lemma SamplesFromStep(data: Bytes, pos: nat, n: nat, acc: seq<nat>, x: nat, after: nat, left: nat, acc': seq<nat>)
    requires n == left + 1 && acc' == acc + [x] && UnsignedAt(data, pos, 2) == Ok(Parsed(x, after))
    ensures SamplesFrom(data, pos, n, acc) == SamplesFrom(data, after, left, acc')
  {
    RepeatStep(SampleReader(data), pos, n, acc, x, after, left, acc');
  }

  /** The comprehension `[UShortParser(fh).parse() for _ in range(n)]`. */
  method ReadSamples(fh: FileHandle, n: nat) returns (r: Result<seq<nat>>)
    modifies fh
    ensures r == ValueOf(SamplesFrom(fh.data, old(fh.pos), n, []))
    ensures r.Ok? ==> fh.pos == SamplesFrom(fh.data, old(fh.pos), n, []).value.next
  {
    var points: seq<nat> := [];
    var left := n;
    ghost var total := SamplesFrom(fh.data, fh.pos, n, []);
    while left > 0
      invariant total == SamplesFrom(fh.data, fh.pos, left, points)
    {
      ghost var here := fh.pos;
      var x := ParseUShort(fh);
      if x.Err? {
        return Err(x.error);
      }
      SamplesFromStep(fh.data, here, left, points, x.value, fh.pos, left - 1, points + [x.value]);
      points := points + [x.value];
      left := left - 1;
    }
    r := Ok(points);
  }

  method ReadDataPtsBody(fh: FileHandle) returns (r: Result<DataPoints>)
    modifies fh
    ensures r == ValueOf(DataPtsBodyAt(fh.data, old(fh.pos)))
    ensures r.Ok? ==> fh.pos == DataPtsBodyAt(fh.data, old(fh.pos)).value.next
  {
    var count :- ParseUint(fh);
    var numTraces :- ParseShort(fh);
    var again :- ParseUint(fh);
    var scaling :- ParseUShort(fh);
    var points :- ReadSamples(fh, count);
    if points == [] {
      return Err(NoDataPoints);
    }
    r := Ok(DataPoints(SampleMin(points), SampleMax(points), count, numTraces, scaling, points));
  }

  method ReadDataPts(fh: FileHandle, v: Version) returns (r: Result<DataPoints>)
    modifies fh
    ensures r == ValueOf(DataPtsAt(fh.data, old(fh.pos), v))
    ensures r.Ok? ==> fh.pos == DataPtsAt(fh.data, old(fh.pos), v).value.next
  {
    if v == V2 {
      var start :- ExpectBlockName(fh, DataPtsName);
    }
    r := ReadDataPtsBody(fh);
  }

  /** `DataPtsParserV1.parse` (v = V1) and `DataPtsParserV2.parse` (v = V2): seek to the block, then read it. */
  method ParseDataPts(p: BlockParser, v: Version) returns (r: Result<DataPoints>)
    modifies p.fh
    ensures r == ValueOf(DataPtsAt(p.fh.data, p.startPosition, v))
  {
    p.Seek();
    r := ReadDataPts(p.fh, v);
  }
}
