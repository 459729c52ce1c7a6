/**
 * The KeyEvents block: a u16 event count, that many events in file order, then
 * one summary. Version 2 starts with "KeyEvents\0" and stores five more u32
 * positions in each event, between its type code and its comment.
 *
 * Every event carries an 8-byte type code, classified by the grammar
 * `(.)(.)9999LS`: on a match the first character is the event type and the
 * second the measurement mode; a code that does not match is kept unclassified.
 */
module KeyEventsDecoder {
  import opened SorTypes
  import opened FileHandles
  import opened TypeParser
  import opened Rendering
  import opened BlockData
  import opened AbstractParser

  // ----- the event type grammar -----

  const Newline: Byte := 0x0A
  const CodeTail: Bytes := [0x39, 0x39, 0x39, 0x39, 0x4C, 0x53]   // "9999LS"

  /**
   * `re.match("(.)(.)9999LS", code)`: two characters other than a newline (which
   * `.` does not match), then "9999LS", at the start of the code.
   */
  predicate MatchesEventPattern(code: Bytes) {
    |code| >= 8 && code[0] != Newline && code[1] != Newline && code[2..8] == CodeTail
  }

  /** `EventType(int(c))` for the one-character subtype `c`; None where either call raises. */
  function SubtypeOf(c: Byte): (r: Option<EventType>)
    ensures r.Some? <==> Zero <= c <= Zero + 2
  {
    if IsDigit(c) then EventTypeOf(c - Zero) else None
  }

  /**
   * `_parse_event_type`. A code that matches the grammar is classified by its first
   * two characters, and fails if either names no member; one that does not match
   * is kept with neither a type nor a mode.
   */
  function ClassifyEventCode(code: Bytes): (r: Result<EventDataType>)
    ensures r.Ok? ==> r.value.reference == code
    ensures r.Ok? ==> (r.value.eventType.Some? <==> MatchesEventPattern(code))
    ensures r.Ok? ==> (r.value.eventType.Some? <==> r.value.mode.Some?)
    ensures r.Err? <==> MatchesEventPattern(code) && (SubtypeOf(code[0]).None? || EventModeOf(code[1]).None?)
    ensures r.Err? ==> r.error == (if SubtypeOf(code[0]).None? then UnsupportedEventType(code[0])
                                   else UnsupportedEventMode(code[1]))
  {
    if MatchesEventPattern(code) then
      var subtype := SubtypeOf(code[0]);
      if subtype.None? then Err(UnsupportedEventType(code[0])) else
      var mode := EventModeOf(code[1]);
      if mode.None? then Err(UnsupportedEventMode(code[1])) else
      Ok(EventDataType(code, Some(subtype.value), Some(mode.value)))
    else Ok(EventDataType(code, None, None))
  }

  /** The code a writer stores for an event of type `t` measured in mode `m`. */
  function EventCode(t: EventType, m: EventModeType): (code: Bytes)
    ensures |code| == 8
  {
    [DigitChar(EventTypeValue(t)), ModeLetter(m)] + CodeTail
  }

  /** Every type and mode is classified back from the code stored for it. */
  lemma ClassifyEventCodeOf(t: EventType, m: EventModeType)
    ensures ClassifyEventCode(EventCode(t, m)) == Ok(EventDataType(EventCode(t, m), Some(t), Some(m)))
  {
    var code := EventCode(t, m);
    assert code[2..8] == CodeTail;
    assert SubtypeOf(code[0]) == Some(t);
  }

  /** A classified code is, in its first eight bytes, exactly the code stored for its type and mode. */
  lemma ClassifiedIsEventCode(code: Bytes, t: EventType, m: EventModeType)
    requires ClassifyEventCode(code) == Ok(EventDataType(code, Some(t), Some(m)))
    ensures code[..8] == EventCode(t, m)
  {
    assert code[..8] == code[..2] + code[2..8];
  }

  lemma ClassifyEventCodeExamples()
    ensures ClassifyEventCode([0x31, 0x46] + CodeTail) == Ok(EventDataType([0x31, 0x46] + CodeTail, Some(Reflection), Some(F)))
    ensures ClassifyEventCode([0x5A, 0x5A, 0x30, 0x30, 0x30, 0x30, 0x30, 0x30]) ==                 // "ZZ000000"
            Ok(EventDataType([0x5A, 0x5A, 0x30, 0x30, 0x30, 0x30, 0x30, 0x30], None, None))
    ensures ClassifyEventCode([0x33, 0x41] + CodeTail) == Err(UnsupportedEventType(0x33))          // "3A9999LS"
    ensures ClassifyEventCode([0x30, 0x58] + CodeTail) == Err(UnsupportedEventMode(0x58))          // "0X9999LS"
  {
    assert ([0x31, 0x46] + CodeTail)[2..8] == CodeTail;
    assert ([0x33, 0x41] + CodeTail)[2..8] == CodeTail;
    assert ([0x30, 0x58] + CodeTail)[2..8] == CodeTail;
    assert [0x5A, 0x5A, 0x30, 0x30, 0x30, 0x30, 0x30, 0x30][2] != CodeTail[0];
  }

  // ----- specification of the reads -----

  /** The fields of an event before the version 2 positions and the comment. */
  datatype EventHead = EventHead(distance: nat, slope: nat, spliceLoss: nat, reflLoss: nat, eventType: EventDataType)

  /** The bytes of an event before its comment: 22 in version 1, 42 in version 2. */
  function EventFixedSize(v: Version): nat {
    if v == V1 then 22 else 42
  }

  /**
   * The u16 event number (discarded), u32 distance, u16 slope, u16 splice loss, u32
   * reflection loss, then 8 bytes of type code, classified at once. The code read
   * takes what is left when fewer than 8 bytes remain.
   */
  function EventHeadAt(data: Bytes, pos: nat): (r: Result<Parsed<EventHead>>)
    ensures r.Err? ==> r.error == Truncated || r.error.UnsupportedEventType? || r.error.UnsupportedEventMode?
    ensures r.Ok? ==> pos + 14 <= |data| && r.value.next == Min(pos + 22, |data|)
  {
    var number := UnsignedAt(data, pos, 2);
    if number.Err? then Err(number.error) else
    var distance := UnsignedAt(data, number.value.next, 4);
    if distance.Err? then Err(distance.error) else
    var slope := UnsignedAt(data, distance.value.next, 2);
    if slope.Err? then Err(slope.error) else
    var splice := UnsignedAt(data, slope.value.next, 2);
    if splice.Err? then Err(splice.error) else
    var refl := UnsignedAt(data, splice.value.next, 4);
    if refl.Err? then Err(refl.error) else
    var code, p := Take(data, refl.value.next, 8), After(data, refl.value.next, 8);
    var eventType := ClassifyEventCode(code);
    if eventType.Err? then Err(eventType.error) else
    Ok(Parsed(EventHead(distance.value.value, slope.value.value, splice.value.value, refl.value.value, eventType.value), p))
  }

  /** The five u32 positions of a version 2 event, in their stored order. */
  function MarkersAt(data: Bytes, pos: nat): (r: Result<Parsed<EventMarkers>>)
    ensures r.Err? ==> r.error == Truncated
    ensures r.Ok? <==> pos + 20 <= |data|
    ensures r.Ok? ==> r.value.next == pos + 20
  {
    var endOfPrevious := UnsignedAt(data, pos, 4);
    if endOfPrevious.Err? then Err(endOfPrevious.error) else
    var startOfCurrent := UnsignedAt(data, endOfPrevious.value.next, 4);
    if startOfCurrent.Err? then Err(startOfCurrent.error) else
    var endOfCurrent := UnsignedAt(data, startOfCurrent.value.next, 4);
    if endOfCurrent.Err? then Err(endOfCurrent.error) else
    var startOfNext := UnsignedAt(data, endOfCurrent.value.next, 4);
    if startOfNext.Err? then Err(startOfNext.error) else
    var peak := UnsignedAt(data, startOfNext.value.next, 4);
    if peak.Err? then Err(peak.error) else
    Ok(Parsed(EventMarkers(endOfPrevious.value.value, startOfCurrent.value.value, endOfCurrent.value.value,
                           startOfNext.value.value, peak.value.value), peak.value.next))
  }

  /** The positions a layout stores after the type code: none in version 1. */
  function MarkersFor(data: Bytes, pos: nat, v: Version): (r: Result<Parsed<Option<EventMarkers>>>)
    ensures r.Err? ==> r.error == Truncated
    ensures r.Ok? ==> (r.value.value.Some? <==> v == V2)
  {
    match v
    case V1 => Ok(Parsed(None, pos))
    case V2 =>
      var m := MarkersAt(data, pos);
      if m.Err? then Err(m.error) else Ok(Parsed(Some(m.value.value), m.value.next))
  }

  /** `_parse_events` of the layout `v`: the head, the version 2 positions, then the comment. */
  function EventAt(data: Bytes, pos: nat, v: Version): (r: Result<Parsed<Event>>)
    ensures r.Err? ==> r.error == Truncated || r.error.UnsupportedEventType? || r.error.UnsupportedEventMode?
    ensures r.Ok? ==> (r.value.value.markers.Some? <==> v == V2)
  {
    var head := EventHeadAt(data, pos);
    if head.Err? then Err(head.error) else
    var markers := MarkersFor(data, head.value.next, v);
    if markers.Err? then Err(markers.error) else
    var comment := StringAt(data, markers.value.next);
    if comment.Err? then Err(comment.error) else
    var h := head.value.value;
    Ok(Parsed(Event(comment.value.value, h.distance, h.slope, h.spliceLoss, h.reflLoss, h.eventType, markers.value.value),
              comment.value.next))
  }

  /** The event reader of the layout `v`. */
  function EventReader(data: Bytes, v: Version): nat -> Result<Parsed<Event>> {
    (p: nat) => EventAt(data, p, v)
  }

  /** `n` more events read after the events `acc`, in file order. */
  function EventsFrom(data: Bytes, pos: nat, n: nat, v: Version, acc: seq<Event>): (r: Result<Parsed<seq<Event>>>)
    ensures r.Err? ==> r.error == Truncated || r.error.UnsupportedEventType? || r.error.UnsupportedEventMode?
    ensures r.Ok? ==> |r.value.value| == |acc| + n && r.value.value[..|acc|] == acc
  {
    Repeat(EventReader(data, v), pos, n, acc)
  }

  /**
   * `_parse_summary`: i32 total loss, i32 loss start, u32 loss end, u16 ORL, i32 ORL
   * start, u32 ORL finish. The factor applied to the start and end values is
   * fixed at 1, so they are the stored integers.
   */
  function SummaryAt(data: Bytes, pos: nat): (r: Result<Parsed<KeyEventSummary>>)
    ensures r.Err? ==> r.error == Truncated
    ensures r.Ok? <==> pos + 22 <= |data|
    ensures r.Ok? ==> r.value.next == pos + 22
  {
    var totalLoss := SignedAt(data, pos, 4);
    if totalLoss.Err? then Err(totalLoss.error) else
    var lossStart := SignedAt(data, totalLoss.value.next, 4);
    if lossStart.Err? then Err(lossStart.error) else
    var lossEnd := UnsignedAt(data, lossStart.value.next, 4);
    if lossEnd.Err? then Err(lossEnd.error) else
    var orl := UnsignedAt(data, lossEnd.value.next, 2);
    if orl.Err? then Err(orl.error) else
    var orlStart := SignedAt(data, orl.value.next, 4);
    if orlStart.Err? then Err(orlStart.error) else
    var orlFinish := UnsignedAt(data, orlStart.value.next, 4);
    if orlFinish.Err? then Err(orlFinish.error) else
    Ok(Parsed(KeyEventSummary(totalLoss.value.value, lossStart.value.value, lossEnd.value.value, orl.value.value,
                              orlStart.value.value, orlFinish.value.value), orlFinish.value.next))
  }

  /** The count, the events and the summary, as both versions read them after any prefix. */
  function KeyEventsBodyAt(data: Bytes, pos: nat, v: Version): (r: Result<Parsed<KeyEvents>>)
    ensures r.Err? ==> r.error == Truncated || r.error.UnsupportedEventType? || r.error.UnsupportedEventMode?
  {
    var count := UnsignedAt(data, pos, 2);
    if count.Err? then Err(count.error) else
    var events := EventsFrom(data, count.value.next, count.value.value, v, []);
    if events.Err? then Err(events.error) else
    var summary := SummaryAt(data, events.value.next);
    if summary.Err? then Err(summary.error) else
    Ok(Parsed(KeyEvents(summary.value.value, events.value.value), summary.value.next))
  }

  /** `KeyEventsParserV1.parse` and `KeyEventsParserV2.parse` after their seek. */
  function KeyEventsAt(data: Bytes, pos: nat, v: Version): (r: Result<Parsed<KeyEvents>>)
    ensures v == V2 && BlockNameAt(data, pos, KeyEventsName).Err? ==> r == Err(BlockNameAt(data, pos, KeyEventsName).error)
    ensures r.Err? ==> r.error == Truncated || r.error.BlockNameMismatch? || r.error.UnsupportedEventType? || r.error.UnsupportedEventMode?
  {
    if v == V1 then KeyEventsBodyAt(data, pos, V1) else
    var start := BlockNameAt(data, pos, KeyEventsName);
    if start.Err? then Err(start.error) else
    KeyEventsBodyAt(data, start.value, V2)
  }

  /**
   * An event is its fixed fields (22 bytes, 42 in version 2) followed by its comment
   * and that comment's terminator: a short type code read leaves nothing for the
   * comment, so the event fails.
   */
  lemma EventCommentSpan(data: Bytes, pos: nat, v: Version)
    requires EventAt(data, pos, v).Ok?
    ensures var r := EventAt(data, pos, v).value;
      && pos + EventFixedSize(v) < r.next
      && r.value.comment == data[pos + EventFixedSize(v)..r.next - 1]
      && data[r.next - 1] == 0
  {
    var head := EventHeadAt(data, pos).value;
    var markers := MarkersFor(data, head.next, v).value;
    StringAtSpec(data, markers.next);
  }

  // ----- the writer's side -----

  /** An event a writer can store in the layout `v`: every field fits its width, and the code classifies as the event says. */
  predicate StorableEvent(e: Event, v: Version) {
    && e.distance < 0x1_0000_0000 && e.slope < 0x1_0000 && e.spliceLoss < 0x1_0000 && e.reflLoss < 0x1_0000_0000
    && |e.eventType.reference| == 8 && ClassifyEventCode(e.eventType.reference) == Ok(e.eventType)
    && NoZero(e.comment)
    && (e.markers.Some? <==> v == V2)
    && (e.markers.Some? ==> StorableMarkers(e.markers.value))
  }

  predicate StorableMarkers(m: EventMarkers) {
    m.endOfPrevious < 0x1_0000_0000 && m.startOfCurrent < 0x1_0000_0000 && m.endOfCurrent < 0x1_0000_0000
    && m.startOfNext < 0x1_0000_0000 && m.peak < 0x1_0000_0000
  }

  predicate StorableSummary(s: KeyEventSummary) {
    FitsSigned(s.totalLoss, 4) && FitsSigned(s.lossStart, 4) && s.lossEnd < 0x1_0000_0000
    && s.orl < 0x1_0000 && FitsSigned(s.orlStart, 4) && s.orlFinish < 0x1_0000_0000
  }

  /** A block a writer can store in the layout `v`: the count fits a u16, and so does every event number from 1. */
  predicate StorableKeyEvents(k: KeyEvents, v: Version) {
    |k.events| < 0x1_0000 && (forall i | 0 <= i < |k.events| :: StorableEvent(k.events[i], v)) && StorableSummary(k.summary)
  }

  /** The fields of an event before its positions, with the event number `number`. */
  function EventHeadFields(e: Event, number: nat): seq<Field> {
    [Unsigned(number, 2), Unsigned(e.distance, 4), Unsigned(e.slope, 2), Unsigned(e.spliceLoss, 2),
     Unsigned(e.reflLoss, 4), Raw(e.eventType.reference)]
  }

  function MarkerFields(markers: Option<EventMarkers>): seq<Field> {
    match markers
    case None => []
    case Some(m) =>
      [Unsigned(m.endOfPrevious, 4), Unsigned(m.startOfCurrent, 4), Unsigned(m.endOfCurrent, 4),
       Unsigned(m.startOfNext, 4), Unsigned(m.peak, 4)]
  }

  function EventFields(e: Event, number: nat): seq<Field> {
    EventHeadFields(e, number) + (MarkerFields(e.markers) + [Text(e.comment)])
  }

  /** The events one after the other, numbered from `first`. */
  function EventsFields(es: seq<Event>, first: nat): seq<Field>
    decreases |es|
  {
    if es == [] then [] else EventFields(es[0], first) + EventsFields(es[1..], first + 1)
  }

  function SummaryFields(s: KeyEventSummary): seq<Field> {
    [Signed(s.totalLoss, 4), Signed(s.lossStart, 4), Unsigned(s.lossEnd, 4), Unsigned(s.orl, 2),
     Signed(s.orlStart, 4), Unsigned(s.orlFinish, 4)]
  }

  function KeyEventsPrefix(v: Version): seq<Field> {
    if v == V1 then [] else [Raw(KeyEventsName + [0])]
  }

  /** The layout `v` of a block: any prefix, the count, the events numbered from 1, the summary. */
  function KeyEventsFields(k: KeyEvents, v: Version): seq<Field> {
    KeyEventsPrefix(v) + ([Unsigned(|k.events|, 2)] + (EventsFields(k.events, 1) + SummaryFields(k.summary)))
  }

  lemma EventHeadParts(data: Bytes, pos: nat, h: EventHead, q1: nat, q2: nat, q3: nat, q4: nat, q5: nat, next: nat)
    requires UnsignedAt(data, pos, 2).Ok? && UnsignedAt(data, pos, 2).value.next == q1
    requires UnsignedAt(data, q1, 4) == Ok(Parsed(h.distance, q2))
    requires UnsignedAt(data, q2, 2) == Ok(Parsed(h.slope, q3))
    requires UnsignedAt(data, q3, 2) == Ok(Parsed(h.spliceLoss, q4))
    requires UnsignedAt(data, q4, 4) == Ok(Parsed(h.reflLoss, q5))
    requires Take(data, q5, 8) == h.eventType.reference && After(data, q5, 8) == next
    requires ClassifyEventCode(h.eventType.reference) == Ok(h.eventType)
    ensures EventHeadAt(data, pos) == Ok(Parsed(h, next))
  {
  }

  lemma EventHeadEncoded(data: Bytes, pos: nat, e: Event, v: Version, number: nat, more: seq<Field>, rest: Bytes) returns (next: nat)
    requires StorableEvent(e, v) && number < 0x1_0000
    requires pos <= |data| && data[pos..] == EncodeFields(EventHeadFields(e, number) + more) + rest
    ensures next <= |data|
    ensures EventHeadAt(data, pos) == Ok(Parsed(EventHead(e.distance, e.slope, e.spliceLoss, e.reflLoss, e.eventType), next))
    ensures data[next..] == EncodeFields(more) + rest
  {
    Pow256Widths();
    var f0 := EventHeadFields(e, number) + more;
    var f1 := f0[1..];
    var f2 := f1[1..];
    var f3 := f2[1..];
    var f4 := f3[1..];
    var f5 := f4[1..];
    assert f5[1..] == more;
    var q1 := UnsignedFirst(data, pos, f0, 2, rest);
    var q2 := UnsignedFirst(data, q1, f1, 4, rest);
    var q3 := UnsignedFirst(data, q2, f2, 2, rest);
    var q4 := UnsignedFirst(data, q3, f3, 2, rest);
    var q5 := UnsignedFirst(data, q4, f4, 4, rest);
    next := RawFirst(data, q5, f5, 8, rest);
    EventHeadParts(data, pos, EventHead(e.distance, e.slope, e.spliceLoss, e.reflLoss, e.eventType), q1, q2, q3, q4, q5, next);
  }

  lemma MarkersParts(data: Bytes, pos: nat, m: EventMarkers, q1: nat, q2: nat, q3: nat, q4: nat, q5: nat)
    requires UnsignedAt(data, pos, 4) == Ok(Parsed(m.endOfPrevious, q1))
    requires UnsignedAt(data, q1, 4) == Ok(Parsed(m.startOfCurrent, q2))
    requires UnsignedAt(data, q2, 4) == Ok(Parsed(m.endOfCurrent, q3))
    requires UnsignedAt(data, q3, 4) == Ok(Parsed(m.startOfNext, q4))
    requires UnsignedAt(data, q4, 4) == Ok(Parsed(m.peak, q5))
    ensures MarkersAt(data, pos) == Ok(Parsed(m, q5))
  {
  }

  lemma MarkersForEncoded(data: Bytes, pos: nat, markers: Option<EventMarkers>, v: Version, more: seq<Field>, rest: Bytes)
    returns (next: nat)
    requires (markers.Some? <==> v == V2) && (markers.Some? ==> StorableMarkers(markers.value))
    requires pos <= |data| && data[pos..] == EncodeFields(MarkerFields(markers) + more) + rest
    ensures next <= |data| && MarkersFor(data, pos, v) == Ok(Parsed(markers, next))
    ensures data[next..] == EncodeFields(more) + rest
  {
    match markers
    case None =>
      assert MarkerFields(markers) + more == more;
      next := pos;
    case Some(m) =>
      Pow256Widths();
      var f0 := MarkerFields(markers) + more;
      var f1 := f0[1..];
      var f2 := f1[1..];
      var f3 := f2[1..];
      var f4 := f3[1..];
      assert f4[1..] == more;
      var q1 := UnsignedFirst(data, pos, f0, 4, rest);
      var q2 := UnsignedFirst(data, q1, f1, 4, rest);
      var q3 := UnsignedFirst(data, q2, f2, 4, rest);
      var q4 := UnsignedFirst(data, q3, f3, 4, rest);
      next := UnsignedFirst(data, q4, f4, 4, rest);
      MarkersParts(data, pos, m, q1, q2, q3, q4, next);
  }

  lemma EventParts(data: Bytes, pos: nat, v: Version, e: Event, q1: nat, q2: nat, next: nat)
    requires EventHeadAt(data, pos) == Ok(Parsed(EventHead(e.distance, e.slope, e.spliceLoss, e.reflLoss, e.eventType), q1))
    requires MarkersFor(data, q1, v) == Ok(Parsed(e.markers, q2))
    requires StringAt(data, q2) == Ok(Parsed(e.comment, next))
    ensures EventAt(data, pos, v) == Ok(Parsed(e, next))
  {
  }

  lemma EventEncoded(data: Bytes, pos: nat, e: Event, v: Version, number: nat, more: seq<Field>, rest: Bytes) returns (next: nat)
    requires StorableEvent(e, v) && number < 0x1_0000
    requires pos <= |data| && data[pos..] == EncodeFields(EventFields(e, number) + more) + rest
    ensures next <= |data| && EventAt(data, pos, v) == Ok(Parsed(e, next))
    ensures data[next..] == EncodeFields(more) + rest
  {
    var cf := [Text(e.comment)] + more;
    var mf := MarkerFields(e.markers) + cf;
    assert EventFields(e, number) + more == EventHeadFields(e, number) + mf;
    assert cf[1..] == more;
    var q1 := EventHeadEncoded(data, pos, e, v, number, mf, rest);
    var q2 := MarkersForEncoded(data, q1, e.markers, v, cf, rest);
    next := TextFirst(data, q2, cf, rest);
    EventParts(data, pos, v, e, q1, q2, next);
  }

  /** The first of the stored events is read back, and the others follow it. */
  lemma EventsEncodedFirst(data: Bytes, pos: nat, es: seq<Event>, v: Version, first: nat, more: seq<Field>,
                           rest: Bytes) returns (next: nat)
    requires es != [] && StorableEvent(es[0], v) && first < 0x1_0000
    requires pos <= |data| && data[pos..] == EncodeFields(EventsFields(es, first) + more) + rest
    ensures next <= |data| && EventReader(data, v)(pos) == Ok(Parsed(es[0], next))
    ensures data[next..] == EncodeFields(EventsFields(es[1..], first + 1) + more) + rest
  {
    var later := EventsFields(es[1..], first + 1) + more;
    assert EventsFields(es, first) + more == EventFields(es[0], first) + later;
    next := EventEncoded(data, pos, es[0], v, first, later, rest);
  }

  /** Where the stored events start: they chain from `pos` to the fields after them. */
  lemma {:induction false} EventsEncodedEnds(data: Bytes, pos: nat, es: seq<Event>, v: Version, first: nat, more: seq<Field>,
                                             rest: Bytes) returns (ends: seq<nat>)
    requires forall i | 0 <= i < |es| :: StorableEvent(es[i], v)
    requires first + |es| <= 0x1_0000
    requires pos <= |data| && data[pos..] == EncodeFields(EventsFields(es, first) + more) + rest
    ensures Chained(EventReader(data, v), ends, es) && ends[0] == pos && ends[|es|] <= |data|
    ensures data[ends[|es|]..] == EncodeFields(more) + rest
    decreases |es|
  {
    if es == [] {
      assert EventsFields(es, first) + more == more;
      ends := [pos];
    } else {
      var q := EventsEncodedFirst(data, pos, es, v, first, more, rest);
      var tail := EventsEncodedEnds(data, q, es[1..], v, first + 1, more, rest);
      ChainedCons(EventReader(data, v), pos, es[0], tail, es[1..]);
      assert [es[0]] + es[1..] == es;
      ends := [pos] + tail;
    }
  }

  /** The stored events are read back, in order, after the events `acc`. */
  lemma EventsFromEncoded(data: Bytes, pos: nat, es: seq<Event>, v: Version, first: nat, more: seq<Field>,
                          rest: Bytes, acc: seq<Event>) returns (next: nat)
    requires forall i | 0 <= i < |es| :: StorableEvent(es[i], v)
    requires first + |es| <= 0x1_0000
    requires pos <= |data| && data[pos..] == EncodeFields(EventsFields(es, first) + more) + rest
    ensures next <= |data| && EventsFrom(data, pos, |es|, v, acc) == Ok(Parsed(acc + es, next))
    ensures data[next..] == EncodeFields(more) + rest
  {
    var ends := EventsEncodedEnds(data, pos, es, v, first, more, rest);
    RepeatChain(EventReader(data, v), ends, es, acc);
    next := ends[|es|];
  }

  lemma SummaryParts(data: Bytes, pos: nat, s: KeyEventSummary, q1: nat, q2: nat, q3: nat, q4: nat, q5: nat, q6: nat)
    requires SignedAt(data, pos, 4) == Ok(Parsed(s.totalLoss, q1))
    requires SignedAt(data, q1, 4) == Ok(Parsed(s.lossStart, q2))
    requires UnsignedAt(data, q2, 4) == Ok(Parsed(s.lossEnd, q3))
    requires UnsignedAt(data, q3, 2) == Ok(Parsed(s.orl, q4))
    requires SignedAt(data, q4, 4) == Ok(Parsed(s.orlStart, q5))
    requires UnsignedAt(data, q5, 4) == Ok(Parsed(s.orlFinish, q6))
    ensures SummaryAt(data, pos) == Ok(Parsed(s, q6))
  {
  }

  lemma SummaryEncoded(data: Bytes, pos: nat, s: KeyEventSummary, rest: Bytes) returns (next: nat)
    requires StorableSummary(s) && pos <= |data| && data[pos..] == EncodeFields(SummaryFields(s)) + rest
    ensures next == |data| - |rest| && SummaryAt(data, pos) == Ok(Parsed(s, next))
  {
    Pow256Widths();
    var f0 := SummaryFields(s);
    var f1 := f0[1..];
    var f2 := f1[1..];
    var f3 := f2[1..];
    var f4 := f3[1..];
    var f5 := f4[1..];
    var q1 := SignedFirst(data, pos, f0, 4, rest);
    var q2 := SignedFirst(data, q1, f1, 4, rest);
    var q3 := UnsignedFirst(data, q2, f2, 4, rest);
    var q4 := UnsignedFirst(data, q3, f3, 2, rest);
    var q5 := SignedFirst(data, q4, f4, 4, rest);
    next := UnsignedFirst(data, q5, f5, 4, rest);
    FieldsDone(data, next, f5[1..], rest);
    SummaryParts(data, pos, s, q1, q2, q3, q4, q5, next);
  }

  lemma KeyEventsBodyParts(data: Bytes, pos: nat, v: Version, k: KeyEvents, q1: nat, q2: nat, q3: nat)
    requires UnsignedAt(data, pos, 2) == Ok(Parsed(|k.events|, q1))
    requires EventsFrom(data, q1, |k.events|, v, []) == Ok(Parsed(k.events, q2))
    requires SummaryAt(data, q2) == Ok(Parsed(k.summary, q3))
    ensures KeyEventsBodyAt(data, pos, v) == Ok(Parsed(k, q3))
  {
  }

  lemma KeyEventsBodyEncoded(data: Bytes, pos: nat, k: KeyEvents, v: Version, rest: Bytes, end: nat)
    requires StorableKeyEvents(k, v) && pos <= |data|
    requires data[pos..] == EncodeFields([Unsigned(|k.events|, 2)] + (EventsFields(k.events, 1) + SummaryFields(k.summary))) + rest
    requires end == |data| - |rest|
    ensures KeyEventsBodyAt(data, pos, v) == Ok(Parsed(k, end))
  {
    Pow256Widths();
    var sf := SummaryFields(k.summary);
    var f0 := [Unsigned(|k.events|, 2)] + (EventsFields(k.events, 1) + sf);
    assert f0[1..] == EventsFields(k.events, 1) + sf;
    assert sf + [] == sf;
    var q1 := UnsignedFirst(data, pos, f0, 2, rest);
    var q2 := EventsFromEncoded(data, q1, k.events, v, 1, sf, rest, []);
    assert [] + k.events == k.events;
    var q3 := SummaryEncoded(data, q2, k.summary, rest);
    KeyEventsBodyParts(data, pos, v, k, q1, q2, q3);
    assert q3 == end;
    assert Ok(Parsed(k, q3)) == Ok(Parsed(k, end));
  }

  /** A block laid out by a writer in the layout `v` is read back as the record, up to `end`, where `rest` begins. */
  lemma KeyEventsEncoded(data: Bytes, pos: nat, k: KeyEvents, v: Version, rest: Bytes, end: nat)
    requires StorableKeyEvents(k, v) && pos <= |data| && data[pos..] == EncodeFields(KeyEventsFields(k, v)) + rest
    requires end == |data| - |rest|
    ensures KeyEventsAt(data, pos, v) == Ok(Parsed(k, end))
  {
    var body := [Unsigned(|k.events|, 2)] + (EventsFields(k.events, 1) + SummaryFields(k.summary));
    if v == V1 {
      assert KeyEventsFields(k, v) == body;
      KeyEventsBodyEncoded(data, pos, k, v, rest, end);
    } else {
      var fs := KeyEventsFields(k, v);
      assert fs[1..] == body;
      var q0 := BlockNameFirst(data, pos, fs, KeyEventsName, rest);
      KeyEventsBodyEncoded(data, q0, k, v, rest, end);
    }
  }

  // ----- the decoders over the shared file handle -----

  method ReadEventHead(fh: FileHandle) returns (r: Result<EventHead>)
    modifies fh
    ensures r == ValueOf(EventHeadAt(fh.data, old(fh.pos)))
    ensures r.Ok? ==> fh.pos == EventHeadAt(fh.data, old(fh.pos)).value.next
  {
    var number :- ParseUShort(fh);
    var distance :- ParseUint(fh);
    var slope :- ParseUShort(fh);
    var splice :- ParseUShort(fh);
    var refl :- ParseUint(fh);
    var code := fh.Read(8);
    var eventType :- ClassifyEventCode(code);
    r := Ok(EventHead(distance, slope, splice, refl, eventType));
  }

  method ReadMarkers(fh: FileHandle) returns (r: Result<EventMarkers>)
    modifies fh
    ensures r == ValueOf(MarkersAt(fh.data, old(fh.pos)))
    ensures r.Ok? ==> fh.pos == MarkersAt(fh.data, old(fh.pos)).value.next
  {
    var endOfPrevious :- ParseUint(fh);
    var startOfCurrent :- ParseUint(fh);
    var endOfCurrent :- ParseUint(fh);
    var startOfNext :- ParseUint(fh);
    var peak :- ParseUint(fh);
    r := Ok(EventMarkers(endOfPrevious, startOfCurrent, endOfCurrent, startOfNext, peak));
  }

  /** `_parse_events` of `KeyEventsParserV1` (v = V1) and of `KeyEventsParserV2` (v = V2). */
  method ReadEvent(fh: FileHandle, v: Version) returns (r: Result<Event>)
    modifies fh
    ensures r == ValueOf(EventAt(fh.data, old(fh.pos), v))
    ensures r.Ok? ==> EventAt(fh.data, old(fh.pos), v) == Ok(Parsed(r.value, fh.pos))
  {
    var head :- ReadEventHead(fh);
    var markers: Option<EventMarkers> := None;
    if v == V2 {
      var m :- ReadMarkers(fh);
      markers := Some(m);
    }
    var comment :- ParseString(fh);
    r := Ok(Event(comment, head.distance, head.slope, head.spliceLoss, head.reflLoss, head.eventType, markers));
  }

  lemma EventsFromStep(data: Bytes, pos: nat, n: nat, v: Version, acc: seq<Event>, e: Event, after: nat,
                       left: nat, acc': seq<Event>)
    requires n == left + 1 && acc' == acc + [e] && EventAt(data, pos, v) == Ok(Parsed(e, after))
    ensures EventsFrom(data, pos, n, v, acc) == EventsFrom(data, after, left, v, acc')
  {
    RepeatStep(EventReader(data, v), pos, n, acc, e, after, left, acc');
  }

  /** A failed event read fails the whole block with the same error. */
  lemma EventsFromStop(data: Bytes, pos: nat, n: nat, v: Version, acc: seq<Event>)
    requires n > 0 && EventAt(data, pos, v).Err?
    ensures EventsFrom(data, pos, n, v, acc) == Err(EventAt(data, pos, v).error)
  {
  }

  /** The `for` loop of `parse`: `n` events appended in the order they are read. */
  method ReadEvents(fh: FileHandle, n: nat, v: Version) returns (r: Result<seq<Event>>)
    modifies fh
    ensures r == ValueOf(EventsFrom(fh.data, old(fh.pos), n, v, []))
    ensures r.Ok? ==> fh.pos == EventsFrom(fh.data, old(fh.pos), n, v, []).value.next
  {
    var events: seq<Event> := [];
    var left := n;
    ghost var total := EventsFrom(fh.data, fh.pos, n, v, []);
    while left > 0
      invariant total == EventsFrom(fh.data, fh.pos, left, v, events)
    {
      ghost var here := fh.pos;
      var e := ReadEvent(fh, v);
      if e.Err? {
        EventsFromStop(fh.data, here, left, v, events);
        return Err(e.error);
      }
      EventsFromStep(fh.data, here, left, v, events, e.value, fh.pos, left - 1, events + [e.value]);
      events := events + [e.value];
      left := left - 1;
    }
    r := Ok(events);
  }

  method ReadSummary(fh: FileHandle) returns (r: Result<KeyEventSummary>)
    modifies fh
    ensures r == ValueOf(SummaryAt(fh.data, old(fh.pos)))
    ensures r.Ok? ==> fh.pos == SummaryAt(fh.data, old(fh.pos)).value.next
  {
    var totalLoss :- ParseInt(fh);
    var lossStart :- ParseInt(fh);
    var lossEnd :- ParseUint(fh);
    var orl :- ParseUShort(fh);
    var orlStart :- ParseInt(fh);
    var orlFinish :- ParseUint(fh);
    r := Ok(KeyEventSummary(totalLoss, lossStart, lossEnd, orl, orlStart, orlFinish));
  }

  method ReadKeyEventsBody(fh: FileHandle, v: Version) returns (r: Result<KeyEvents>)
    modifies fh
    ensures r == ValueOf(KeyEventsBodyAt(fh.data, old(fh.pos), v))
    ensures r.Ok? ==> fh.pos == KeyEventsBodyAt(fh.data, old(fh.pos), v).value.next
  {
    var count :- ParseUShort(fh);
    var events :- ReadEvents(fh, count, v);
    var summary :- ReadSummary(fh);
    r := Ok(KeyEvents(summary, events));
  }

  method ReadKeyEvents(fh: FileHandle, v: Version) returns (r: Result<KeyEvents>)
    modifies fh
    ensures r == ValueOf(KeyEventsAt(fh.data, old(fh.pos), v))
    ensures r.Ok? ==> fh.pos == KeyEventsAt(fh.data, old(fh.pos), v).value.next
  {
    if v == V2 {
      var start :- ExpectBlockName(fh, KeyEventsName);
    }
    r := ReadKeyEventsBody(fh, v);
  }

  /** `KeyEventsParserV1.parse` (v = V1) and `KeyEventsParserV2.parse` (v = V2): seek, then read. */
  method ParseKeyEvents(p: BlockParser, v: Version) returns (r: Result<KeyEvents>)
    modifies p.fh
    ensures r == ValueOf(KeyEventsAt(p.fh.data, p.startPosition, v))
  {
    p.Seek();
    r := ReadKeyEvents(p.fh, v);
  }
}
