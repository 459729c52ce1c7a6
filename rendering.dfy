/**
 * The text renderings the records use, as ASCII byte strings: a natural number in
 * decimal (`str(n)`), and a raw u16 in hundredths printed as `f"{raw * 0.01:.2f}"`.
 *
 * `raw * 0.01` is a binary float, but its error is far below the 0.005 that would
 * change the second decimal, so the printed text is exactly `raw / 100` with two
 * decimals; HundredthsText states that exact text.
 */
module Rendering {
  import opened SorTypes

  const Zero: Byte := 0x30   // '0'
  const Dot: Byte := 0x2E    // '.'

  predicate IsDigit(b: Byte) { Zero <= b <= Zero + 9 }

  predicate AllDigits(s: Bytes) { forall i | 0 <= i < |s| :: IsDigit(s[i]) }

  function DigitChar(d: nat): (b: Byte)
    requires d < 10
    ensures IsDigit(b) && b - Zero == d
  {
    Zero + d
  }

  /** `str(n)`: the decimal digits of n, most significant first, without leading zeros. */
  function DecimalText(n: nat): (s: Bytes)
    ensures |s| >= 1 && AllDigits(s)
    ensures |s| > 1 ==> s[0] != Zero
    ensures n < 10 <==> |s| == 1
  {
    if n < 10 then [DigitChar(n)] else DecimalText(n / 10) + [DigitChar(n % 10)]
  }

  /** The number a run of decimal digits stands for (`int(s)`). */
  function DecimalValue(s: Bytes): nat
    requires AllDigits(s)
  {
    if s == [] then 0 else 10 * DecimalValue(s[..|s| - 1]) + (s[|s| - 1] - Zero)
  }

  lemma {:induction false} DecimalRoundTrip(n: nat)
    ensures DecimalValue(DecimalText(n)) == n
  {
    if n >= 10 {
      var s := DecimalText(n);
      assert s[..|s| - 1] == DecimalText(n / 10);
      DecimalRoundTrip(n / 10);
    }
  }

  lemma DecimalTextInjective(m: nat, n: nat)
    requires m != n
    ensures DecimalText(m) != DecimalText(n)
  {
    DecimalRoundTrip(m);
    DecimalRoundTrip(n);
  }

  /** `f"{raw * 0.01:.2f}"`: the integer part, a dot, and exactly two decimals. */
  function HundredthsText(raw: nat): (s: Bytes)
    ensures |s| >= 4 && s[|s| - 3] == Dot
    ensures AllDigits(s[..|s| - 3]) && AllDigits(s[|s| - 2..])
  {
    DecimalText(raw / 100) + [Dot, DigitChar(raw % 100 / 10), DigitChar(raw % 100 % 10)]
  }

  /** Reads a rendering back into hundredths. */
  function HundredthsValue(s: Bytes): nat
    requires |s| >= 3 && AllDigits(s[..|s| - 3]) && AllDigits(s[|s| - 2..])
  {
    100 * DecimalValue(s[..|s| - 3]) + 10 * (s[|s| - 2] - Zero) + (s[|s| - 1] - Zero)
  }

  lemma HundredthsRoundTrip(raw: nat)
    ensures HundredthsValue(HundredthsText(raw)) == raw
  {
    var s := HundredthsText(raw);
    var r := raw % 100;
    assert raw == 100 * (raw / 100) + r;
    assert r == 10 * (r / 10) + r % 10;
    assert s[..|s| - 3] == DecimalText(raw / 100);
    DecimalRoundTrip(raw / 100);
  }

  /** Two different raw versions never print alike. */
  lemma HundredthsTextInjective(a: nat, b: nat)
    requires a != b
    ensures HundredthsText(a) != HundredthsText(b)
  {
    HundredthsRoundTrip(a);
    HundredthsRoundTrip(b);
  }

  /** A version stored as 200 is printed "2.00". */
  lemma HundredthsExample()
    ensures HundredthsText(200) == [0x32, Dot, Zero, Zero]
    ensures HundredthsText(1234) == [0x31, 0x32, Dot, 0x33, 0x34]
  {
    assert DecimalText(12) == DecimalText(1) + [DigitChar(2)];
  }
}
