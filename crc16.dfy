/**
 * CRC-16/CCITT-FALSE, the checksum the Cksum block stores: polynomial 0x1021
 * (ITU-T V.41), register initialised to 0xFFFF, bytes fed most significant bit
 * first, no reflection of input or output and no final XOR. Its catalogue check
 * value, the CRC of the ASCII text "123456789", is 0x29B1.
 *
 * The register is a `bv16`. A byte enters the top half of the register; the
 * conversion from an integer byte goes through its eight bits one by one (the
 * `Bits` record) so that the proof that it is injective stays small.
 */
module Crc16 {
  import opened SorTypes

  const Poly: bv16 := 0x1021
  const Init: bv16 := 0xFFFF

  // ----- a byte as eight bits -----

  datatype Bits = Bits(b7: bool, b6: bool, b5: bool, b4: bool, b3: bool, b2: bool, b1: bool, b0: bool)

  function Weight(x: bool, w: nat): nat { if x then w else 0 }

  /** The number the eight bits stand for, most significant first. */
  function BitsValue(x: Bits): nat {
    Weight(x.b7, 128) + Weight(x.b6, 64) + Weight(x.b5, 32) + Weight(x.b4, 16) +
    Weight(x.b3, 8) + Weight(x.b2, 4) + Weight(x.b1, 2) + Weight(x.b0, 1)
  }

  function Rest(b: int, w: int): int { if b >= w then b - w else b }

  /** The binary digits of `b`, found by subtracting 128, 64, ..., 1 in turn. */
  function BitsOf(b: Byte): Bits {
    var b6 := Rest(b, 128);
    var b5 := Rest(b6, 64);
    var b4 := Rest(b5, 32);
    var b3 := Rest(b4, 16);
    var b2 := Rest(b3, 8);
    var b1 := Rest(b2, 4);
    var b0 := Rest(b1, 2);
    Bits(b >= 128, b6 >= 64, b5 >= 32, b4 >= 16, b3 >= 8, b2 >= 4, b1 >= 2, b0 >= 1)
  }

  lemma RestStep(b: int, w: int)
    requires 0 <= b < 2 * w
    ensures Weight(b >= w, w) + Rest(b, w) == b && 0 <= Rest(b, w) < w
  {
  }

  /** The low four bits of BitsOf, for a value below 16. */
  lemma NibbleValue(b3: int)
    requires 0 <= b3 < 16
    ensures Weight(b3 >= 8, 8) + Weight(Rest(b3, 8) >= 4, 4) + Weight(Rest(Rest(b3, 8), 4) >= 2, 2)
            + Weight(Rest(Rest(Rest(b3, 8), 4), 2) >= 1, 1) == b3
  {
  }

  lemma BitsOfValue(b: Byte)
    ensures BitsValue(BitsOf(b)) == b
  {
    var b6 := Rest(b, 128);
    var b5 := Rest(b6, 64);
    var b4 := Rest(b5, 32);
    var b3 := Rest(b4, 16);
    RestStep(b, 128);
    RestStep(b6, 64);
    RestStep(b5, 32);
    RestStep(b4, 16);
    NibbleValue(b3);
  }

  // ----- a byte in the top half of the register -----

  function Mask(on: bool, m: bv16): bv16 { if on then m else 0 }

  /** The eight bits placed in register bits 15..8. */
  function Assemble(x: Bits): bv16 {
    Mask(x.b7, 0x8000) | Mask(x.b6, 0x4000) | Mask(x.b5, 0x2000) | Mask(x.b4, 0x1000) |
    Mask(x.b3, 0x0800) | Mask(x.b2, 0x0400) | Mask(x.b1, 0x0200) | Mask(x.b0, 0x0100)
  }

  /** Register bits 15..8. */
  function HighBits(x: bv16): Bits {
    Bits(x & 0x8000 != 0, x & 0x4000 != 0, x & 0x2000 != 0, x & 0x1000 != 0,
         x & 0x0800 != 0, x & 0x0400 != 0, x & 0x0200 != 0, x & 0x0100 != 0)
  }

  /** Register bits 7..0. */
  function LowBits(x: bv16): Bits {
    Bits(x & 0x80 != 0, x & 0x40 != 0, x & 0x20 != 0, x & 0x10 != 0,
         x & 0x08 != 0, x & 0x04 != 0, x & 0x02 != 0, x & 0x01 != 0)
  }

  lemma AssembleBits(x: Bits)
    ensures HighBits(Assemble(x)) == x
  {
    var a := Assemble(x);
    assert a & 0x8000 != 0 <==> x.b7;
    assert a & 0x4000 != 0 <==> x.b6;
    assert a & 0x2000 != 0 <==> x.b5;
    assert a & 0x1000 != 0 <==> x.b4;
    assert a & 0x0800 != 0 <==> x.b3;
    assert a & 0x0400 != 0 <==> x.b2;
    assert a & 0x0200 != 0 <==> x.b1;
    assert a & 0x0100 != 0 <==> x.b0;
  }

  /** `b << 8` as a register value. */
  function HighByte(b: Byte): bv16 {
    Assemble(BitsOf(b))
  }

  lemma HighByteInjective(a: Byte, b: Byte)
    requires a != b
    ensures HighByte(a) != HighByte(b)
  {
    BitsOfValue(a);
    BitsOfValue(b);
    AssembleBits(BitsOf(a));
    AssembleBits(BitsOf(b));
  }

  lemma BitsValueBound(x: Bits)
    ensures BitsValue(x) < 256
  {
  }

  /** The unsigned integer a register holds. */
  function RegisterValue(x: bv16): (v: nat)
    ensures v < 0x1_0000
  {
    BitsValueBound(HighBits(x));
    BitsValueBound(LowBits(x));
    256 * BitsValue(HighBits(x)) + BitsValue(LowBits(x))
  }

  lemma BitsValueInjective(a: Bits, b: Bits)
    requires a != b
    ensures BitsValue(a) != BitsValue(b)
  {
  }

  lemma BitsDetermineRegister(x: bv16, y: bv16)
    requires HighBits(x) == HighBits(y) && LowBits(x) == LowBits(y)
    ensures x == y
  {
  }

  lemma PairInjective(h1: nat, l1: nat, h2: nat, l2: nat)
    requires h1 != h2 && l1 < 256 && l2 < 256
    ensures 256 * h1 + l1 != 256 * h2 + l2
  {
  }

  lemma RegisterValueInjective(x: bv16, y: bv16)
    requires x != y
    ensures RegisterValue(x) != RegisterValue(y)
  {
    if HighBits(x) != HighBits(y) {
      BitsValueInjective(HighBits(x), HighBits(y));
      BitsValueBound(LowBits(x));
      BitsValueBound(LowBits(y));
      PairInjective(BitsValue(HighBits(x)), BitsValue(LowBits(x)), BitsValue(HighBits(y)), BitsValue(LowBits(y)));
    } else {
      if LowBits(x) == LowBits(y) {
        BitsDetermineRegister(x, y);
      }
      BitsValueInjective(LowBits(x), LowBits(y));
    }
  }

  // ----- the shift register -----

  /** One bit of polynomial division: shift left, and subtract the polynomial when a 1 falls out. */
  function BitStep(x: bv16): bv16 {
    if x & 0x8000 != 0 then (x << 1) ^ Poly else x << 1
  }

  /** Undoes BitStep: the low bit of the result says whether the polynomial was subtracted. */
  function BitStepInverse(y: bv16): bv16 {
    if y & 1 != 0 then ((y ^ Poly) >> 1) | 0x8000 else y >> 1
  }

  lemma BitStepInverseHigh(x: bv16)
    requires x & 0x8000 != 0
    ensures BitStepInverse((x << 1) ^ Poly) == x
  {
  }

  lemma BitStepInverseLow(x: bv16)
    requires x & 0x8000 == 0
    ensures BitStepInverse(x << 1) == x
  {
  }

  lemma BitStepInverts(x: bv16)
    ensures BitStepInverse(BitStep(x)) == x
  {
    if x & 0x8000 != 0 {
      BitStepInverseHigh(x);
    } else {
      BitStepInverseLow(x);
    }
  }

  lemma BitStepInjective(x: bv16, y: bv16)
    requires x != y
    ensures BitStep(x) != BitStep(y)
  {
    BitStepInverts(x);
    BitStepInverts(y);
  }

  /** `k` bit steps. */
  function Shifts(x: bv16, k: nat): bv16
    decreases k
  {
    if k == 0 then x else Shifts(BitStep(x), k - 1)
  }

  lemma {:induction false} ShiftsInjective(x: bv16, y: bv16, k: nat)
    requires x != y
    ensures Shifts(x, k) != Shifts(y, k)
    decreases k
  {
    if k > 0 {
      BitStepInjective(x, y);
      ShiftsInjective(BitStep(x), BitStep(y), k - 1);
    }
  }

  /** The register after byte `b` (the table-free form of crcmod's update for one byte). */
  function ByteStep(crc: bv16, b: Byte): bv16 {
    Shifts(crc ^ HighByte(b), 8)
  }

  /** The register after feeding `s` to a register holding `r`. */
  function CrcFrom(r: bv16, s: Bytes): bv16
    decreases |s|
  {
    if s == [] then r else CrcFrom(ByteStep(r, s[0]), s[1..])
  }

  /** CRC-16/CCITT-FALSE of `s`. */
  function Crc(s: Bytes): bv16 {
    CrcFrom(Init, s)
  }

  /** The CRC as the integer crcmod's `crcValue` reports. */
  function CrcValue(s: Bytes): (v: nat)
    ensures v < 0x1_0000
  {
    RegisterValue(Crc(s))
  }

  // ----- properties -----

  /** Feeding two runs one after the other is feeding their concatenation. */
  lemma {:induction false} CrcFromAppend(r: bv16, s: Bytes, t: Bytes)
    ensures CrcFrom(r, s + t) == CrcFrom(CrcFrom(r, s), t)
    decreases |s|
  {
    if s == [] {
      assert s + t == t;
    } else {
      assert (s + t)[0] == s[0] && (s + t)[1..] == s[1..] + t;
      CrcFromAppend(ByteStep(r, s[0]), s[1..], t);
    }
  }

  /** Different registers stay different whatever bytes follow. */
  lemma {:induction false} CrcFromInjective(r1: bv16, r2: bv16, s: Bytes)
    requires r1 != r2
    ensures CrcFrom(r1, s) != CrcFrom(r2, s)
    decreases |s|
  {
    if s != [] {
      ByteStepRegisterInjective(r1, r2, s[0]);
      CrcFromInjective(ByteStep(r1, s[0]), ByteStep(r2, s[0]), s[1..]);
    }
  }

  lemma ByteStepRegisterInjective(r1: bv16, r2: bv16, b: Byte)
    requires r1 != r2
    ensures ByteStep(r1, b) != ByteStep(r2, b)
  {
    ShiftsInjective(r1 ^ HighByte(b), r2 ^ HighByte(b), 8);
  }

  lemma ByteStepInjective(r: bv16, a: Byte, b: Byte)
    requires a != b
    ensures ByteStep(r, a) != ByteStep(r, b)
  {
    HighByteInjective(a, b);
    ShiftsInjective(r ^ HighByte(a), r ^ HighByte(b), 8);
  }

  /**
   * A CRC detects every change of a single byte: two runs of equal length that
   * differ in exactly one position have different CRCs.
   */
  lemma CrcFromSingle(r: bv16, b: Byte)
    ensures CrcFrom(r, [b]) == ByteStep(r, b)
  {
    assert [b][1..] == [];
  }

  /** The CRC of `p`, then byte `c`, then `q`, taken apart at `c`. */
  lemma CrcAround(p: Bytes, c: Byte, q: Bytes)
    ensures Crc(p + [c] + q) == CrcFrom(ByteStep(Crc(p), c), q)
  {
    CrcFromAppend(Init, p + [c], q);
    CrcFromAppend(Init, p, [c]);
    CrcFromSingle(Crc(p), c);
  }

  /**
   * A CRC detects every change of a single byte: two runs of equal length that
   * differ in exactly one position have different CRCs.
   */
  lemma SingleByteChangeDetected(s: Bytes, k: nat, b: Byte)
    requires k < |s| && s[k] != b
    ensures Crc(s[k := b]) != Crc(s)
    ensures CrcValue(s[k := b]) != CrcValue(s)
  {
    var p, q := s[..k], s[k + 1..];
    assert s == p + [s[k]] + q;
    assert s[k := b] == p + [b] + q;
    CrcAround(p, s[k], q);
    CrcAround(p, b, q);
    ByteStepInjective(Crc(p), b, s[k]);
    CrcFromInjective(ByteStep(Crc(p), b), ByteStep(Crc(p), s[k]), q);
    RegisterValueInjective(Crc(s[k := b]), Crc(s));
  }

  // The check value, one byte at a time; each step lists the register after every bit.

  lemma CheckStep1()
    ensures ByteStep(0xFFFF, 0x31) == 0xC782
  {
    assert HighByte(0x31) == 0x3100;
    assert BitStep(0xCEFF) == 0x8DDF;
    assert BitStep(0x8DDF) == 0x0B9F;
    assert BitStep(0x0B9F) == 0x173E;
    assert BitStep(0x173E) == 0x2E7C;
    assert BitStep(0x2E7C) == 0x5CF8;
    assert BitStep(0x5CF8) == 0xB9F0;
    assert BitStep(0xB9F0) == 0x63C1;
    assert BitStep(0x63C1) == 0xC782;
    assert Shifts(0xCEFF, 8) == Shifts(0x0B9F, 6);
    assert Shifts(0x0B9F, 6) == Shifts(0x2E7C, 4);
    assert Shifts(0x2E7C, 4) == Shifts(0xB9F0, 2);
  }

  lemma CheckStep2()
    ensures ByteStep(0xC782, 0x32) == 0x3DBA
  {
    assert HighByte(0x32) == 0x3200;
    assert BitStep(0xF582) == 0xFB25;
    assert BitStep(0xFB25) == 0xE66B;
    assert BitStep(0xE66B) == 0xDCF7;
    assert BitStep(0xDCF7) == 0xA9CF;
    assert BitStep(0xA9CF) == 0x43BF;
    assert BitStep(0x43BF) == 0x877E;
    assert BitStep(0x877E) == 0x1EDD;
    assert BitStep(0x1EDD) == 0x3DBA;
    assert Shifts(0xF582, 8) == Shifts(0xE66B, 6);
    assert Shifts(0xE66B, 6) == Shifts(0xA9CF, 4);
    assert Shifts(0xA9CF, 4) == Shifts(0x877E, 2);
  }

  lemma CheckStep3()
    ensures ByteStep(0x3DBA, 0x33) == 0x5BCE
  {
    assert HighByte(0x33) == 0x3300;
    assert BitStep(0x0EBA) == 0x1D74;
    assert BitStep(0x1D74) == 0x3AE8;
    assert BitStep(0x3AE8) == 0x75D0;
    assert BitStep(0x75D0) == 0xEBA0;
    assert BitStep(0xEBA0) == 0xC761;
    assert BitStep(0xC761) == 0x9EE3;
    assert BitStep(0x9EE3) == 0x2DE7;
    assert BitStep(0x2DE7) == 0x5BCE;
    assert Shifts(0x0EBA, 8) == Shifts(0x3AE8, 6);
    assert Shifts(0x3AE8, 6) == Shifts(0xEBA0, 4);
    assert Shifts(0xEBA0, 4) == Shifts(0x9EE3, 2);
  }

  lemma CheckStep4()
    ensures ByteStep(0x5BCE, 0x34) == 0x5349
  {
    assert HighByte(0x34) == 0x3400;
    assert BitStep(0x6FCE) == 0xDF9C;
    assert BitStep(0xDF9C) == 0xAF19;
    assert BitStep(0xAF19) == 0x4E13;
    assert BitStep(0x4E13) == 0x9C26;
    assert BitStep(0x9C26) == 0x286D;
    assert BitStep(0x286D) == 0x50DA;
    assert BitStep(0x50DA) == 0xA1B4;
    assert BitStep(0xA1B4) == 0x5349;
    assert Shifts(0x6FCE, 8) == Shifts(0xAF19, 6);
    assert Shifts(0xAF19, 6) == Shifts(0x9C26, 4);
    assert Shifts(0x9C26, 4) == Shifts(0x50DA, 2);
  }

  lemma CheckStep5()
    ensures ByteStep(0x5349, 0x35) == 0x4560
  {
    assert HighByte(0x35) == 0x3500;
    assert BitStep(0x6649) == 0xCC92;
    assert BitStep(0xCC92) == 0x8905;
    assert BitStep(0x8905) == 0x022B;
    assert BitStep(0x022B) == 0x0456;
    assert BitStep(0x0456) == 0x08AC;
    assert BitStep(0x08AC) == 0x1158;
    assert BitStep(0x1158) == 0x22B0;
    assert BitStep(0x22B0) == 0x4560;
    assert Shifts(0x6649, 8) == Shifts(0x8905, 6);
    assert Shifts(0x8905, 6) == Shifts(0x0456, 4);
    assert Shifts(0x0456, 4) == Shifts(0x1158, 2);
  }

  lemma CheckStep6()
    ensures ByteStep(0x4560, 0x36) == 0x2EF4
  {
    assert HighByte(0x36) == 0x3600;
    assert BitStep(0x7360) == 0xE6C0;
    assert BitStep(0xE6C0) == 0xDDA1;
    assert BitStep(0xDDA1) == 0xAB63;
    assert BitStep(0xAB63) == 0x46E7;
    assert BitStep(0x46E7) == 0x8DCE;
    assert BitStep(0x8DCE) == 0x0BBD;
    assert BitStep(0x0BBD) == 0x177A;
    assert BitStep(0x177A) == 0x2EF4;
    assert Shifts(0x7360, 8) == Shifts(0xDDA1, 6);
    assert Shifts(0xDDA1, 6) == Shifts(0x46E7, 4);
    assert Shifts(0x46E7, 4) == Shifts(0x0BBD, 2);
  }

  lemma CheckStep7()
    ensures ByteStep(0x2EF4, 0x37) == 0x7718
  {
    assert HighByte(0x37) == 0x3700;
    assert BitStep(0x19F4) == 0x33E8;
    assert BitStep(0x33E8) == 0x67D0;
    assert BitStep(0x67D0) == 0xCFA0;
    assert BitStep(0xCFA0) == 0x8F61;
    assert BitStep(0x8F61) == 0x0EE3;
    assert BitStep(0x0EE3) == 0x1DC6;
    assert BitStep(0x1DC6) == 0x3B8C;
    assert BitStep(0x3B8C) == 0x7718;
    assert Shifts(0x19F4, 8) == Shifts(0x67D0, 6);
    assert Shifts(0x67D0, 6) == Shifts(0x8F61, 4);
    assert Shifts(0x8F61, 4) == Shifts(0x1DC6, 2);
  }

  lemma CheckStep8()
    ensures ByteStep(0x7718, 0x38) == 0xA12B
  {
    assert HighByte(0x38) == 0x3800;
    assert BitStep(0x4F18) == 0x9E30;
    assert BitStep(0x9E30) == 0x2C41;
    assert BitStep(0x2C41) == 0x5882;
    assert BitStep(0x5882) == 0xB104;
    assert BitStep(0xB104) == 0x7229;
    assert BitStep(0x7229) == 0xE452;
    assert BitStep(0xE452) == 0xD885;
    assert BitStep(0xD885) == 0xA12B;
    assert Shifts(0x4F18, 8) == Shifts(0x2C41, 6);
    assert Shifts(0x2C41, 6) == Shifts(0xB104, 4);
    assert Shifts(0xB104, 4) == Shifts(0xE452, 2);
  }

  lemma CheckStep9()
    ensures ByteStep(0xA12B, 0x39) == 0x29B1
  {
    assert HighByte(0x39) == 0x3900;
    assert BitStep(0x982B) == 0x2077;
    assert BitStep(0x2077) == 0x40EE;
    assert BitStep(0x40EE) == 0x81DC;
    assert BitStep(0x81DC) == 0x1399;
    assert BitStep(0x1399) == 0x2732;
    assert BitStep(0x2732) == 0x4E64;
    assert BitStep(0x4E64) == 0x9CC8;
    assert BitStep(0x9CC8) == 0x29B1;
    assert Shifts(0x982B, 8) == Shifts(0x40EE, 6);
    assert Shifts(0x40EE, 6) == Shifts(0x1399, 4);
    assert Shifts(0x1399, 4) == Shifts(0x4E64, 2);
  }

  lemma CheckTail9(t: Bytes)
    requires t == [0x39]
    ensures CrcFrom(0xA12B, t) == 0x29B1
  {
    CheckStep9();
    assert t[1..] == [];
  }

  lemma CheckTail8(t: Bytes)
    requires t == [0x38, 0x39]
    ensures CrcFrom(0x7718, t) == 0x29B1
  {
    CheckStep8();
    CheckTail9(t[1..]);
  }

  lemma CheckTail7(t: Bytes)
    requires t == [0x37, 0x38, 0x39]
    ensures CrcFrom(0x2EF4, t) == 0x29B1
  {
    CheckStep7();
    CheckTail8(t[1..]);
  }

  lemma CheckTail6(t: Bytes)
    requires t == [0x36, 0x37, 0x38, 0x39]
    ensures CrcFrom(0x4560, t) == 0x29B1
  {
    CheckStep6();
    CheckTail7(t[1..]);
  }

  lemma CheckTail5(t: Bytes)
    requires t == [0x35, 0x36, 0x37, 0x38, 0x39]
    ensures CrcFrom(0x5349, t) == 0x29B1
  {
    CheckStep5();
    CheckTail6(t[1..]);
  }

  lemma CheckTail4(t: Bytes)
    requires t == [0x34, 0x35, 0x36, 0x37, 0x38, 0x39]
    ensures CrcFrom(0x5BCE, t) == 0x29B1
  {
    CheckStep4();
    CheckTail5(t[1..]);
  }

  lemma CheckTail3(t: Bytes)
    requires t == [0x33, 0x34, 0x35, 0x36, 0x37, 0x38, 0x39]
    ensures CrcFrom(0x3DBA, t) == 0x29B1
  {
    CheckStep3();
    CheckTail4(t[1..]);
  }

  lemma CheckTail2(t: Bytes)
    requires t == [0x32, 0x33, 0x34, 0x35, 0x36, 0x37, 0x38, 0x39]
    ensures CrcFrom(0xC782, t) == 0x29B1
  {
    CheckStep2();
    CheckTail3(t[1..]);
  }

  lemma CheckTail1(t: Bytes)
    requires t == [0x31, 0x32, 0x33, 0x34, 0x35, 0x36, 0x37, 0x38, 0x39]
    ensures CrcFrom(0xFFFF, t) == 0x29B1
  {
    CheckStep1();
    CheckTail2(t[1..]);
  }

  /** CRC-16/CCITT-FALSE of the ASCII text "123456789" is 0x29B1. */
  lemma CheckValue(s: Bytes)
    requires s == [0x31, 0x32, 0x33, 0x34, 0x35, 0x36, 0x37, 0x38, 0x39]
    ensures Crc(s) == 0x29B1
  {
    CheckTail1(s);
  }

  /**
   * crcmod's `update` over a buffer: the register is updated in place once per byte.
   */
  method ComputeCrc(s: Bytes) returns (crc: bv16)
    ensures crc == Crc(s)
  {
    crc := Init;
    var i := 0;
    while i < |s|
      invariant 0 <= i <= |s|
      invariant CrcFrom(crc, s[i..]) == Crc(s)
    {
      assert s[i..][1..] == s[i + 1..];
      crc := ByteStep(crc, s[i]);
      i := i + 1;
    }
  }
}
