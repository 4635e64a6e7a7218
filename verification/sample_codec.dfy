/**
 * The ADS1293 sample codec: three bytes read MSB first form an unsigned
 * 24-bit code, which the driver reads as a two's-complement number
 * (`signExtend24`) or, on request, as offset binary (`interpretRaw24`).
 * A nine-byte burst from DATA_CH1_ECG holds channels 1, 2 and 3 in turn.
 */
module SampleCodec {
  import opened Bits

  /*
   * The three mask facts that `signExtend24` and `interpretRaw24` rely on:
   * `& 0xFFFFFF` keeps the low 24 bits, `& 0x800000` tests bit 23, and
   * `| 0xFF000000` fills the upper byte of a 24-bit value.
   */

  lemma LowMask24(value: nat)
    ensures BitAnd(value, 0xFF_FFFF) == value % 0x100_0000
  {
    Pow2Values();
    AndLowMask(value, 24);
  }

  lemma SignBitMask(low: nat)
    requires low < 0x100_0000
    ensures BitAnd(low, 0x80_0000) != 0 <==> low >= 0x80_0000
  {
    Pow2Values();
    AndSingleBit(low, 23);
    if low >= 0x80_0000 {
      DivModUnique(low, 0x80_0000, 1, low - 0x80_0000);
      assert Bit(low, 23) == 1;
      assert BitAnd(low, 0x80_0000) == 0x80_0000;
    } else {
      DivModUnique(low, 0x80_0000, 0, low);
      assert Bit(low, 23) == 0;
      assert BitAnd(low, 0x80_0000) == 0;
    }
  }

  lemma SignFill(low: nat)
    requires low < 0x100_0000
    ensures BitOr(low, 0xFF00_0000) == low + 0xFF00_0000
  {
    Pow2Values();
    OrDisjoint(0xFF, low, 24);
  }

  lemma MaskFacts(value: nat)
    ensures BitAnd(value, 0xFF_FFFF) == value % 0x100_0000
    ensures BitAnd(value % 0x100_0000, 0x80_0000) != 0 <==> value % 0x100_0000 >= 0x80_0000
    ensures BitOr(value % 0x100_0000, 0xFF00_0000) == value % 0x100_0000 + 0xFF00_0000
  {
    LowMask24(value);
    SignBitMask(value % 0x100_0000);
    SignFill(value % 0x100_0000);
  }

  /** Bit 23 is set exactly when the low 24 bits are at least 2^23. */
  lemma Bit23(value: nat)
    ensures Bit(value, 23) == 1 <==> value % 0x100_0000 >= 0x80_0000
  {
    Pow2Values();
    var q, r := value / 0x100_0000, value % 0x100_0000;
    var h := r / 0x80_0000;
    assert h < 2 && r == h * 0x80_0000 + r % 0x80_0000;
    assert value == (2 * q + h) * 0x80_0000 + r % 0x80_0000;
    assert value / 0x80_0000 == 2 * q + h;
  }

  /**
   * `Ads1293::signExtend24`: keep the low 24 bits; when bit 23 is set, fill
   * the upper byte with ones; read the word as an `int32_t`.  The result is
   * the one number in [-2^23, 2^23) congruent to `value` modulo 2^24.
   */
  function SignExtend24(value: U32): (r: int)
    ensures -0x80_0000 <= r < 0x80_0000
    ensures r % 0x100_0000 == value % 0x100_0000
  {
    var v := value % 0x100_0000;                      // value & 0xFFFFFF
    if v >= 0x80_0000 then ToInt32(v + 0xFF00_0000)   // (v & 0x800000) != 0, v | 0xFF000000
    else ToInt32(v)
  }

  /** `SignExtend24` computes exactly the masks and the OR written in the driver. */
  lemma SignExtend24Bitwise(value: U32)
    ensures var v := BitAnd(value, 0xFF_FFFF);
            SignExtend24(value) ==
              if BitAnd(v, 0x80_0000) != 0 then ToInt32(BitOr(v, 0xFF00_0000)) else ToInt32(v)
  {
    MaskFacts(value);
  }

  /**
   * `Ads1293::interpretRaw24`: offset binary subtracts mid-scale (2^23);
   * otherwise the code is read as two's complement by subtracting 2^24 when
   * bit 23 is set.
   */
  function InterpretRaw24(raw24: U32, offsetBinary: bool): (r: int)
    ensures offsetBinary ==> r == raw24 % 0x100_0000 - 0x80_0000
    ensures !offsetBinary ==> r == SignExtend24(raw24)
  {
    var raw := raw24 % 0x100_0000;                                // raw24 &= 0xFFFFFF
    if offsetBinary then ToInt32(raw) - ToInt32(0x80_0000)        // 1 << 23
    else if raw >= 0x80_0000 then ToInt32(raw) - ToInt32(0x100_0000)  // raw & 0x800000, 1 << 24
    else ToInt32(raw)
  }

  /** `InterpretRaw24` computes exactly the masks written in the driver. */
  lemma InterpretRaw24Bitwise(raw24: U32, offsetBinary: bool)
    ensures var raw := BitAnd(raw24, 0xFF_FFFF);
            InterpretRaw24(raw24, offsetBinary) ==
              if offsetBinary then ToInt32(raw) - ToInt32(0x80_0000)
              else if BitAnd(raw, 0x80_0000) != 0 then ToInt32(raw) - ToInt32(0x100_0000)
              else ToInt32(raw)
  {
    MaskFacts(raw24);
  }

  /** The OR of the three shifted bytes adds them, since their bits do not overlap. */
  lemma AssembleFields(b0: Byte, b1: Byte, b2: Byte)
    ensures Shl32(b0, 16) == b0 * 0x1_0000 && Shl32(b1, 8) == b1 * 0x100
    ensures BitOr(Shl32(b0, 16), Shl32(b1, 8)) == b0 * 0x1_0000 + b1 * 0x100
    ensures BitOr(BitOr(Shl32(b0, 16), Shl32(b1, 8)), b2) == b0 * 0x1_0000 + b1 * 0x100 + b2
  {
    Pow2Values();
    ModBelow(b0 * 0x1_0000, 0x1_0000_0000);
    ModBelow(b1 * 0x100, 0x1_0000_0000);
    var hi, mid := Shl32(b0, 16), Shl32(b1, 8);
    assert hi == (b0 * 0x100) * 0x100;
    assert mid == b1 * 0x100;
    OrShift(hi, mid, b0 * 0x100, b1, 8);
    OrDisjointAt(b0 * 0x100, b0, b1, 8);
    OrDisjointAt(hi + mid, b0 * 0x100 + b1, b2, 8);
  }

  /**
   * `(uint32_t(b0) << 16) | (uint32_t(b1) << 8) | uint32_t(b2)`: the unsigned
   * big-endian value of three bytes, from which each byte can be read back.
   */
  function Assemble24(b0: Byte, b1: Byte, b2: Byte): (r: U32)
    ensures r < 0x100_0000
    ensures r / 0x1_0000 == b0 && (r / 0x100) % 0x100 == b1 && r % 0x100 == b2
  {
    var r := b0 * 0x1_0000 + b1 * 0x100 + b2;
    DivModUnique(r, 0x1_0000, b0, b1 * 0x100 + b2);
    DivModUnique(r, 0x100, b0 * 0x100 + b1, b2);
    DivModUnique(b0 * 0x100 + b1, 0x100, b0, b1);
    r
  }

  /** `Assemble24` computes exactly the shifts and ORs written in the driver. */
  lemma Assemble24Bitwise(b0: Byte, b1: Byte, b2: Byte)
    ensures Assemble24(b0, b1, b2) == BitOr(BitOr(Shl32(b0, 16), Shl32(b1, 8)), b2)
  {
    AssembleFields(b0, b1, b2);
  }

  /** Channel `k` (0-based) of a nine-byte burst: bytes 3k, 3k+1, 3k+2, MSB first. */
  function BurstChannel(buf: seq<Byte>, k: nat): (r: int)
    requires |buf| == 9 && k < 3
    ensures -0x80_0000 <= r < 0x80_0000
    ensures Encode24(r) == Assemble24(buf[3 * k], buf[3 * k + 1], buf[3 * k + 2])
  {
    var w := Assemble24(buf[3 * k], buf[3 * k + 1], buf[3 * k + 2]);
    SignExtend24Encode(w);
    ModBelow(w, 0x100_0000);
    SignExtend24(w)
  }

  /** The 24-bit two's-complement pattern the converter outputs for a signed code. */
  function Encode24(s: int): U32
  {
    s % 0x100_0000
  }

  /** Every 24-bit pattern decodes to a code that encodes back to it. */
  lemma SignExtend24Encode(v: U32)
    ensures Encode24(SignExtend24(v)) == v % 0x100_0000
  {
    var low, r := v % 0x100_0000, SignExtend24(v);
    if low >= 0x80_0000 {
      assert r + 0x100_0000 == low;
    } else {
      assert r == low;
    }
  }

  /** Every code in the converter's range survives encoding and decoding. */
  lemma Encode24SignExtend(s: int)
    requires -0x80_0000 <= s < 0x80_0000
    ensures SignExtend24(Encode24(s)) == s
  {
    var e := Encode24(s);
    if s < 0 {
      assert e == s + 0x100_0000;
    } else {
      assert e == s;
    }
  }

  /**
   * Casting a decoded sample back to `uint32_t` and decoding it again gives
   * the same sample.
   */
  lemma SignExtend24Stable(v: U32)
    ensures SignExtend24(ToU32(SignExtend24(v))) == SignExtend24(v)
  {
    var s := SignExtend24(v);
    assert ToU32(s) % 0x100_0000 == s % 0x100_0000;
  }

  /** A decoded sample is negative exactly when bit 23 of the raw word is set. */
  lemma SignExtend24Negative(v: U32)
    ensures SignExtend24(v) < 0 <==> Bit(v, 23) == 1
  {
    Bit23(v);
    CenteredSign(SignExtend24(v), v % 0x100_0000);
  }

  /** A number in [-2^23, 2^23) is negative exactly when its 24-bit pattern has bit 23 set. */
  lemma CenteredSign(r: int, low: int)
    requires -0x80_0000 <= r < 0x80_0000 && 0 <= low < 0x100_0000
    requires r % 0x100_0000 == low
    ensures r < 0 <==> low >= 0x80_0000
  {
    if r < 0 {
      assert r + 0x100_0000 == low;
    } else {
      assert r == low;
    }
  }

  /** Two raw words that agree in their low 24 bits decode to the same sample. */
  lemma SignExtend24Low24(v: U32, w: U32)
    requires v % 0x100_0000 == w % 0x100_0000
    ensures SignExtend24(v) == SignExtend24(w)
  {
  }

  /** The burst 12 34 56 00 00 01 FF FF FF holds 0x123456, 1 and -1. */
  lemma BurstExample(buf: seq<Byte>)
    requires buf == [0x12, 0x34, 0x56, 0x00, 0x00, 0x01, 0xFF, 0xFF, 0xFF]
    ensures BurstChannel(buf, 0) == 0x12_3456
    ensures BurstChannel(buf, 1) == 1
    ensures BurstChannel(buf, 2) == -1
  {
    var w0, w1, w2 := Assemble24(buf[0], buf[1], buf[2]), Assemble24(buf[3], buf[4], buf[5]),
                      Assemble24(buf[6], buf[7], buf[8]);
    assert w0 == 0x12_3456 && w1 == 1 && w2 == 0xFF_FFFF;
  }

  /** `adcFullscale == 0` stands for the default full scale `(1 << 23) - 1`. */
  function EffectiveFullscale(adcFullscale: int): (r: int)
    ensures r != 0
    ensures adcFullscale != 0 ==> r == adcFullscale
  {
    if adcFullscale == 0 then 0x7F_FFFF else adcFullscale
  }

  /** `Ads1293::rawToVoltage`, in exact arithmetic. */
  function RawToVoltage(signedCode: int, vref: real, adcFullscale: int, gain: real): (v: real)
    ensures signedCode == 0 ==> v == 0.0
    ensures signedCode == EffectiveFullscale(adcFullscale) ==> v == vref * gain
    ensures signedCode == -EffectiveFullscale(adcFullscale) ==> v == -(vref * gain)
  {
    (signedCode as real / EffectiveFullscale(adcFullscale) as real) * vref * gain
  }

  /** A zero full scale converts exactly as the default full scale does. */
  lemma ZeroFullscaleIsDefault(signedCode: int, vref: real, gain: real)
    ensures RawToVoltage(signedCode, vref, 0, gain) == RawToVoltage(signedCode, vref, 0x7F_FFFF, gain)
  {
  }
}
