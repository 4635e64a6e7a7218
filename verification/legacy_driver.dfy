/**
 * The older `ads1293` driver: a chip-select pin and a data-ready pin on
 * the one global SPI bus.  Register accesses are framed by chip select
 * alone, with no SPI transaction around them; a sample is read one
 * register at a time; the set-up writes the same twelve registers, with
 * the same values and in the same order, as `begin3LeadECG`.
 */
module LegacyDriver {
  import opened Bits
  import opened Bus
  import opened Transactions
  import RegisterMap
  import SampleCodec
  import Driver
  import DriverFacts
  import LegacyMap

  /** The events of `ads1293WriteRegister`: select, write command, value, deselect. */
  function LegacyWriteFrame(cs: Byte, w: RegWrite): seq<Event>
  {
    [Pin(cs, Low), Xfer(RegisterMap.WriteCommand(w.addr), 0), Xfer(w.value, 0), Pin(cs, High)]
  }

  /** The bus after `ads1293WriteRegister`: its frame on the trace, the value in its register. */
  function LegacyAfterWrite(s: BusState, cs: Byte, w: RegWrite): BusState
  {
    BusState(s.trace + LegacyWriteFrame(cs, w), Chip(s.chip.regs[Target(w.addr) := w.value], Idle))
  }

  /** The bus after `ads1293ReadRegister`: its frame on the trace, the registers untouched. */
  function LegacyAfterRead(s: BusState, cs: Byte, addr: Byte): BusState
  {
    BusState(s.trace + [Pin(cs, Low), Xfer(RegisterMap.ReadCommand(addr), 0), Xfer(0, s.chip.regs[Target(addr)]), Pin(cs, High)],
             Chip(s.chip.regs, Idle))
  }

  /** The bus after a list of legacy writes, issued in order. */
  function LegacyWrites(s: BusState, cs: Byte, ws: seq<RegWrite>): BusState
  {
    if ws == [] then s else LegacyAfterWrite(LegacyWrites(s, cs, ws[..|ws| - 1]), cs, ws[|ws| - 1])
  }

  /** A legacy write frame is the current driver's frame without the transaction around it. */
  lemma LegacyFrameInsideTransaction(cs: Byte, w: RegWrite)
    ensures WriteFrame(cs, w) == [BeginTx] + LegacyWriteFrame(cs, w) + [EndTx]
  {
  }

  /**
   * Legacy writes leave the device exactly as the current driver's writes
   * of the same list do; only the trace differs.
   */
  lemma {:induction false} LegacyWritesSameChip(s: BusState, cs: Byte, ws: seq<RegWrite>)
    ensures LegacyWrites(s, cs, ws).chip == Writes(s, cs, ws).chip
    decreases |ws|
  {
    if ws != [] {
      LegacyWritesSameChip(s, cs, ws[..|ws| - 1]);
    }
  }

  /** The bus after the first k set-up writes, one write at a time. */
  function BeginAfter(s0: BusState, cs: Byte, k: nat): BusState
    requires k <= 12
  {
    if k == 0 then s0 else LegacyAfterWrite(BeginAfter(s0, cs, k - 1), cs, Driver.ThreeLeadStep(k - 1))
  }

  lemma BeginNext(s0: BusState, cs: Byte, k: nat, s: BusState)
    requires k < 12 && s == BeginAfter(s0, cs, k)
    ensures LegacyAfterWrite(s, cs, Driver.ThreeLeadStep(k)) == BeginAfter(s0, cs, k + 1)
  {
  }

  /** The first k set-up writes, one at a time, are the first k writes of `begin3LeadECG`. */
  lemma {:induction false} BeginAfterPrefix(s0: BusState, cs: Byte, k: nat)
    requires k <= 12
    ensures BeginAfter(s0, cs, k) == LegacyWrites(s0, cs, Driver.THREE_LEAD[..k])
  {
    if k > 0 {
      BeginAfterPrefix(s0, cs, k - 1);
      var ws := Driver.THREE_LEAD[..k];
      assert ws[..k - 1] == Driver.THREE_LEAD[..k - 1];
      assert ws[k - 1] == Driver.ThreeLeadStep(k - 1);
    } else {
      assert Driver.THREE_LEAD[..0] == [];
    }
  }

  lemma BeginAll(s0: BusState, cs: Byte)
    ensures BeginAfter(s0, cs, 12) == LegacyWrites(s0, cs, Driver.THREE_LEAD)
  {
    BeginAfterPrefix(s0, cs, 12);
    assert Driver.THREE_LEAD[..12] == Driver.THREE_LEAD;
  }

  /** `channel < 1 || channel > 3` falls back to channel 1; the 0-based channel. */
  function LegacyChannel(channel: Byte): (c: nat)
    ensures c < 3
    ensures 1 <= channel <= 3 ==> c == channel - 1
    ensures !(1 <= channel <= 3) ==> c == 0
  {
    if channel < 1 || channel > 3 then 0 else channel - 1
  }

  /** `0x37 + (c * 3)`, `0x38 + (c * 3)`, `0x39 + (c * 3)`: byte i of 0-based channel c's sample, MSB first. */
  function SampleAddr(c: nat, i: nat): (a: Byte)
    requires c < 3 && i < 3
    ensures a == Driver.DATA_CH1_ECG + 3 * c + i && a < 0x80
  {
    0x37 + i + c * 3
  }

  /** The bus after the three single-register reads of channel c's sample. */
  function ThreeReads(s: BusState, cs: Byte, c: nat): BusState
    requires c < 3
  {
    LegacyAfterRead(LegacyAfterRead(LegacyAfterRead(s, cs, SampleAddr(c, 0)), cs, SampleAddr(c, 1)), cs, SampleAddr(c, 2))
  }

  /** The value `getECGdata` returns for the three bytes it reads: the MSB plays no part. */
  function LegacyValue(b0: Byte, b1: Byte, b2: Byte): (r: int)
    ensures 0 <= r < 0x1_0000 && r / 0x100 == b1 && r % 0x100 == b2
  {
    DivModUnique(b1 * 0x100 + b2, 0x100, b1, b2);
    b1 * 0x100 + b2
  }

  /** `(int32_t)(t << 8) >> 8` on a 24-bit value: the sign extension of bit 23. */
  lemma ShiftSignExtend(t: U32)
    requires t < 0x100_0000
    ensures Shl32(t, 8) == t * 0x100
    ensures Asr(ToInt32(Shl32(t, 8)), 8) == SampleCodec.SignExtend24(t)
  {
    Pow2Values();
    var u := t * 0x100;
    ModBelow(u, 0x1_0000_0000);
    ModBelow(t, 0x100_0000);
    if t < 0x80_0000 {
      assert ToInt32(u) == u;
      DivModUnique(u, 0x100, t, 0);
    } else {
      var s := t - 0x100_0000;
      assert ToInt32(u) == s * 0x100;
      DivModUnique(s * 0x100, 0x100, s, 0);
      ModBelow(t + 0xFF00_0000, 0x1_0000_0000);
    }
  }

  /** A value below 2^23 is its own sign extension. */
  lemma SignExtendSmall(t: U32)
    requires t < 0x80_0000
    ensures SampleCodec.SignExtend24(t) == t
  {
  }

  /**
   * The word `getECGdata` builds: `raw1 << 8`, ORed with `raw2`, shifted
   * left by 8, read as `int32_t` and shifted back.  The MSB never enters it.
   */
  lemma AsWrittenSteps(raw0: Byte, raw1: Byte, raw2: Byte)
    ensures BitOr(Shl32(raw1, 8), raw2) < 0x100_0000
    ensures Asr(ToInt32(Shl32(BitOr(Shl32(raw1, 8), raw2), 8)), 8) == LegacyValue(raw0, raw1, raw2)
  {
    SampleCodec.AssembleFields(0, raw1, raw2);
    OrZero(Shl32(raw1, 8));
    var t := BitOr(Shl32(raw1, 8), raw2);
    assert t == raw1 * 0x100 + raw2 < 0x80_0000;
    ShiftSignExtend(t);
    SignExtendSmall(t);
  }

  /** The same word with `|=` on the second assignment: all three bytes, sign-extended. */
  lemma FixedSteps(raw0: Byte, raw1: Byte, raw2: Byte)
    ensures BitOr(Shl32(raw0, 16), Shl32(raw1, 8)) < 0x100_0000
    ensures BitOr(BitOr(Shl32(raw0, 16), Shl32(raw1, 8)), raw2) < 0x100_0000
    ensures Asr(ToInt32(Shl32(BitOr(BitOr(Shl32(raw0, 16), Shl32(raw1, 8)), raw2), 8)), 8) ==
            SampleCodec.SignExtend24(SampleCodec.Assemble24(raw0, raw1, raw2))
  {
    SampleCodec.AssembleFields(raw0, raw1, raw2);
    var t := BitOr(BitOr(Shl32(raw0, 16), Shl32(raw1, 8)), raw2);
    assert t == SampleCodec.Assemble24(raw0, raw1, raw2);
    ShiftSignExtend(t);
  }

  /** What `getECGdata` returns is an unsigned 16-bit number, never negative. */
  lemma LegacyValueRange(b0: Byte, b1: Byte, b2: Byte)
    ensures 0 <= LegacyValue(b0, b1, b2) <= 0xFFFF
    ensures LegacyValue(b0, b1, b2) == Assemble24Low16(b0, b1, b2)
  {
  }

  /** The low 16 bits of the assembled code. */
  function Assemble24Low16(b0: Byte, b1: Byte, b2: Byte): int
  {
    SampleCodec.Assemble24(b0, b1, b2) % 0x1_0000
  }

  /**
   * `getECGdata` agrees with the sign-extended 24-bit sample exactly when
   * the MSB it drops is zero.
   */
  lemma LegacyValueAgrees(b0: Byte, b1: Byte, b2: Byte)
    ensures LegacyValue(b0, b1, b2) == SampleCodec.SignExtend24(SampleCodec.Assemble24(b0, b1, b2)) <==> b0 == 0
  {
    var a := SampleCodec.Assemble24(b0, b1, b2);
    var v := LegacyValue(b0, b1, b2);
    if b0 == 0 {
      assert a == v;
      SignExtendSmall(a);
    }
  }

  /** An input that shows the dropped MSB: 01 00 00, the sample 65536, comes out as 0. */
  lemma LegacyDropsMsb(b0: Byte, b1: Byte, b2: Byte)
    requires b0 == 0x01 && b1 == 0x00 && b2 == 0x00
    ensures LegacyValue(b0, b1, b2) == 0
    ensures SampleCodec.SignExtend24(SampleCodec.Assemble24(b0, b1, b2)) == 0x1_0000
  {
    SignExtendSmall(SampleCodec.Assemble24(b0, b1, b2));
  }

  /** A negative sample comes out positive: FF FF FF, the sample -1, comes out as 65535. */
  lemma LegacyLosesSign(b0: Byte, b1: Byte, b2: Byte)
    requires b0 == 0xFF && b1 == 0xFF && b2 == 0xFF
    ensures LegacyValue(b0, b1, b2) == 0xFFFF
    ensures SampleCodec.SignExtend24(SampleCodec.Assemble24(b0, b1, b2)) == -1
  {
    var a := SampleCodec.Assemble24(b0, b1, b2);
    assert a == 0xFF_FFFF;
    assert ToInt32(a + 0xFF00_0000) == -1;
  }

  /**
   * The corrected read of a channel in 1..3 decodes the same bytes as the
   * current driver's nine-byte burst, to the same value.
   */
  lemma FixedMatchesBurst(regs: RegFile, channel: Byte)
    requires 1 <= channel <= 3
    ensures var c := LegacyChannel(channel);
            SampleCodec.SignExtend24(SampleCodec.Assemble24(regs[SampleAddr(c, 0)], regs[SampleAddr(c, 1)], regs[SampleAddr(c, 2)])) ==
            SampleCodec.BurstChannel(Driver.SampleBytes(regs), c)
  {
    var c := LegacyChannel(channel);
    SampleByteAt(regs, c, 0);
    SampleByteAt(regs, c, 1);
    SampleByteAt(regs, c, 2);
  }

  /** Byte i of channel c's sample sits at position 3c + i of the nine-byte burst. */
  lemma SampleByteAt(regs: RegFile, c: nat, i: nat)
    requires c < 3 && i < 3
    ensures Driver.SampleBytes(regs)[3 * c + i] == regs[SampleAddr(c, i)]
  {
    assert Advance(Driver.DATA_CH1_ECG, 3 * c + i) == SampleAddr(c, i);
  }

  /** `ads1293Begin` leaves the device exactly as `begin3LeadECG` does. */
  lemma BeginSameDevice(s: BusState, cs: Byte)
    ensures LegacyWrites(s, cs, Driver.THREE_LEAD).chip == Writes(s, cs, Driver.THREE_LEAD).chip
  {
    LegacyWritesSameChip(s, cs, Driver.THREE_LEAD);
  }

  /** Calling `ads1293Begin` a second time leaves the register file as the first call left it. */
  lemma BeginIdempotent(s: BusState, cs: Byte)
    ensures var s1 := LegacyWrites(s, cs, Driver.THREE_LEAD);
            LegacyWrites(s1, cs, Driver.THREE_LEAD).chip.regs == s1.chip.regs
  {
    var s1 := LegacyWrites(s, cs, Driver.THREE_LEAD);
    LegacyWritesSameChip(s, cs, Driver.THREE_LEAD);
    DriverFacts.ThreeLeadIdempotent(s, s1, cs);
    LegacyWritesSameChip(s1, cs, Driver.THREE_LEAD);
  }

  class LegacyAds1293 {
    const drdyPin: Byte
    const csPin: Byte
    /** The global `SPI` bus, with the device on it. */
    const hw: Hardware

    /** `ads1293(drdy, chipSelect)`: stores the two pins and nothing else. */
    constructor(drdy: Byte, chipSelect: Byte, hw: Hardware)
      ensures csPin == chipSelect && drdyPin == drdy && this.hw == hw
    {
      csPin := chipSelect;
      drdyPin := drdy;
      this.hw := hw;
    }

    /** `ads1293WriteRegister`: one write frame under chip select, always attempted. */
    method WriteRegister(wrAddress: Byte, data: Byte)
      modifies hw
      ensures hw.State() == LegacyAfterWrite(old(hw.State()), csPin, RegWrite(wrAddress, data))
    {
      var dataToSend := RegisterMap.WriteCommand(wrAddress);  // wrAddress & WREG
      hw.DigitalWrite(csPin, Low);
      var echo := hw.Transfer(dataToSend);
      echo := hw.Transfer(data);
      hw.DigitalWrite(csPin, High);
    }

    /** `ads1293ReadRegister`: one read frame under chip select; the register's byte. */
    method ReadRegister(rdAddress: Byte) returns (rdData: Byte)
      modifies hw
      ensures rdData == old(hw.chip.regs)[Target(rdAddress)]
      ensures hw.State() == LegacyAfterRead(old(hw.State()), csPin, rdAddress)
    {
      var dataToSend := RegisterMap.ReadCommand(rdAddress);  // rdAddress | RREG
      hw.DigitalWrite(csPin, Low);
      var echo := hw.Transfer(dataToSend);
      rdData := hw.Transfer(0);
      hw.DigitalWrite(csPin, High);
    }

    /** The three single-register reads of `getECGdata`, MSB first, for 0-based channel c. */
    method ReadSample(c: nat) returns (raw0: Byte, raw1: Byte, raw2: Byte)
      requires c < 3
      modifies hw
      ensures var r := old(hw.chip.regs);
              raw0 == r[SampleAddr(c, 0)] && raw1 == r[SampleAddr(c, 1)] && raw2 == r[SampleAddr(c, 2)]
      ensures hw.State() == ThreeReads(old(hw.State()), csPin, c)
    {
      raw0 := ReadRegister(SampleAddr(c, 0));
      raw1 := ReadRegister(SampleAddr(c, 1));
      raw2 := ReadRegister(SampleAddr(c, 2));
    }

    /**
     * `getECGdata`, as written: three single-register reads, then a
     * word in which the second assignment has replaced the MSB instead of
     * adding to it.  The result is the middle and low byte as an unsigned
     * 16-bit number.
     */
    method GetECGdata(channel: Byte) returns (ecg: int)
      modifies hw
      ensures var c := LegacyChannel(channel);
              var r := old(hw.chip.regs);
              ecg == LegacyValue(r[SampleAddr(c, 0)], r[SampleAddr(c, 1)], r[SampleAddr(c, 2)])
      ensures hw.State() == ThreeReads(old(hw.State()), csPin, LegacyChannel(channel))
    {
      var c: Byte := channel;
      if c < 1 || c > 3 {
        c := 0;
      } else {
        c := c - 1;
      }
      var raw0, raw1, raw2 := ReadSample(c);
      AsWrittenSteps(raw0, raw1, raw2);
      var tempData: U32 := Shl32(raw0, 16);
      tempData := Shl32(raw1, 8);  // `=` where `|=` was meant: the MSB is lost
      tempData := BitOr(tempData, raw2);
      tempData := Shl32(tempData, 8);
      var ecgData := ToInt32(tempData);
      ecg := Asr(ecgData, 8);
    }

    /**
     * `getECGdata` with `|=` on its second assignment: the three bytes as
     * one 24-bit two's-complement sample, the value the current driver
     * decodes for the same channel.
     */
    method GetECGdataFixed(channel: Byte) returns (ecg: int)
      modifies hw
      ensures var c := LegacyChannel(channel);
              var r := old(hw.chip.regs);
              ecg == SampleCodec.SignExtend24(SampleCodec.Assemble24(r[SampleAddr(c, 0)], r[SampleAddr(c, 1)], r[SampleAddr(c, 2)]))
      ensures hw.State() == ThreeReads(old(hw.State()), csPin, LegacyChannel(channel))
    {
      var c: Byte := channel;
      if c < 1 || c > 3 {
        c := 0;
      } else {
        c := c - 1;
      }
      var raw0, raw1, raw2 := ReadSample(c);
      FixedSteps(raw0, raw1, raw2);
      var tempData: U32 := Shl32(raw0, 16);
      tempData := BitOr(tempData, Shl32(raw1, 8));
      tempData := BitOr(tempData, raw2);
      tempData := Shl32(tempData, 8);
      var ecgData := ToInt32(tempData);
      ecg := Asr(ecgData, 8);
    }

    /** `ads1293Begin`: the twelve writes of `begin3LeadECG`, each unconditionally. */
    method Begin()
      modifies hw
      ensures hw.State() == LegacyWrites(old(hw.State()), csPin, Driver.THREE_LEAD)
    {
      ghost var s0 := hw.State();
      ghost var s := hw.State();
      WriteRegister(LegacyMap.FLEX_CH1_CN, 0x11);
      BeginNext(s0, csPin, 0, s);
      s := hw.State();
      WriteRegister(LegacyMap.FLEX_CH2_CN, 0x19);
      BeginNext(s0, csPin, 1, s);
      s := hw.State();
      WriteRegister(LegacyMap.CMDET_EN, 0x07);
      BeginNext(s0, csPin, 2, s);
      s := hw.State();
      WriteRegister(LegacyMap.RLD_CN, 0x04);
      BeginNext(s0, csPin, 3, s);
      s := hw.State();
      WriteRegister(LegacyMap.OSC_CN, 0x04);
      BeginNext(s0, csPin, 4, s);
      s := hw.State();
      WriteRegister(LegacyMap.AFE_SHDN_CN, 0x24);
      BeginNext(s0, csPin, 5, s);
      s := hw.State();
      WriteRegister(LegacyMap.R2_RATE, 0x02);
      BeginNext(s0, csPin, 6, s);
      s := hw.State();
      WriteRegister(LegacyMap.R3_RATE_CH1, 0x02);
      BeginNext(s0, csPin, 7, s);
      s := hw.State();
      WriteRegister(LegacyMap.R3_RATE_CH2, 0x02);
      BeginNext(s0, csPin, 8, s);
      s := hw.State();
      WriteRegister(LegacyMap.DRDYB_SRC, 0x08);
      BeginNext(s0, csPin, 9, s);
      s := hw.State();
      WriteRegister(LegacyMap.CH_CNFG, 0x30);
      BeginNext(s0, csPin, 10, s);
      s := hw.State();
      WriteRegister(LegacyMap.CONFIG, 0x01);
      BeginNext(s0, csPin, 11, s);
      BeginAll(s0, csPin);
    }

    /** `readSensorID`: true exactly when REVID reads 0x01. */
    method ReadSensorID() returns (found: bool)
      modifies hw
      ensures found <==> old(hw.chip.regs)[LegacyMap.REVID] == 0x01
      ensures hw.State() == LegacyAfterRead(old(hw.State()), csPin, LegacyMap.REVID)
    {
      var id: Byte := 0xff;
      id := ReadRegister(LegacyMap.REVID);
      if id == 0x01 {
        return true;
      } else {
        return false;
      }
    }

    /** `configDCleadoffDetect`: an empty body. */
    method ConfigDCLeadOffDetect()
      modifies hw
      ensures hw.State() == old(hw.State())
    {
    }

    /** `configACleadoffDetect`: an empty body. */
    method ConfigACLeadOffDetect()
      modifies hw
      ensures hw.State() == old(hw.State())
    {
    }

    /** `setSamplingRate`: an empty body. */
    method SetSamplingRate()
      modifies hw
      ensures hw.State() == old(hw.State())
    {
    }
  }
}
