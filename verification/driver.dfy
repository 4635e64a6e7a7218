/**
 * The ADS1293 driver object: a chip-select pin, a data-ready pin and an
 * optional SPI bus, and the operations that read samples, configure the
 * device and program its output data rate, each as register transactions
 * on the bus.
 */
module Driver {
  import opened Bits
  import opened RegisterMap
  import opened Bus
  import opened SampleCodec
  import opened RateResolver
  import opened Transactions

  /** DATA_CH1_ECG: the first sample register, the MSB of channel 1. */
  const DATA_CH1_ECG: Byte := 0x37

  /** The nine sample bytes a burst read from DATA_CH1_ECG returns. */
  function SampleBytes(regs: RegFile): (b: seq<Byte>)
    ensures |b| == 9
  {
    BurstBytes(regs, DATA_CH1_ECG, 9)
  }

  /** `0x37 + (channel - 1) * 3`: the MSB register of a channel's sample. */
  function RawStart(channel: Byte): (a: Byte)
    requires 1 <= channel <= 3
    ensures a == DATA_CH1_ECG + 3 * (channel - 1) && a + 2 < 0x80
  {
    0x37 + (channel - 1) * 3
  }

  /** `static_cast<uint8_t>(1u << (channel - 1))`: the DIS_EFILTER bit of a channel. */
  function FilterMask(channel: Byte): (m: Byte)
    requires 1 <= channel <= 3
    ensures m == Pow2(channel - 1)
  {
    Shl32(1, channel - 1) % 0x100
  }

  /**
   * Write k of `begin3LeadECG`, counting from 0, as address and payload
   * bytes; `ThreeLeadNamesLow`, `ThreeLeadNamesMid` and `ThreeLeadNamesHigh`
   * give each its register and option by name.
   */
  function ThreeLeadStep(k: nat): RegWrite
  {
    match k
    case 0 => RegWrite(0x01, 0x11)   // FLEX_CH1_CN, FlexCh1Mode::Default
    case 1 => RegWrite(0x02, 0x19)   // FLEX_CH2_CN, FlexCh2Mode::Default
    case 2 => RegWrite(0x0A, 0x07)   // CMDET_EN, CMDetMode::Enabled
    case 3 => RegWrite(0x0C, 0x04)   // RLD_CN, RLDMode::Default
    case 4 => RegWrite(0x12, 0x04)   // OSC_CN, OscMode::Default
    case 5 => RegWrite(0x14, 0x24)   // AFE_SHDN_CN, AFEShutdownMode::Default
    case 6 => RegWrite(0x21, 0x02)   // R2_RATE, R2Rate::Rate_2
    case 7 => RegWrite(0x22, 0x02)   // R3_RATE_CH1, R3Rate::Rate_2
    case 8 => RegWrite(0x23, 0x02)   // R3_RATE_CH2, R3Rate::Rate_2
    case 9 => RegWrite(0x27, 0x08)   // DRDYB_SRC, DRDYSource::Default
    case 10 => RegWrite(0x2F, 0x30)  // CH_CNFG, ChannelConfig::Default3Lead
    case _ => RegWrite(0x00, 0x01)   // CONFIG, GlobalConfig::Start
  }

  lemma ThreeLeadNamesLow()
    ensures ThreeLeadStep(0) == RegWrite(FLEX_CH1_CN.Addr(), FlexCh1Default.Payload())
    ensures ThreeLeadStep(1) == RegWrite(FLEX_CH2_CN.Addr(), FlexCh2Default.Payload())
    ensures ThreeLeadStep(2) == RegWrite(CMDET_EN.Addr(), CMDetEnabled.Payload())
    ensures ThreeLeadStep(3) == RegWrite(RLD_CN.Addr(), RLDDefault.Payload())
  {
  }

  lemma ThreeLeadNamesMid()
    ensures ThreeLeadStep(4) == RegWrite(OSC_CN.Addr(), OscDefault.Payload())
    ensures ThreeLeadStep(5) == RegWrite(AFE_SHDN_CN.Addr(), AFEShutdownDefault.Payload())
    ensures ThreeLeadStep(6) == RegWrite(R2_RATE.Addr(), R2Rate2.Payload())
    ensures ThreeLeadStep(7) == RegWrite(R3_RATE_CH1.Addr(), R3Rate2.Payload())
  {
  }

  lemma ThreeLeadNamesHigh()
    ensures ThreeLeadStep(8) == RegWrite(R3_RATE_CH2.Addr(), R3Rate2.Payload())
    ensures ThreeLeadStep(9) == RegWrite(DRDYB_SRC.Addr(), DRDYDefault.Payload())
    ensures ThreeLeadStep(10) == RegWrite(CH_CNFG.Addr(), Default3Lead.Payload())
    ensures ThreeLeadStep(11) == RegWrite(CONFIG.Addr(), Start.Payload())
  {
  }

  /** The writes of `begin3LeadECG`, in order. */
  const THREE_LEAD: seq<RegWrite> := seq(12, k requires 0 <= k < 12 => ThreeLeadStep(k))

  /** Write k of the rate programming for a triple: R1, R2, then R3 of channels 1, 2 and 3. */
  function RateStep(t: Triple, k: nat): RegWrite
    requires k < 5
  {
    match k
    case 0 => RegWrite(R1_RATE.Addr(), R1Reg(t.r1))
    case 1 => RegWrite(R2_RATE.Addr(), R2Code(t.r2))
    case 2 => RegWrite(R3_RATE_CH1.Addr(), R3Code(t.r3))
    case 3 => RegWrite(R3_RATE_CH2.Addr(), R3Code(t.r3))
    case _ => RegWrite(R3_RATE_CH3.Addr(), R3Code(t.r3))
  }

  /** The five writes that program a chosen triple, in order. */
  function RateWrites(t: Triple): (ws: seq<RegWrite>)
    ensures |ws| == 5
  {
    seq(5, k requires 0 <= k < 5 => RateStep(t, k))
  }

  /** The writes of `enableTestSignalAll`: the signal byte to registers 1, 2 and 3, in order. */
  function TestSignalWrites(sig: TestSignal): seq<RegWrite>
  {
    seq(3, i requires 0 <= i < 3 => RegWrite(i + 1, TestSignalByte(sig)))
  }

  /** `0x0A + (channel - 1)`: the register `setChannelGainRaw` writes for a channel. */
  function GainAddr(channel: Byte): (a: Byte)
    requires 1 <= channel <= 3
    ensures a == CMDET_EN.Addr() + channel - 1
  {
    0x0A + (channel - 1)
  }

  class Ads1293 {
    const drdyPin: Byte
    const csPin: Byte
    /** `spi_ != nullptr`. */
    const hasSpi: bool
    /** The bus `spi_` points to, with the device on it. */
    const hw: Hardware

    constructor(drdyPin: Byte, csPin: Byte, hasSpi: bool, hw: Hardware)
      ensures this.drdyPin == drdyPin && this.csPin == csPin
      ensures this.hasSpi == hasSpi && this.hw == hw
    {
      this.drdyPin := drdyPin;
      this.csPin := csPin;
      this.hasSpi := hasSpi;
      this.hw := hw;
    }

    /** The bus after a write: the write, when there is a bus; no change otherwise. */
    function WriteEffect(s: BusState, w: RegWrite): BusState
    {
      if hasSpi then AfterWrite(s, csPin, w) else s
    }

    /** The bus after a list of writes, when there is a bus; no change otherwise. */
    function WritesEffect(s: BusState, ws: seq<RegWrite>): BusState
    {
      if hasSpi then Writes(s, csPin, ws) else s
    }

    /** One more write extends the effect of a list of writes. */
    lemma EffectSnoc(s: BusState, ws: seq<RegWrite>, w: RegWrite)
      ensures WritesEffect(s, ws + [w]) == WriteEffect(WritesEffect(s, ws), w)
    {
      if hasSpi {
        WritesSnoc(s, csPin, ws, w);
      }
    }

    /** The first k + 1 writes of a list: the first k, then write k. */
    lemma EffectPrefix(s: BusState, ws: seq<RegWrite>, k: nat)
      requires k < |ws|
      ensures WritesEffect(s, ws[..k + 1]) == WriteEffect(WritesEffect(s, ws[..k]), ws[k])
    {
      assert ws[..k + 1] == ws[..k] + [ws[k]];
      EffectSnoc(s, ws[..k], ws[k]);
    }

    /** The first j writes of a list: the first i, then those from i to j. */
    lemma EffectSlice(s: BusState, ws: seq<RegWrite>, i: nat, j: nat)
      requires i <= j <= |ws|
      ensures WritesEffect(s, ws[..j]) == WritesEffect(WritesEffect(s, ws[..i]), ws[i..j])
    {
      assert ws[..j] == ws[..i] + ws[i..j];
      EffectAppend(s, ws[..i], ws[i..j]);
    }

    /** A list of writes after another has the effect of their concatenation. */
    lemma EffectAppend(s: BusState, ws: seq<RegWrite>, vs: seq<RegWrite>)
      ensures WritesEffect(s, ws + vs) == WritesEffect(WritesEffect(s, ws), vs)
    {
      if hasSpi {
        WritesAppend(s, csPin, ws, vs);
      }
    }

    /** The bus after the first k writes of a list, one write at a time. */
    function EffectUpTo(s0: BusState, ws: seq<RegWrite>, k: nat): BusState
      requires k <= |ws|
    {
      if k == 0 then s0 else WriteEffect(EffectUpTo(s0, ws, k - 1), ws[k - 1])
    }

    /** Issuing the first k writes one at a time is issuing the prefix of length k. */
    lemma {:induction false} EffectUpToPrefix(s0: BusState, ws: seq<RegWrite>, k: nat)
      requires k <= |ws|
      ensures EffectUpTo(s0, ws, k) == WritesEffect(s0, ws[..k])
    {
      if k == 0 {
        assert ws[..0] == [];
      } else {
        EffectUpToPrefix(s0, ws, k - 1);
        EffectPrefix(s0, ws, k - 1);
      }
    }

    /** Issuing every write of a list one at a time is issuing the list. */
    lemma EffectUpToAll(s0: BusState, ws: seq<RegWrite>, n: nat)
      requires n == |ws|
      ensures EffectUpTo(s0, ws, n) == WritesEffect(s0, ws)
    {
      EffectUpToPrefix(s0, ws, n);
      assert ws[..n] == ws;
    }

    /** Write k, after the first k, gives the state after the first k + 1. */
    lemma EffectUpToNext(s0: BusState, ws: seq<RegWrite>, k: nat, s: BusState)
      requires k < |ws| && s == EffectUpTo(s0, ws, k)
      ensures WriteEffect(s, ws[k]) == EffectUpTo(s0, ws, k + 1)
    {
    }

    /** The bus after the first k writes of `begin3LeadECG`, one write at a time. */
    function ThreeLeadAfter(s0: BusState, k: nat): BusState
      requires k <= 12
    {
      if k == 0 then s0 else WriteEffect(ThreeLeadAfter(s0, k - 1), ThreeLeadStep(k - 1))
    }

    /** Issuing the twelve writes one at a time is issuing `THREE_LEAD`. */
    lemma ThreeLeadAll(s0: BusState)
      ensures ThreeLeadAfter(s0, 12) == WritesEffect(s0, THREE_LEAD)
    {
      ThreeLeadAfterPrefix(s0, 12);
      EffectUpToAll(s0, THREE_LEAD, 12);
    }

    /** `ThreeLeadAfter` is `EffectUpTo` over `THREE_LEAD`. */
    lemma {:induction false} ThreeLeadAfterPrefix(s0: BusState, k: nat)
      requires k <= 12
      ensures ThreeLeadAfter(s0, k) == EffectUpTo(s0, THREE_LEAD, k)
    {
      if k > 0 {
        ThreeLeadAfterPrefix(s0, k - 1);
      }
    }

    /** Write k of `begin3LeadECG` after the first k. */
    lemma ThreeLeadNext(s0: BusState, k: nat, s: BusState)
      requires k < 12 && s == ThreeLeadAfter(s0, k)
      ensures WriteEffect(s, ThreeLeadStep(k)) == ThreeLeadAfter(s0, k + 1)
    {
    }

    /** The three rate writes of `begin3LeadECG` after the first six. */
    lemma ThreeLeadRates(s0: BusState, s: BusState)
      requires s == ThreeLeadAfter(s0, 6)
      ensures WritesEffect(s, [ThreeLeadStep(6), ThreeLeadStep(7), ThreeLeadStep(8)]) == ThreeLeadAfter(s0, 9)
    {
      EffectThree(s, ThreeLeadStep(6), ThreeLeadStep(7), ThreeLeadStep(8));
      assert ThreeLeadAfter(s0, 7) == WriteEffect(s, ThreeLeadStep(6));
      assert ThreeLeadAfter(s0, 8) == WriteEffect(ThreeLeadAfter(s0, 7), ThreeLeadStep(7));
    }

    /** A three-write list is three single writes. */
    lemma EffectThree(s: BusState, a: RegWrite, b: RegWrite, c: RegWrite)
      ensures WritesEffect(s, [a, b, c]) == WriteEffect(WriteEffect(WriteEffect(s, a), b), c)
    {
      EffectSnoc(s, [], a);
      EffectSnoc(s, [a], b);
      EffectSnoc(s, [a, b], c);
      assert [] + [a] == [a] && [a] + [b] == [a, b] && [a, b] + [c] == [a, b, c];
    }

    /**
     * `writeRegister`, for the register whose underlying byte is `reg`: with
     * no bus, false and no activity; otherwise one write frame and true.
     */
    method WriteRegister(reg: Byte, value: Byte) returns (ok: bool)
      modifies hw
      ensures ok == hasSpi
      ensures hw.State() == WriteEffect(old(hw.State()), RegWrite(reg, value))
    {
      if !hasSpi {
        return false;
      }
      var addr := WriteCommand(reg);  // static_cast<uint8_t>(reg) & WREG_MASK
      hw.BeginTransaction();
      hw.DigitalWrite(csPin, Low);
      var echo := hw.Transfer(addr);
      echo := hw.Transfer(value);
      hw.DigitalWrite(csPin, High);
      hw.EndTransaction();
      return true;
    }

    /**
     * `readRegister`, for the register whose underlying byte is `reg`: with no bus, false and `value` left as the caller had
     * it; otherwise one read frame, and `value` is the register's byte.
     */
    method ReadRegister(reg: Byte, current: Byte) returns (ok: bool, value: Byte)
      modifies hw
      ensures ok == hasSpi
      ensures value == if hasSpi then old(hw.chip.regs)[Target(reg)] else current
      ensures hw.State() == if hasSpi then AfterRead(old(hw.State()), csPin, reg, 1) else old(hw.State())
    {
      if !hasSpi {
        return false, current;
      }
      ghost var s0 := hw.State();
      var cmd := ReadCommand(reg);  // static_cast<uint8_t>(reg) | RREG_FLAG
      hw.BeginTransaction();
      hw.DigitalWrite(csPin, Low);
      var echo := hw.Transfer(cmd);
      value := hw.Transfer(0x00);
      hw.DigitalWrite(csPin, High);
      hw.EndTransaction();
      assert ReadXfers(s0.chip.regs, Target(reg), 1) == [Xfer(0, value)];
      return true, value;
    }

    /**
     * The framing and loop shared by the burst reads: select the chip, send
     * the read command for `addr`, clock n bytes into `buf`, deselect.
     */
    method ReadBurst(addr: Byte, buf: array<Byte>, n: nat)
      requires hasSpi && n <= buf.Length
      modifies hw, buf
      ensures buf[..n] == BurstBytes(old(hw.chip.regs), Target(addr), n)
      ensures buf[n..] == old(buf[n..])
      ensures hw.State() == AfterRead(old(hw.State()), csPin, addr, n)
    {
      ghost var s0 := hw.State();
      var regs, start := hw.chip.regs, Target(addr);
      hw.BeginTransaction();
      hw.DigitalWrite(csPin, Low);
      var echo := hw.Transfer(ReadCommand(addr));
      ghost var head := s0.trace + ReadHead(csPin, addr);
      for i := 0 to n
        invariant hw.chip == Chip(regs, Reading(Advance(start, i)))
        invariant hw.trace == head + ReadXfers(regs, start, i)
        invariant buf[..i] == BurstBytes(regs, start, i)
        invariant buf[n..] == old(buf[n..])
      {
        AdvanceNext(start, i);
        buf[i] := hw.Transfer(0x00);
        assert ReadXfers(regs, start, i + 1) == ReadXfers(regs, start, i) + [Xfer(0, buf[i])];
        assert buf[..i + 1] == buf[..i] + [buf[i]];
      }
      hw.DigitalWrite(csPin, High);
      hw.EndTransaction();
    }

    /**
     * `getECGData(ch1, ch2, ch3)`: with no bus, false and the three values
     * left as they were; otherwise one nine-byte read from DATA_CH1_ECG and
     * the three decoded channels.
     */
    method GetECGData(c1: int, c2: int, c3: int) returns (ok: bool, ch1: int, ch2: int, ch3: int)
      modifies hw
      ensures ok == hasSpi
      ensures !hasSpi ==> ch1 == c1 && ch2 == c2 && ch3 == c3 && hw.State() == old(hw.State())
      ensures hasSpi ==> var b := SampleBytes(old(hw.chip.regs));
                         ch1 == BurstChannel(b, 0) && ch2 == BurstChannel(b, 1) && ch3 == BurstChannel(b, 2)
      ensures hasSpi ==> hw.State() == AfterRead(old(hw.State()), csPin, DATA_CH1_ECG, 9)
    {
      if !hasSpi {
        return false, c1, c2, c3;
      }
      ghost var b := SampleBytes(hw.chip.regs);
      var buf := new Byte[9](_ => 0);
      ReadBurst(DATA_CH1_ECG, buf, 9);
      assert buf[..] == buf[..9] == b;
      var raw1 := Assemble24(buf[0], buf[1], buf[2]);
      var raw2 := Assemble24(buf[3], buf[4], buf[5]);
      var raw3 := Assemble24(buf[6], buf[7], buf[8]);
      assert raw1 == Assemble24(b[0], b[1], b[2]);
      assert raw2 == Assemble24(b[3], b[4], b[5]);
      assert raw3 == Assemble24(b[6], b[7], b[8]);
      return true, SignExtend24(raw1), SignExtend24(raw2), SignExtend24(raw3);
    }

    /** `getECGData()`: the three channels and `ok` on success, a default `Samples` otherwise. */
    method GetSamples() returns (s: Samples)
      modifies hw
      ensures s == if hasSpi then var b := SampleBytes(old(hw.chip.regs));
                                  Samples(BurstChannel(b, 0), BurstChannel(b, 1), BurstChannel(b, 2), true)
                   else DEFAULT_SAMPLES
      ensures hw.State() == if hasSpi then AfterRead(old(hw.State()), csPin, DATA_CH1_ECG, 9) else old(hw.State())
    {
      s := DEFAULT_SAMPLES;
      var ok, a, b, c := GetECGData(0, 0, 0);
      if ok {
        s := Samples(a, b, c, true);
      }
    }

    /**
     * `getRaw24`: false with no activity when there is no bus or the
     * channel is not 1..3; otherwise a three-byte read from the channel's
     * MSB register and the unsigned 24-bit code.
     */
    method GetRaw24(channel: Byte, current: U32) returns (ok: bool, raw24: U32)
      modifies hw
      ensures ok == (hasSpi && 1 <= channel <= 3)
      ensures !ok ==> raw24 == current && hw.State() == old(hw.State())
      ensures ok ==> var b := BurstBytes(old(hw.chip.regs), RawStart(channel), 3);
                     raw24 == Assemble24(b[0], b[1], b[2]) && raw24 < 0x100_0000
      ensures ok ==> hw.State() == AfterRead(old(hw.State()), csPin, RawStart(channel), 3)
    {
      if !hasSpi {
        return false, current;
      }
      if channel < 1 || channel > 3 {
        return false, current;
      }
      var startAddr := RawStart(channel);
      ghost var b := BurstBytes(hw.chip.regs, startAddr, 3);
      var buf := new Byte[3](_ => 0);
      ReadBurst(startAddr, buf, 3);
      assert buf[..] == buf[..3] == b;
      assert buf[0] == b[0] && buf[1] == b[1] && buf[2] == b[2];
      return true, Assemble24(buf[0], buf[1], buf[2]);
    }

    /** `readSampleBytes`: the nine sample bytes into `buf`, or false and nothing touched. */
    method ReadSampleBytes(buf: array<Byte>) returns (ok: bool)
      requires buf.Length >= 9
      modifies hw, buf
      ensures ok == hasSpi
      ensures !hasSpi ==> buf[..] == old(buf[..]) && hw.State() == old(hw.State())
      ensures hasSpi ==> buf[..9] == SampleBytes(old(hw.chip.regs)) && buf[9..] == old(buf[9..])
      ensures hasSpi ==> hw.State() == AfterRead(old(hw.State()), csPin, DATA_CH1_ECG, 9)
    {
      if !hasSpi {
        return false;
      }
      ReadBurst(DATA_CH1_ECG, buf, 9);
      return true;
    }

    /** `readDeviceID`: the REVID register, or 0 when there is no bus. */
    method ReadDeviceID() returns (id: Byte)
      modifies hw
      ensures id == if hasSpi then old(hw.chip.regs)[REVID.Addr()] else 0
      ensures hw.State() == if hasSpi then AfterRead(old(hw.State()), csPin, REVID.Addr(), 1) else old(hw.State())
    {
      var ok;
      ok, id := ReadRegister(REVID.Addr(), 0);
    }

    /** `readErrorStatus`: the ERR_STATUS register, or 0 when there is no bus. */
    method ReadErrorStatus() returns (status: Byte)
      modifies hw
      ensures status == if hasSpi then old(hw.chip.regs)[ERR_STATUS.Addr()] else 0
      ensures hw.State() == if hasSpi then AfterRead(old(hw.State()), csPin, ERR_STATUS.Addr(), 1) else old(hw.State())
    {
      var ok;
      ok, status := ReadRegister(ERR_STATUS.Addr(), 0);
    }

    // The configuration helpers: one register write each.

    method ConfigureChannel1(m: FlexCh1Mode) returns (ok: bool)
      modifies hw
      ensures ok == hasSpi
      ensures hw.State() == WriteEffect(old(hw.State()), RegWrite(FLEX_CH1_CN.Addr(), m.Payload()))
    {
      ok := WriteRegister(FLEX_CH1_CN.Addr(), m.Payload());
    }

    method ConfigureChannel2(m: FlexCh2Mode) returns (ok: bool)
      modifies hw
      ensures ok == hasSpi
      ensures hw.State() == WriteEffect(old(hw.State()), RegWrite(FLEX_CH2_CN.Addr(), m.Payload()))
    {
      ok := WriteRegister(FLEX_CH2_CN.Addr(), m.Payload());
    }

    method EnableCommonModeDetection(m: CMDetMode) returns (ok: bool)
      modifies hw
      ensures ok == hasSpi
      ensures hw.State() == WriteEffect(old(hw.State()), RegWrite(CMDET_EN.Addr(), m.Payload()))
    {
      ok := WriteRegister(CMDET_EN.Addr(), m.Payload());
    }

    method ConfigureRLD(m: RLDMode) returns (ok: bool)
      modifies hw
      ensures ok == hasSpi
      ensures hw.State() == WriteEffect(old(hw.State()), RegWrite(RLD_CN.Addr(), m.Payload()))
    {
      ok := WriteRegister(RLD_CN.Addr(), m.Payload());
    }

    method ConfigureOscillator(m: OscMode) returns (ok: bool)
      modifies hw
      ensures ok == hasSpi
      ensures hw.State() == WriteEffect(old(hw.State()), RegWrite(OSC_CN.Addr(), m.Payload()))
    {
      ok := WriteRegister(OSC_CN.Addr(), m.Payload());
    }

    method ConfigureAFEShutdown(m: AFEShutdownMode) returns (ok: bool)
      modifies hw
      ensures ok == hasSpi
      ensures hw.State() == WriteEffect(old(hw.State()), RegWrite(AFE_SHDN_CN.Addr(), m.Payload()))
    {
      ok := WriteRegister(AFE_SHDN_CN.Addr(), m.Payload());
    }

    method ConfigureChannel3(m: FlexCh3Mode) returns (ok: bool)
      modifies hw
      ensures ok == hasSpi
      ensures hw.State() == WriteEffect(old(hw.State()), RegWrite(FLEX_CH3_CN.Addr(), m.Payload()))
    {
      ok := WriteRegister(FLEX_CH3_CN.Addr(), m.Payload());
    }

    method ConfigureRef(m: RefMode) returns (ok: bool)
      modifies hw
      ensures ok == hasSpi
      ensures hw.State() == WriteEffect(old(hw.State()), RegWrite(REF_CN.Addr(), m.Payload()))
    {
      ok := WriteRegister(REF_CN.Addr(), m.Payload());
    }

    /** `configureSamplingRates`: all three writes are attempted (`ok &=`), in order. */
    method ConfigureSamplingRates(r2: R2Rate, r3ch1: R3Rate, r3ch2: R3Rate) returns (ok: bool)
      modifies hw
      ensures ok == hasSpi
      ensures hw.State() == WritesEffect(old(hw.State()),
                [RegWrite(R2_RATE.Addr(), r2.Payload()), RegWrite(R3_RATE_CH1.Addr(), r3ch1.Payload()),
                 RegWrite(R3_RATE_CH2.Addr(), r3ch2.Payload())])
    {
      ghost var s0 := hw.State();
      ghost var w1, w2, w3 := RegWrite(R2_RATE.Addr(), r2.Payload()), RegWrite(R3_RATE_CH1.Addr(), r3ch1.Payload()),
                              RegWrite(R3_RATE_CH2.Addr(), r3ch2.Payload());
      ok := true;
      var w := WriteRegister(R2_RATE.Addr(), r2.Payload());
      ok := ok && w;
      EffectSnoc(s0, [], w1);
      w := WriteRegister(R3_RATE_CH1.Addr(), r3ch1.Payload());
      ok := ok && w;
      EffectSnoc(s0, [w1], w2);
      w := WriteRegister(R3_RATE_CH2.Addr(), r3ch2.Payload());
      ok := ok && w;
      EffectSnoc(s0, [w1, w2], w3);
      assert [] + [w1] == [w1] && [w1] + [w2] == [w1, w2] && [w1, w2] + [w3] == [w1, w2, w3];
    }

    method ConfigureDRDYSource(m: DRDYSource) returns (ok: bool)
      modifies hw
      ensures ok == hasSpi
      ensures hw.State() == WriteEffect(old(hw.State()), RegWrite(DRDYB_SRC.Addr(), m.Payload()))
    {
      ok := WriteRegister(DRDYB_SRC.Addr(), m.Payload());
    }

    method ConfigureChannelConfig(m: ChannelConfig) returns (ok: bool)
      modifies hw
      ensures ok == hasSpi
      ensures hw.State() == WriteEffect(old(hw.State()), RegWrite(CH_CNFG.Addr(), m.Payload()))
    {
      ok := WriteRegister(CH_CNFG.Addr(), m.Payload());
    }

    method ApplyGlobalConfig(m: GlobalConfig) returns (ok: bool)
      modifies hw
      ensures ok == hasSpi
      ensures hw.State() == WriteEffect(old(hw.State()), RegWrite(CONFIG.Addr(), m.Payload()))
    {
      ok := WriteRegister(CONFIG.Addr(), m.Payload());
    }

    /**
     * `begin3LeadECG`: the twelve writes of `THREE_LEAD` in order, stopping
     * at the first step that fails.  Only a missing bus makes a step fail,
     * and then the first one does, before any activity.
     */
    method Begin3LeadECG() returns (ok: bool)
      modifies hw
      ensures ok == hasSpi
      ensures hw.State() == WritesEffect(old(hw.State()), THREE_LEAD)
    {
      ghost var s0 := hw.State();
      ThreeLeadNamesLow();
      ThreeLeadNamesMid();
      ThreeLeadNamesHigh();
      ghost var s := hw.State();
      ok := ConfigureChannel1(FlexCh1Default);
      ThreeLeadNext(s0, 0, s);
      if !ok {
        return false;
      }
      s := hw.State();
      ok := ConfigureChannel2(FlexCh2Default);
      ThreeLeadNext(s0, 1, s);
      if !ok {
        return false;
      }
      s := hw.State();
      ok := EnableCommonModeDetection(CMDetEnabled);
      ThreeLeadNext(s0, 2, s);
      if !ok {
        return false;
      }
      s := hw.State();
      ok := ConfigureRLD(RLDDefault);
      ThreeLeadNext(s0, 3, s);
      if !ok {
        return false;
      }
      s := hw.State();
      ok := ConfigureOscillator(OscDefault);
      ThreeLeadNext(s0, 4, s);
      if !ok {
        return false;
      }
      s := hw.State();
      ok := ConfigureAFEShutdown(AFEShutdownDefault);
      ThreeLeadNext(s0, 5, s);
      if !ok {
        return false;
      }
      s := hw.State();
      ok := ConfigureSamplingRates(R2Rate2, R3Rate2, R3Rate2);
      ThreeLeadRates(s0, s);
      if !ok {
        return false;
      }
      s := hw.State();
      ok := ConfigureDRDYSource(DRDYDefault);
      ThreeLeadNext(s0, 9, s);
      if !ok {
        return false;
      }
      s := hw.State();
      ok := ConfigureChannelConfig(Default3Lead);
      ThreeLeadNext(s0, 10, s);
      if !ok {
        return false;
      }
      s := hw.State();
      ok := ApplyGlobalConfig(Start);
      ThreeLeadNext(s0, 11, s);
      if !ok {
        return false;
      }
      ThreeLeadAll(s0);
      return true;
    }

    /** `disableChannel`: channel 1 clears FLEX_CH1_CN; any other channel does nothing. */
    method DisableChannel(channel: Byte)
      modifies hw
      ensures hw.State() == if channel == 1 then WriteEffect(old(hw.State()), RegWrite(FLEX_CH1_CN.Addr(), 0x00))
                            else old(hw.State())
    {
      if channel == 1 {
        var _ := WriteRegister(FLEX_CH1_CN.Addr(), 0x00);
      }
    }

    /** `disableFilterAll`: 0x07 to DIS_EFILTER. */
    method DisableFilterAll()
      modifies hw
      ensures hw.State() == WriteEffect(old(hw.State()), RegWrite(DIS_EFILTER.Addr(), 0x07))
    {
      var _ := WriteRegister(DIS_EFILTER.Addr(), 0x07);
    }

    /**
     * `disableFilter`: the channel's one-hot mask to DIS_EFILTER.  The result
     * only says whether the channel was in range; the write's own result is
     * dropped.
     */
    method DisableFilter(channel: Byte) returns (ok: bool)
      modifies hw
      ensures ok == (1 <= channel <= 3)
      ensures hw.State() == if ok then WriteEffect(old(hw.State()), RegWrite(DIS_EFILTER.Addr(), FilterMask(channel)))
                            else old(hw.State())
    {
      if channel < 1 || channel > 3 {
        return false;
      }
      var mask := FilterMask(channel);
      var _ := WriteRegister(DIS_EFILTER.Addr(), mask);
      return true;
    }

    /**
     * `attachTestSignal`: the signal's code in bits 7:6, written to the
     * register whose address is the channel number.  As for `disableFilter`,
     * the result only says whether the channel was in range.
     */
    method AttachTestSignal(channel: Byte, sig: TestSignal) returns (ok: bool)
      modifies hw
      ensures ok == (1 <= channel <= 3)
      ensures hw.State() == if ok then WriteEffect(old(hw.State()), RegWrite(channel, TestSignalByte(sig)))
                            else old(hw.State())
    {
      if channel < 1 || channel > 3 {
        return false;
      }
      var value := TestSignalByte(sig);
      var reg := 0x00 + channel;  // static_cast<Register>(0x00 + channel)
      var _ := WriteRegister(reg, value);
      return true;
    }

    /** `enableTestSignalAll`: `attachTestSignal` for channels 1, 2 and 3, in order. */
    method EnableTestSignalAll(sig: TestSignal) returns (ok: bool)
      modifies hw
      ensures ok
      ensures hw.State() == WritesEffect(old(hw.State()), TestSignalWrites(sig))
    {
      ghost var s0 := hw.State();
      ghost var ws := TestSignalWrites(sig);
      assert ws[..0] == [];
      ok := true;
      for ch := 1 to 4
        invariant ok
        invariant hw.State() == WritesEffect(s0, ws[..ch - 1])
      {
        var r := AttachTestSignal(ch, sig);
        ok := ok && r;
        EffectPrefix(s0, ws, ch - 1);
      }
      assert ws[..3] == ws;
    }

    /**
     * `setChannelGainRaw`: the byte to register 0x0A + (channel - 1) when the
     * channel is in range; false and no activity otherwise.
     */
    method SetChannelGainRaw(channel: Byte, regValue: Byte) returns (ok: bool)
      modifies hw
      ensures ok == (hasSpi && 1 <= channel <= 3)
      ensures hw.State() == if 1 <= channel <= 3 then WriteEffect(old(hw.State()), RegWrite(GainAddr(channel), regValue))
                            else old(hw.State())
    {
      if channel < 1 || channel > 3 {
        return false;
      }
      var reg := GainAddr(channel);
      ok := WriteRegister(reg, regValue);
    }

    /** `setChannelGain`: `setChannelGainRaw` with the preset's byte. */
    method SetChannelGain(channel: Byte, gain: PgaGain) returns (ok: bool)
      modifies hw
      ensures ok == (hasSpi && 1 <= channel <= 3)
      ensures hw.State() == if 1 <= channel <= 3 then WriteEffect(old(hw.State()), RegWrite(GainAddr(channel), gain.Value()))
                            else old(hw.State())
    {
      ok := SetChannelGainRaw(channel, gain.Value());
    }

    /**
     * `setSamplingRate`, for the enum's underlying byte: a byte that names
     * no preset gives false and no activity; otherwise the search picks a
     * triple and the five rate registers are written, each attempted.
     */
    method SetSamplingRate(code: Byte) returns (ok: bool)
      modifies hw
      ensures ok == (hasSpi && code < 20)
      ensures hw.State() == match SamplingRateFromCode(code)
                            case None => old(hw.State())
                            case Some(s) => WritesEffect(old(hw.State()), RateWrites(Scan1(2, TargetHz(s)).t))
    {
      ghost var s0 := hw.State();
      var rate := SamplingRateFromCode(code);
      SamplingRateCodes(SPS_25, code);
      if rate.None? {
        return false;
      }
      var targetHz := TargetHz(rate.value);
      var bestR1, bestR2, bestR3 := Resolve(targetHz);
      var r1Reg := R1Reg(bestR1);
      var r2Reg := R2Code(bestR2);
      var r3Reg := R3Code(bestR3);
      ghost var t := Scan1(2, targetHz).t;
      assert bestR1 == t.r1 && bestR2 == t.r2 && bestR3 == t.r3;
      ghost var ws := RateWrites(t);
      assert ws[0] == RegWrite(R1_RATE.Addr(), r1Reg) && ws[1] == RegWrite(R2_RATE.Addr(), r2Reg);
      assert ws[2] == RegWrite(R3_RATE_CH1.Addr(), r3Reg) && ws[3] == RegWrite(R3_RATE_CH2.Addr(), r3Reg);
      assert ws[4] == RegWrite(R3_RATE_CH3.Addr(), r3Reg);
      ok := true;
      ghost var s := hw.State();
      var w := WriteRegister(R1_RATE.Addr(), r1Reg);
      ok := ok && w;
      EffectUpToNext(s0, ws, 0, s);
      s := hw.State();
      w := WriteRegister(R2_RATE.Addr(), r2Reg);
      ok := ok && w;
      EffectUpToNext(s0, ws, 1, s);
      s := hw.State();
      w := WriteRegister(R3_RATE_CH1.Addr(), r3Reg);
      ok := ok && w;
      EffectUpToNext(s0, ws, 2, s);
      s := hw.State();
      w := WriteRegister(R3_RATE_CH2.Addr(), r3Reg);
      ok := ok && w;
      EffectUpToNext(s0, ws, 3, s);
      s := hw.State();
      w := WriteRegister(R3_RATE_CH3.Addr(), r3Reg);
      ok := ok && w;
      EffectUpToNext(s0, ws, 4, s);
      EffectUpToAll(s0, ws, 5);
    }
  }
}
