/**
 * What the driver's register traffic does to the device: the register file
 * `begin3LeadECG` leaves behind, the bytes `setSamplingRate` programs for
 * the presets, how the per-channel operations relate to each other, and
 * where the gain and test-signal writes land in the register map.
 */
module DriverFacts {
  import opened Bits
  import opened RegisterMap
  import opened Bus
  import opened SampleCodec
  import opened RateResolver
  import opened Transactions
  import opened Driver

  /** The registers `begin3LeadECG` writes. */
  const THREE_LEAD_TARGETS: set<int> := {0x00, 0x01, 0x02, 0x0A, 0x0C, 0x12, 0x14, 0x21, 0x22, 0x23, 0x27, 0x2F}

  /** Which write of `begin3LeadECG` goes to register `a` (12 for none). */
  function ThreeLeadIndex(a: int): (k: nat)
    ensures k <= 12
  {
    match a
    case 0x01 => 0
    case 0x02 => 1
    case 0x0A => 2
    case 0x0C => 3
    case 0x12 => 4
    case 0x14 => 5
    case 0x21 => 6
    case 0x22 => 7
    case 0x23 => 8
    case 0x27 => 9
    case 0x2F => 10
    case 0x00 => 11
    case _ => 12
  }

  /** Each write of `begin3LeadECG` addresses a register directly, and a different one for each write. */
  lemma ThreeLeadStepTarget(k: nat)
    requires k < 12
    ensures THREE_LEAD[k] == ThreeLeadStep(k)
    ensures Target(THREE_LEAD[k].addr) == THREE_LEAD[k].addr && THREE_LEAD[k].addr in THREE_LEAD_TARGETS
    ensures ThreeLeadIndex(THREE_LEAD[k].addr) == k
  {
    var w := ThreeLeadStep(k);
    assert w.addr < 0x80 && w.addr in THREE_LEAD_TARGETS && ThreeLeadIndex(w.addr) == k by {
      if k == 0 {} else if k == 1 {} else if k == 2 {} else if k == 3 {}
      else if k == 4 {} else if k == 5 {} else if k == 6 {} else if k == 7 {}
      else if k == 8 {} else if k == 9 {} else if k == 10 {} else {}
    }
  }

  /** No two writes of `begin3LeadECG` go to the same register. */
  lemma ThreeLeadDistinct()
    ensures DistinctTargets(THREE_LEAD)
  {
    forall i, j | 0 <= i < j < |THREE_LEAD|
      ensures Target(THREE_LEAD[i].addr) != Target(THREE_LEAD[j].addr)
    {
      ThreeLeadStepTarget(i);
      ThreeLeadStepTarget(j);
    }
  }

  /** Write k of `begin3LeadECG` is the value its register holds afterwards. */
  lemma ThreeLeadHolds(s: BusState, cs: Byte, k: nat)
    requires k < 12
    ensures Writes(s, cs, THREE_LEAD).chip.regs[ThreeLeadStep(k).addr] == ThreeLeadStep(k).value
  {
    ThreeLeadDistinct();
    ThreeLeadStepTarget(k);
    WritesRegs(s, cs, THREE_LEAD, THREE_LEAD[k].addr);
    LastValueAt(THREE_LEAD, k, s.chip.regs[THREE_LEAD[k].addr]);
  }

  /**
   * After the writes of `begin3LeadECG` each register it configures holds
   * its payload -- channel 1 and 2 inputs, common-mode detection, right-leg
   * drive, oscillator, AFE shutdown, the R2 and R3 decimation, the DRDYB
   * source, the channel configuration and finally the start bit -- and
   * every other register holds what it held before.
   */
  lemma ThreeLeadRegisters(s: BusState, cs: Byte)
    ensures var r := Writes(s, cs, THREE_LEAD).chip.regs;
            r[0x01] == 0x11 && r[0x02] == 0x19 && r[0x0A] == 0x07 && r[0x0C] == 0x04 &&
            r[0x12] == 0x04 && r[0x14] == 0x24 && r[0x21] == 0x02 && r[0x22] == 0x02 &&
            r[0x23] == 0x02 && r[0x27] == 0x08 && r[0x2F] == 0x30 && r[0x00] == 0x01
    ensures forall a :: 0 <= a < 0x80 && a !in THREE_LEAD_TARGETS ==>
              Writes(s, cs, THREE_LEAD).chip.regs[a] == s.chip.regs[a]
  {
    ThreeLeadHolds(s, cs, 0);
    ThreeLeadHolds(s, cs, 1);
    ThreeLeadHolds(s, cs, 2);
    ThreeLeadHolds(s, cs, 3);
    ThreeLeadHolds(s, cs, 4);
    ThreeLeadHolds(s, cs, 5);
    ThreeLeadHolds(s, cs, 6);
    ThreeLeadHolds(s, cs, 7);
    ThreeLeadHolds(s, cs, 8);
    ThreeLeadHolds(s, cs, 9);
    ThreeLeadHolds(s, cs, 10);
    ThreeLeadHolds(s, cs, 11);
    forall a | 0 <= a < 0x80 && a !in THREE_LEAD_TARGETS
      ensures Writes(s, cs, THREE_LEAD).chip.regs[a] == s.chip.regs[a]
    {
      forall i | 0 <= i < |THREE_LEAD|
        ensures Target(THREE_LEAD[i].addr) != a
      {
        ThreeLeadStepTarget(i);
      }
      WritesRegs(s, cs, THREE_LEAD, a);
      LastValueUntouched(THREE_LEAD, a, s.chip.regs[a]);
    }
  }

  /**
   * Running the 3-lead setup on a device that it has already configured
   * leaves the register file as it is, whatever has been on the bus since.
   */
  lemma ThreeLeadIdempotent(s: BusState, t: BusState, cs: Byte)
    requires t.chip.regs == Writes(s, cs, THREE_LEAD).chip.regs
    ensures Writes(t, cs, THREE_LEAD).chip.regs == t.chip.regs
  {
    var t' := Writes(t, cs, THREE_LEAD);
    ThreeLeadRegisters(s, cs);
    ThreeLeadRegisters(t, cs);
    assert forall a :: 0 <= a < 0x80 ==> t'.chip.regs[a] == t.chip.regs[a];
  }

  /** The rate writes of a triple as bytes: R1_RATE, R2_RATE, then R3_RATE_CH1..CH3. */
  lemma RateWritesBytes(t: Triple)
    ensures RateWrites(t) == [RegWrite(0x25, R1Reg(t.r1)), RegWrite(0x21, R2Code(t.r2)), RegWrite(0x22, R3Code(t.r3)),
                              RegWrite(0x23, R3Code(t.r3)), RegWrite(0x24, R3Code(t.r3))]
  {
    RateRegisterLayout();
    var ws := RateWrites(t);
    assert ws[0] == RateStep(t, 0) && ws[1] == RateStep(t, 1) && ws[2] == RateStep(t, 2);
    assert ws[3] == RateStep(t, 3) && ws[4] == RateStep(t, 4);
  }

  /** The rate writes of any choice the search can make: an R1 flag for all channels, one-hot R2 and R3 codes. */
  lemma RateWritesShape(target: real)
    requires 0.0 <= target < INITIAL_ERR
    ensures var ws := RateWrites(Scan1(2, target).t);
            ws[0].addr == 0x25 && ws[1].addr == 0x21 && ws[2].addr == 0x22 && ws[3].addr == 0x23 && ws[4].addr == 0x24 &&
            ws[0].value in {0x00, 0x07} && ws[1].value in {0x01, 0x02, 0x04, 0x08} &&
            ws[2].value in {0x01, 0x02, 0x04, 0x08, 0x10, 0x20, 0x40, 0x80} &&
            ws[3].value == ws[2].value && ws[4].value == ws[2].value
  {
    var t := Scan1(2, target).t;
    SearchTried(target);
    RateWritesBytes(t);
  }

  /** The five rate writes determine the triple: different candidate triples are programmed differently. */
  lemma RateWritesDetermineTriple(t: Triple, u: Triple)
    requires Tried(t) && Tried(u) && RateWrites(t) == RateWrites(u)
    ensures t == u
  {
    RateWritesBytes(t);
    RateWritesBytes(u);
    R2CodeOneHot(0, t.r2);
    R3CodeOneHot(0, t.r3);
    CodesInjective(t.r2, u.r2);
    CodesInjective(t.r3, u.r3);
  }

  /** SPS_1600 programs R1 = 4, R2 = 4 and R3 = 4 on every channel. */
  lemma Rate1600Writes(s: SamplingRate)
    requires s == SPS_1600
    ensures RateWrites(Scan1(2, TargetHz(s)).t) ==
            [RegWrite(0x25, 0x00), RegWrite(0x21, 0x01), RegWrite(0x22, 0x01), RegWrite(0x23, 0x01), RegWrite(0x24, 0x01)]
  {
    Resolve1600();
    SearchIsResolved(TargetHz(s));
    RateWritesBytes(Triple(4, 4, 4));
  }

  /**
   * SPS_25600, SPS_12800, SPS_6400 and SPS_3200 all program the same
   * registers: R1 = 2 on all channels, R2 = 4 and R3 = 4, which is 3200 Hz.
   */
  lemma FastPresetsSameWrites(s: SamplingRate)
    requires s.Code() <= 3
    ensures RateWrites(Scan1(2, TargetHz(s)).t) ==
            [RegWrite(0x25, 0x07), RegWrite(0x21, 0x01), RegWrite(0x22, 0x01), RegWrite(0x23, 0x01), RegWrite(0x24, 0x01)]
    ensures Odr(Scan1(2, TargetHz(s)).t) == 3200.0
  {
    var target := TargetHz(s);
    assert target >= 3200.0;
    FastPresetsCollapse(target);
    SearchIsResolved(target);
    OdrFastest();
    assert Scan1(2, target).t == Triple(2, 4, 4);
    RateWritesBytes(Triple(2, 4, 4));
    assert R1Reg(2) == 0x07 && R2Code(4) == 0x01 && R3Code(4) == 0x01;
  }

  /**
   * The masks of `disableFilter` for channels 1, 2 and 3 are separate bits,
   * and together they make the 0x07 of `disableFilterAll`.
   */
  lemma FilterMasksCoverAll()
    ensures BitOr(BitOr(FilterMask(1), FilterMask(2)), FilterMask(3)) == 0x07
    ensures BitAnd(FilterMask(1), FilterMask(2)) == 0 && BitAnd(FilterMask(1), FilterMask(3)) == 0
    ensures BitAnd(FilterMask(2), FilterMask(3)) == 0
  {
    assert FilterMask(1) == 1 && FilterMask(2) == 2 && FilterMask(3) == 4;
    OrDisjointAt(2, 1, 1, 1);
    OrComm(1, 2);
    OrDisjoint(1, 3, 2);
    AndSingleBit(1, 1);
    AndSingleBit(1, 2);
    AndSingleBit(2, 2);
  }

  /**
   * `setChannelGain` writes CMDET_EN for channel 1, CMDET_CN for channel 2
   * and RLD_CN for channel 3.  After `begin3LeadECG` a gain on channel 1 or 3
   * always replaces the common-mode or right-leg-drive setting with a
   * different byte.
   */
  lemma GainAfterThreeLead(s: BusState, cs: Byte, channel: Byte, g: PgaGain)
    requires 1 <= channel <= 3
    ensures FromAddr(GainAddr(channel)) == Some(if channel == 1 then CMDET_EN else if channel == 2 then CMDET_CN else RLD_CN)
    ensures var before := Writes(s, cs, THREE_LEAD);
            var after := AfterWrite(before, cs, RegWrite(GainAddr(channel), g.Value()));
            after.chip.regs[GainAddr(channel)] == g.Value() &&
            (channel != 2 ==> after.chip.regs[GainAddr(channel)] != before.chip.regs[GainAddr(channel)])
  {
    ThreeLeadRegisters(s, cs);
    var w := RegWrite(GainAddr(channel), g.Value());
    AfterWriteRegs(Writes(s, cs, THREE_LEAD), cs, w);
  }

  /**
   * `enableTestSignalAll` puts the signal's byte into FLEX_CH1_CN,
   * FLEX_CH2_CN and FLEX_CH3_CN and leaves every other register alone.
   */
  lemma TestSignalRegisters(s: BusState, cs: Byte, sig: TestSignal)
    ensures var r := Writes(s, cs, TestSignalWrites(sig)).chip.regs;
            r[FLEX_CH1_CN.Addr()] == TestSignalByte(sig) && r[FLEX_CH2_CN.Addr()] == TestSignalByte(sig) &&
            r[FLEX_CH3_CN.Addr()] == TestSignalByte(sig)
    ensures forall a :: 0 <= a < 0x80 && !(1 <= a <= 3) ==>
              Writes(s, cs, TestSignalWrites(sig)).chip.regs[a] == s.chip.regs[a]
  {
    var ws := TestSignalWrites(sig);
    assert DistinctTargets(ws);
    forall k | 0 <= k < 3
      ensures Writes(s, cs, ws).chip.regs[ws[k].addr] == TestSignalByte(sig)
    {
      assert Target(ws[k].addr) == ws[k].addr == k + 1;
      WritesRegs(s, cs, ws, ws[k].addr);
      LastValueAt(ws, k, s.chip.regs[ws[k].addr]);
    }
    assert ws[0].addr == FLEX_CH1_CN.Addr() && ws[1].addr == FLEX_CH2_CN.Addr() && ws[2].addr == FLEX_CH3_CN.Addr();
    forall a | 0 <= a < 0x80 && !(1 <= a <= 3)
      ensures Writes(s, cs, ws).chip.regs[a] == s.chip.regs[a]
    {
      WritesRegs(s, cs, ws, a);
      LastValueUntouched(ws, a, s.chip.regs[a]);
    }
  }

  /**
   * `getRaw24` reads the same three bytes that `getECGData` decodes for the
   * channel: sign-extending its code gives the channel's sample.
   */
  lemma Raw24MatchesBurst(regs: RegFile, channel: Byte)
    requires 1 <= channel <= 3
    ensures var b := BurstBytes(regs, RawStart(channel), 3);
            SignExtend24(Assemble24(b[0], b[1], b[2])) == BurstChannel(SampleBytes(regs), channel - 1)
  {
    var b := BurstBytes(regs, RawStart(channel), 3);
    var all := SampleBytes(regs);
    var k := channel - 1;
    assert b[0] == regs[RawStart(channel)] == all[3 * k];
    assert b[1] == regs[RawStart(channel) + 1] == all[3 * k + 1];
    assert b[2] == regs[RawStart(channel) + 2] == all[3 * k + 2];
  }
}
