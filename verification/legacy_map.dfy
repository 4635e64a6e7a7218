/**
 * The register map of the older `ads1293` driver: the command masks and
 * the 28 register macros of its header.  They agree with the register map
 * of the current driver, which names three more registers (ERR_STATUS,
 * MASK_ERR and SYNCB_CN).
 */
module LegacyMap {
  import opened Bits
  import RegisterMap

  /** `WREG`: ANDed with an address to form a write command. */
  const WREG: Byte := 0x7f
  /** `RREG`: ORed with an address to form a read command. */
  const RREG: Byte := 0x80

  const CONFIG: Byte := 0x00
  const FLEX_CH1_CN: Byte := 0x01
  const FLEX_CH2_CN: Byte := 0x02
  const FLEX_CH3_CN: Byte := 0x03
  const FLEX_PACE_CN: Byte := 0x04
  const FLEX_VBAT_CN: Byte := 0x05
  const LOD_CN: Byte := 0x06
  const LOD_EN: Byte := 0x07
  const LOD_CURRENT: Byte := 0x08
  const LOD_AC_CN: Byte := 0x09
  const CMDET_EN: Byte := 0x0a
  const CMDET_CN: Byte := 0x0b
  const RLD_CN: Byte := 0x0c
  const REF_CN: Byte := 0x11
  const OSC_CN: Byte := 0x12
  const AFE_RES: Byte := 0x13
  const AFE_SHDN_CN: Byte := 0x14
  const AFE_FAULT_CN: Byte := 0x15
  const AFE_PACE_CN: Byte := 0x17
  const R2_RATE: Byte := 0x21
  const R3_RATE_CH1: Byte := 0x22
  const R3_RATE_CH2: Byte := 0x23
  const R3_RATE_CH3: Byte := 0x24
  const R1_RATE: Byte := 0x25
  const DIS_EFILTER: Byte := 0x26
  const DRDYB_SRC: Byte := 0x27
  const CH_CNFG: Byte := 0x2f
  const REVID: Byte := 0x40

  /** The register macros, in the order the header defines them. */
  const MACROS: seq<Byte> :=
    [CONFIG, FLEX_CH1_CN, FLEX_CH2_CN, FLEX_CH3_CN, FLEX_PACE_CN, FLEX_VBAT_CN, LOD_CN,
     LOD_EN, LOD_CURRENT, LOD_AC_CN, CMDET_EN, CMDET_CN, RLD_CN, REF_CN, OSC_CN, AFE_RES,
     AFE_SHDN_CN, AFE_FAULT_CN, AFE_PACE_CN, R2_RATE, R3_RATE_CH1, R3_RATE_CH2, R3_RATE_CH3,
     R1_RATE, DIS_EFILTER, DRDYB_SRC, CH_CNFG, REVID]

  /** The registers of the current map with the same names, in the same order. */
  const NAMED: seq<RegisterMap.Register> :=
    [RegisterMap.CONFIG, RegisterMap.FLEX_CH1_CN, RegisterMap.FLEX_CH2_CN, RegisterMap.FLEX_CH3_CN,
     RegisterMap.FLEX_PACE_CN, RegisterMap.FLEX_VBAT_CN, RegisterMap.LOD_CN, RegisterMap.LOD_EN,
     RegisterMap.LOD_CURRENT, RegisterMap.LOD_AC_CN, RegisterMap.CMDET_EN, RegisterMap.CMDET_CN,
     RegisterMap.RLD_CN, RegisterMap.REF_CN, RegisterMap.OSC_CN, RegisterMap.AFE_RES,
     RegisterMap.AFE_SHDN_CN, RegisterMap.AFE_FAULT_CN, RegisterMap.AFE_PACE_CN, RegisterMap.R2_RATE,
     RegisterMap.R3_RATE_CH1, RegisterMap.R3_RATE_CH2, RegisterMap.R3_RATE_CH3, RegisterMap.R1_RATE,
     RegisterMap.DIS_EFILTER, RegisterMap.DRDYB_SRC, RegisterMap.CH_CNFG, RegisterMap.REVID]

  /** The masks are those of the current driver, and form the same commands. */
  lemma LegacyMasks(addr: Byte)
    ensures WREG == RegisterMap.WREG_MASK && RREG == RegisterMap.RREG_FLAG
    ensures BitAnd(addr, WREG) == RegisterMap.WriteCommand(addr)
    ensures BitOr(addr, RREG) == RegisterMap.ReadCommand(addr)
  {
    RegisterMap.WriteCommandBitwise(addr);
    RegisterMap.ReadCommandBitwise(addr);
  }

  predicate StrictlyIncreasing(s: seq<int>)
  {
    forall i, j :: 0 <= i < j < |s| ==> s[i] < s[j]
  }

  /** A list that grows from each element to the next grows throughout. */
  lemma {:induction false} AdjacentIncreasing(s: seq<int>)
    requires forall i :: 0 <= i < |s| - 1 ==> s[i] < s[i + 1]
    ensures StrictlyIncreasing(s)
    decreases |s|
  {
    if |s| > 1 {
      var n := |s| - 1;
      var init := s[..n];
      assert forall i :: 0 <= i < |init| ==> init[i] == s[i];
      AdjacentIncreasing(init);
      forall i, j | 0 <= i < j < |s|
        ensures s[i] < s[j]
      {
        if j < n {
          assert init[i] < init[j];
        } else if i < n - 1 {
          assert init[i] < init[n - 1];
        }
      }
    }
  }

  /**
   * The macros are defined in increasing order, so no two name the same
   * register, and all of them are 7-bit addresses.
   */
  lemma MacrosDistinct()
    ensures StrictlyIncreasing(MACROS)
    ensures forall i :: 0 <= i < |MACROS| ==> MACROS[i] < 0x80
  {
    AdjacentIncreasing(MACROS);
  }

  /** The current map names each macro's address after the macro. */
  lemma MacrosNameRegisters()
    ensures |NAMED| == |MACROS|
    ensures forall i :: 0 <= i < |MACROS| ==> RegisterMap.FromAddr(MACROS[i]) == RegisterMap.Some(NAMED[i])
  {
  }

  /** Each macro is the address of the like-named register of the current map. */
  lemma MacroMatchesRegister(i: nat)
    requires i < |MACROS|
    ensures |NAMED| == |MACROS| && MACROS[i] == NAMED[i].Addr()
  {
    MacrosNameRegisters();
    RegisterMap.FromAddrInverse(MACROS[i]);
  }
}
