/**
 * The ADS1293 register map and the option values of the driver header: the
 * register addresses, the bytes that turn an address into a read or write
 * command, the payload byte behind each configuration option, the test
 * signal and gain codes, and the sampling-rate presets.
 */
module RegisterMap {
  import opened Bits

  datatype Option<T> = None | Some(value: T)

  /** `WREG_MASK`: ANDed with an address to form a write command. */
  const WREG_MASK: Byte := 0x7F

  /** `RREG_FLAG`: ORed with an address to form a read command. */
  const RREG_FLAG: Byte := 0x80

  /** The registers named by the driver, with their addresses. */
  datatype Register =
    | CONFIG | FLEX_CH1_CN | FLEX_CH2_CN | FLEX_CH3_CN | FLEX_PACE_CN | FLEX_VBAT_CN
    | LOD_CN | LOD_EN | LOD_CURRENT | LOD_AC_CN | CMDET_EN | CMDET_CN | RLD_CN
    | REF_CN | OSC_CN | AFE_RES | AFE_SHDN_CN | AFE_FAULT_CN | AFE_PACE_CN
    | ERR_STATUS | MASK_ERR | R2_RATE | R3_RATE_CH1 | R3_RATE_CH2 | R3_RATE_CH3
    | R1_RATE | DIS_EFILTER | DRDYB_SRC | SYNCB_CN | CH_CNFG | REVID
  {
    function Addr(): Byte
    {
      match this
      case CONFIG => 0x00
      case FLEX_CH1_CN => 0x01
      case FLEX_CH2_CN => 0x02
      case FLEX_CH3_CN => 0x03
      case FLEX_PACE_CN => 0x04
      case FLEX_VBAT_CN => 0x05
      case LOD_CN => 0x06
      case LOD_EN => 0x07
      case LOD_CURRENT => 0x08
      case LOD_AC_CN => 0x09
      case CMDET_EN => 0x0A
      case CMDET_CN => 0x0B
      case RLD_CN => 0x0C
      case REF_CN => 0x11
      case OSC_CN => 0x12
      case AFE_RES => 0x13
      case AFE_SHDN_CN => 0x14
      case AFE_FAULT_CN => 0x15
      case AFE_PACE_CN => 0x17
      case ERR_STATUS => 0x19
      case MASK_ERR => 0x2A
      case R2_RATE => 0x21
      case R3_RATE_CH1 => 0x22
      case R3_RATE_CH2 => 0x23
      case R3_RATE_CH3 => 0x24
      case R1_RATE => 0x25
      case DIS_EFILTER => 0x26
      case DRDYB_SRC => 0x27
      case SYNCB_CN => 0x28
      case CH_CNFG => 0x2F
      case REVID => 0x40
    }
  }

  /** The register at an address, if the map names one. */
  function FromAddr(a: Byte): Option<Register>
  {
    match a
    case 0x00 => Some(CONFIG)
    case 0x01 => Some(FLEX_CH1_CN)
    case 0x02 => Some(FLEX_CH2_CN)
    case 0x03 => Some(FLEX_CH3_CN)
    case 0x04 => Some(FLEX_PACE_CN)
    case 0x05 => Some(FLEX_VBAT_CN)
    case 0x06 => Some(LOD_CN)
    case 0x07 => Some(LOD_EN)
    case 0x08 => Some(LOD_CURRENT)
    case 0x09 => Some(LOD_AC_CN)
    case 0x0A => Some(CMDET_EN)
    case 0x0B => Some(CMDET_CN)
    case 0x0C => Some(RLD_CN)
    case 0x11 => Some(REF_CN)
    case 0x12 => Some(OSC_CN)
    case 0x13 => Some(AFE_RES)
    case 0x14 => Some(AFE_SHDN_CN)
    case 0x15 => Some(AFE_FAULT_CN)
    case 0x17 => Some(AFE_PACE_CN)
    case 0x19 => Some(ERR_STATUS)
    case 0x2A => Some(MASK_ERR)
    case 0x21 => Some(R2_RATE)
    case 0x22 => Some(R3_RATE_CH1)
    case 0x23 => Some(R3_RATE_CH2)
    case 0x24 => Some(R3_RATE_CH3)
    case 0x25 => Some(R1_RATE)
    case 0x26 => Some(DIS_EFILTER)
    case 0x27 => Some(DRDYB_SRC)
    case 0x28 => Some(SYNCB_CN)
    case 0x2F => Some(CH_CNFG)
    case 0x40 => Some(REVID)
    case _ => None
  }

  /**
   * Every register has a 7-bit address and is the only register at it, so
   * distinct registers have distinct addresses.
   */
  lemma AddrRoundTrip(r: Register)
    ensures r.Addr() < 0x80
    ensures FromAddr(r.Addr()) == Some(r)
  {
  }

  /** An address that names a register is that register's address. */
  lemma FromAddrInverse(a: Byte)
    ensures FromAddr(a).Some? ==> FromAddr(a).value.Addr() == a
  {
  }

  lemma AddrInjective(r: Register, q: Register)
    ensures r.Addr() == q.Addr() ==> r == q
  {
    AddrRoundTrip(r);
    AddrRoundTrip(q);
  }

  /** The rate registers: R2 at 0x21, then R3 for channels 1..3 in a row, then R1. */
  lemma RateRegisterLayout()
    ensures R2_RATE.Addr() == 0x21 && R1_RATE.Addr() == 0x25
    ensures R3_RATE_CH2.Addr() == R3_RATE_CH1.Addr() + 1
    ensures R3_RATE_CH3.Addr() == R3_RATE_CH2.Addr() + 1
    ensures R1_RATE.Addr() == R3_RATE_CH3.Addr() + 1
  {
  }

  /**
   * `addr & WREG_MASK`: the write command for an address.  It always has
   * bit 7 clear and leaves a 7-bit address unchanged.
   */
  function WriteCommand(addr: Byte): (cmd: Byte)
    ensures cmd < 0x80
    ensures addr < 0x80 ==> cmd == addr
  {
    addr % 0x80  // addr & 0x7F
  }

  /** `WriteCommand` is the AND with `WREG_MASK`, which clears bit 7 and nothing else. */
  lemma WriteCommandBitwise(addr: Byte)
    ensures WriteCommand(addr) == BitAnd(addr, WREG_MASK)
    ensures Bit(WriteCommand(addr), 7) == 0
  {
    ByteLowMask(addr);
    Pow2Values();
    var cmd := WriteCommand(addr);
    assert cmd / Pow2(7) == 0;
  }

  /**
   * `addr | RREG_FLAG`: the read command for an address.  It always has
   * bit 7 set and keeps the seven low bits of the address.
   */
  function ReadCommand(addr: Byte): (cmd: Byte)
    ensures cmd >= 0x80
    ensures cmd % 0x80 == addr % 0x80
  {
    addr % 0x80 + 0x80  // addr | 0x80
  }

  /** `ReadCommand` is the OR with `RREG_FLAG`, which sets bit 7 and nothing else. */
  lemma ReadCommandBitwise(addr: Byte)
    ensures ReadCommand(addr) == BitOr(addr, RREG_FLAG)
    ensures Bit(ReadCommand(addr), 7) == 1
  {
    ByteHighFlag(addr);
    Pow2Values();
  }

  /** How the device reads the first byte of a transaction: bit 7 selects read. */
  datatype Command = Read(addr: Byte) | Write(addr: Byte)

  function DecodeCommand(cmd: Byte): (c: Command)
    ensures c.addr < 0x80
    ensures c.Read? <==> cmd >= 0x80
  {
    if cmd >= 0x80 then Read(cmd - 0x80) else Write(cmd)
  }

  /**
   * The device decodes each command back to the address it was formed
   * from, and to the right direction, for every register of the map.
   */
  lemma CommandRoundTrip(r: Register)
    ensures DecodeCommand(WriteCommand(r.Addr())) == Write(r.Addr())
    ensures DecodeCommand(ReadCommand(r.Addr())) == Read(r.Addr())
  {
    AddrRoundTrip(r);
  }

  // Configuration options and their payload bytes.

  datatype FlexCh1Mode = FlexCh1Default
  {
    function Payload(): Byte { 0x11 }
  }

  datatype FlexCh2Mode = FlexCh2Default
  {
    function Payload(): Byte { 0x19 }
  }

  /** Used by the five-lead setup. */
  datatype FlexCh3Mode = FlexCh3Default
  {
    function Payload(): Byte { 0x2E }
  }

  datatype CMDetMode = CMDetEnabled
  {
    function Payload(): Byte { 0x07 }
  }

  datatype RLDMode = RLDDefault
  {
    function Payload(): Byte { 0x04 }
  }

  datatype OscMode = OscDefault
  {
    function Payload(): Byte { 0x04 }
  }

  datatype AFEShutdownMode = AFEShutdownDefault | AFEOn
  {
    function Payload(): Byte
    {
      match this
      case AFEShutdownDefault => 0x24
      case AFEOn => 0x00
    }
  }

  datatype R2Rate = R2Rate2
  {
    function Payload(): Byte { 0x02 }
  }

  datatype R3Rate = R3Rate2
  {
    function Payload(): Byte { 0x02 }
  }

  datatype DRDYSource = DRDYDefault
  {
    function Payload(): Byte { 0x08 }
  }

  datatype ChannelConfig = Default3Lead | Default5Lead
  {
    function Payload(): Byte
    {
      match this
      case Default3Lead => 0x30
      case Default5Lead => 0x70
    }
  }

  datatype GlobalConfig = Start
  {
    function Payload(): Byte { 0x01 }
  }

  datatype RefMode = RefDefault
  {
    function Payload(): Byte { 0x01 }
  }

  /** The built-in test signals, with their two-bit codes 1..3. */
  datatype TestSignal = Positive | Negative | Zero
  {
    function Code(): Byte
    {
      match this
      case Positive => 0x01
      case Negative => 0x02
      case Zero => 0x03
    }
  }

  /**
   * `static_cast<uint8_t>(sig) << 6` kept as a byte: the code lands in bits
   * 7:6 whole, so the byte is 0x40, 0x80 or 0xC0 and never 0.
   */
  function TestSignalByte(sig: TestSignal): (v: Byte)
    ensures v != 0 && v % 0x40 == 0
    ensures v / 0x40 == sig.Code()
  {
    (sig.Code() * 0x40) % 0x100  // sig << 6
  }

  /** The three signals give three different bytes. */
  lemma TestSignalByteInjective(s: TestSignal, t: TestSignal)
    ensures TestSignalByte(s) == TestSignalByte(t) ==> s == t
  {
    assert s.Code() == t.Code() ==> s == t;
  }

  /** The PGA gain presets and their register values. */
  datatype PgaGain = G1 | G4 | G6 | G12 | G8
  {
    function Value(): Byte
    {
      match this
      case G1 => 0x00
      case G4 => 0x08
      case G6 => 0x10
      case G12 => 0x18
      case G8 => 0x0C
    }
  }

  /** The output-data-rate presets, in declaration order. */
  datatype SamplingRate =
    | SPS_25600 | SPS_12800 | SPS_6400 | SPS_3200 | SPS_1600 | SPS_1280 | SPS_1066
    | SPS_853 | SPS_800 | SPS_640 | SPS_533 | SPS_426 | SPS_400 | SPS_320 | SPS_266
    | SPS_200 | SPS_160 | SPS_100 | SPS_50 | SPS_25
  {
    /** The underlying `uint8_t` of the enumerator: its position, from 0. */
    function Code(): Byte
    {
      match this
      case SPS_25600 => 0
      case SPS_12800 => 1
      case SPS_6400 => 2
      case SPS_3200 => 3
      case SPS_1600 => 4
      case SPS_1280 => 5
      case SPS_1066 => 6
      case SPS_853 => 7
      case SPS_800 => 8
      case SPS_640 => 9
      case SPS_533 => 10
      case SPS_426 => 11
      case SPS_400 => 12
      case SPS_320 => 13
      case SPS_266 => 14
      case SPS_200 => 15
      case SPS_160 => 16
      case SPS_100 => 17
      case SPS_50 => 18
      case SPS_25 => 19
    }
  }

  /**
   * The preset behind a byte; a value cast to the enum that names no
   * preset has none.
   */
  function SamplingRateFromCode(c: Byte): Option<SamplingRate>
  {
    match c
    case 0 => Some(SPS_25600)
    case 1 => Some(SPS_12800)
    case 2 => Some(SPS_6400)
    case 3 => Some(SPS_3200)
    case 4 => Some(SPS_1600)
    case 5 => Some(SPS_1280)
    case 6 => Some(SPS_1066)
    case 7 => Some(SPS_853)
    case 8 => Some(SPS_800)
    case 9 => Some(SPS_640)
    case 10 => Some(SPS_533)
    case 11 => Some(SPS_426)
    case 12 => Some(SPS_400)
    case 13 => Some(SPS_320)
    case 14 => Some(SPS_266)
    case 15 => Some(SPS_200)
    case 16 => Some(SPS_160)
    case 17 => Some(SPS_100)
    case 18 => Some(SPS_50)
    case 19 => Some(SPS_25)
    case _ => None
  }

  /** There are exactly 20 presets, numbered 0..19, each by its own code. */
  lemma SamplingRateCodes(s: SamplingRate, c: Byte)
    ensures s.Code() < 20
    ensures SamplingRateFromCode(s.Code()) == Some(s)
    ensures SamplingRateFromCode(c).Some? <==> c < 20
    ensures SamplingRateFromCode(c) == Some(s) ==> s.Code() == c
  {
  }

  /** The three channel values of one read and whether the read succeeded. */
  datatype Samples = Samples(ch1: int, ch2: int, ch3: int, ok: bool)

  /** A default-constructed `Samples`. */
  const DEFAULT_SAMPLES := Samples(0, 0, 0, false)
}
