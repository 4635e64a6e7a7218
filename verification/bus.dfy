/**
 * The SPI bus the driver talks through, with one ADS1293 on it.  What the
 * driver does is recorded as a trace of events (begin and end of a
 * transaction, a chip-select level, a byte exchanged), and the device is a
 * register file behind a small state machine: the first byte after chip
 * select goes low is a command, the following bytes read or write
 * consecutive registers, and chip select going high ends the transfer.
 */
module Bus {
  import opened Bits
  import opened RegisterMap

  /** A 7-bit register address. */
  type Addr7 = x: int | 0 <= x < 0x80

  /** The device's register file, one byte per 7-bit address. */
  type RegFile = s: seq<Byte> | |s| == 0x80 witness seq(0x80, i => 0)

  datatype Level = Low | High

  datatype Event =
    | BeginTx                          // spi->beginTransaction(...)
    | EndTx                            // spi->endTransaction()
    | Pin(pin: Byte, level: Level)     // digitalWrite(pin, level)
    | Xfer(mosi: Byte, miso: Byte)     // miso = spi->transfer(mosi)

  /** Where the device is within a transfer. */
  datatype Phase = Idle | AwaitCommand | Reading(ptr: Addr7) | Writing(ptr: Addr7)

  datatype Chip = Chip(regs: RegFile, phase: Phase)

  datatype Clocked = Clocked(chip: Chip, miso: Byte)

  function Next(p: Addr7): Addr7 { (p + 1) % 0x80 }

  /**
   * One byte exchanged with the device: the command byte selects a
   * direction and a start address; each later byte reads or writes the
   * register at the address counter and moves the address counter on.
   */
  function Clock(c: Chip, mosi: Byte): Clocked
  {
    match c.phase
    case Idle => Clocked(c, 0)
    case AwaitCommand =>
      (match DecodeCommand(mosi)
       case Read(a) => Clocked(Chip(c.regs, Reading(a)), 0)
       case Write(a) => Clocked(Chip(c.regs, Writing(a)), 0))
    case Reading(p) => Clocked(Chip(c.regs, Reading(Next(p))), c.regs[p])
    case Writing(p) => Clocked(Chip(c.regs[p := mosi], Writing(Next(p))), 0)
  }

  /** Chip select low starts a new command; high ends the transfer. */
  function Select(c: Chip, level: Level): Chip
  {
    match level
    case Low => Chip(c.regs, AwaitCommand)
    case High => Chip(c.regs, Idle)
  }

  /** Everything the driver can observe or change through the bus. */
  datatype BusState = BusState(trace: seq<Event>, chip: Chip)

  class Hardware {
    var trace: seq<Event>
    var chip: Chip

    function State(): BusState
      reads this
    {
      BusState(trace, chip)
    }

    constructor(regs: RegFile)
      ensures trace == [] && chip == Chip(regs, Idle)
    {
      trace := [];
      chip := Chip(regs, Idle);
    }

    method BeginTransaction()
      modifies this
      ensures trace == old(trace) + [BeginTx] && chip == old(chip)
    {
      trace := trace + [BeginTx];
    }

    method EndTransaction()
      modifies this
      ensures trace == old(trace) + [EndTx] && chip == old(chip)
    {
      trace := trace + [EndTx];
    }

    method DigitalWrite(pin: Byte, level: Level)
      modifies this
      ensures trace == old(trace) + [Pin(pin, level)]
      ensures chip == Select(old(chip), level)
    {
      trace := trace + [Pin(pin, level)];
      chip := Select(chip, level);
    }

    method Transfer(mosi: Byte) returns (miso: Byte)
      modifies this
      ensures Clocked(chip, miso) == Clock(old(chip), mosi)
      ensures trace == old(trace) + [Xfer(mosi, miso)]
    {
      var r := Clock(chip, mosi);
      chip, miso := r.chip, r.miso;
      trace := trace + [Xfer(mosi, miso)];
    }
  }
}
