/**
 * What one register access does on the bus, as a value: the events a
 * write or a (burst) read puts on the trace, the bytes a read returns, and
 * the register file and trace after a list of writes.  The driver's
 * methods are proved against these functions.
 */
module Transactions {
  import opened Bits
  import opened RegisterMap
  import opened Bus

  /** One register write: the address byte the driver passes, and the value. */
  datatype RegWrite = RegWrite(addr: Byte, value: Byte)

  /** Where a command for `addr` points: its seven low bits. */
  function Target(addr: Byte): (t: Addr7)
    ensures addr < 0x80 ==> t == addr
  {
    ModBelow(addr, 0x80);
    addr % 0x80
  }

  /**
   * The events of `writeRegister`: begin a transaction, select the chip,
   * send the write command and the value, deselect, end the transaction.
   * The device answers both bytes with 0.
   */
  function WriteFrame(cs: Byte, w: RegWrite): (f: seq<Event>)
  {
    [BeginTx, Pin(cs, Low), Xfer(WriteCommand(w.addr), 0), Xfer(w.value, 0), Pin(cs, High), EndTx]
  }

  /** The register address after `i` steps of auto-increment from `start`. */
  function Advance(start: Addr7, i: nat): (a: Addr7)
    ensures start + i < 0x80 ==> a == start + i
  {
    ModBelow(start + i, 0x80);
    (start + i) % 0x80
  }

  /** One more step of auto-increment moves the address counter on by one, wrapping at 0x80. */
  lemma AdvanceNext(start: Addr7, i: nat)
    ensures Next(Advance(start, i)) == Advance(start, i + 1)
  {
    var n := start + i;
    var q, r := n / 0x80, n % 0x80;
    DivModUnique(n, 0x80, q, r);
    if r < 0x7F {
      DivModUnique(n + 1, 0x80, q, r + 1);
      DivModUnique(r + 1, 0x80, 0, r + 1);
    } else {
      DivModUnique(n + 1, 0x80, q + 1, 0);
      DivModUnique(r + 1, 0x80, 1, 0);
    }
  }

  /** The n bytes an auto-incrementing read from `start` clocks out. */
  function BurstBytes(regs: RegFile, start: Addr7, n: nat): (b: seq<Byte>)
    ensures |b| == n
  {
    seq(n, i requires 0 <= i < n => regs[Advance(start, i)])
  }

  /** The dummy 0x00 transfers of a burst read and the bytes they return. */
  function ReadXfers(regs: RegFile, start: Addr7, n: nat): (x: seq<Event>)
    ensures |x| == n
  {
    seq(n, i requires 0 <= i < n => Xfer(0, regs[Advance(start, i)]))
  }

  /** The events before the data bytes of a read: begin, select, read command. */
  function ReadHead(cs: Byte, addr: Byte): seq<Event>
  {
    [BeginTx, Pin(cs, Low), Xfer(ReadCommand(addr), 0)]
  }

  /** The events after the data bytes of a read: deselect, end. */
  function ReadTail(cs: Byte): seq<Event>
  {
    [Pin(cs, High), EndTx]
  }

  /** The events of an n-byte read starting at `addr`. */
  function ReadFrame(cs: Byte, regs: RegFile, addr: Byte, n: nat): (f: seq<Event>)
    ensures |f| == n + 5
  {
    ReadHead(cs, addr) + ReadXfers(regs, Target(addr), n) + ReadTail(cs)
  }

  /**
   * A read frame is the read command for the address, then one dummy
   * transfer per byte, each answered with the next register's byte.
   */
  lemma ReadFrameData(cs: Byte, regs: RegFile, addr: Byte, n: nat)
    ensures var f := ReadFrame(cs, regs, addr, n);
            f[2].Xfer? && DecodeCommand(f[2].mosi) == Command.Read(Target(addr)) &&
            forall i :: 3 <= i < n + 3 ==> f[i] == Xfer(0, BurstBytes(regs, Target(addr), n)[i - 3])
  {
  }

  /** The bus after a write: the frame on the trace, the value in its register, the chip idle. */
  function AfterWrite(s: BusState, cs: Byte, w: RegWrite): (s': BusState)
  {
    BusState(s.trace + WriteFrame(cs, w), Chip(s.chip.regs[Target(w.addr) := w.value], Idle))
  }

  /** A write frame carries the write command for the address, then the value. */
  lemma WriteFrameData(cs: Byte, w: RegWrite)
    ensures var f := WriteFrame(cs, w);
            |f| == 6 && f[2].Xfer? && f[3].Xfer? &&
            DecodeCommand(f[2].mosi) == Command.Write(Target(w.addr)) && f[3].mosi == w.value
  {
  }

  /** A write changes its target register to the value, and no other register; the chip is left idle. */
  lemma AfterWriteRegs(s: BusState, cs: Byte, w: RegWrite)
    ensures AfterWrite(s, cs, w).chip.phase == Idle
    ensures AfterWrite(s, cs, w).chip.regs[Target(w.addr)] == w.value
    ensures forall a :: 0 <= a < 0x80 && a != Target(w.addr) ==> AfterWrite(s, cs, w).chip.regs[a] == s.chip.regs[a]
  {
  }

  /** The bus after an n-byte read: the frame on the trace, the registers untouched, the chip idle. */
  function AfterRead(s: BusState, cs: Byte, addr: Byte, n: nat): (s': BusState)
    ensures s'.chip.regs == s.chip.regs && s'.chip.phase == Idle
    ensures |s'.trace| == |s.trace| + n + 5 && s'.trace[..|s.trace|] == s.trace
  {
    BusState(s.trace + ReadFrame(cs, s.chip.regs, addr, n), Chip(s.chip.regs, Idle))
  }

  /** The bus after a list of writes, issued in order. */
  function Writes(s: BusState, cs: Byte, ws: seq<RegWrite>): BusState
  {
    if ws == [] then s else AfterWrite(Writes(s, cs, ws[..|ws| - 1]), cs, ws[|ws| - 1])
  }

  /** The frames of a list of writes, one after the other. */
  function Frames(cs: Byte, ws: seq<RegWrite>): seq<Event>
  {
    if ws == [] then [] else Frames(cs, ws[..|ws| - 1]) + WriteFrame(cs, ws[|ws| - 1])
  }

  /** The value the last write to `a` in the list leaves there, or `d` if none writes it. */
  function LastValue(ws: seq<RegWrite>, a: Addr7, d: Byte): Byte
  {
    if ws == [] then d
    else if Target(ws[|ws| - 1].addr) == a then ws[|ws| - 1].value
    else LastValue(ws[..|ws| - 1], a, d)
  }

  /** One more write extends `Writes` by one step. */
  lemma WritesSnoc(s: BusState, cs: Byte, ws: seq<RegWrite>, w: RegWrite)
    ensures Writes(s, cs, ws + [w]) == AfterWrite(Writes(s, cs, ws), cs, w)
  {
    assert (ws + [w])[..|ws|] == ws;
  }

  /** Two lists of writes issued one after the other are their concatenation. */
  lemma {:induction false} WritesAppend(s: BusState, cs: Byte, ws: seq<RegWrite>, vs: seq<RegWrite>)
    ensures Writes(s, cs, ws + vs) == Writes(Writes(s, cs, ws), cs, vs)
    decreases |vs|
  {
    if vs == [] {
      assert ws + vs == ws;
    } else {
      var n := |vs| - 1;
      assert (ws + vs)[..|ws + vs| - 1] == ws + vs[..n];
      WritesAppend(s, cs, ws, vs[..n]);
    }
  }

  /** A list of writes puts exactly the frames of its writes on the trace. */
  lemma {:induction false} WritesTrace(s: BusState, cs: Byte, ws: seq<RegWrite>)
    ensures Writes(s, cs, ws).trace == s.trace + Frames(cs, ws)
    decreases |ws|
  {
    if ws != [] {
      WritesTrace(s, cs, ws[..|ws| - 1]);
    }
  }

  /** After a list of writes, each register holds the last value written to it, or its old value. */
  lemma {:induction false} WritesRegs(s: BusState, cs: Byte, ws: seq<RegWrite>, a: Addr7)
    ensures Writes(s, cs, ws).chip.regs[a] == LastValue(ws, a, s.chip.regs[a])
    decreases |ws|
  {
    if ws != [] {
      WritesRegs(s, cs, ws[..|ws| - 1], a);
    }
  }

  /** No two writes of the list go to the same register. */
  predicate DistinctTargets(ws: seq<RegWrite>)
  {
    forall i, j :: 0 <= i < j < |ws| ==> Target(ws[i].addr) != Target(ws[j].addr)
  }

  /** With distinct targets, each write's value is the last one its register sees. */
  lemma {:induction false} LastValueAt(ws: seq<RegWrite>, k: nat, d: Byte)
    requires DistinctTargets(ws) && k < |ws|
    ensures LastValue(ws, Target(ws[k].addr), d) == ws[k].value
    decreases |ws|
  {
    var n := |ws| - 1;
    if k < n {
      assert Target(ws[n].addr) != Target(ws[k].addr);
      var init := ws[..n];
      assert DistinctTargets(init) by {
        forall i, j | 0 <= i < j < |init|
          ensures Target(init[i].addr) != Target(init[j].addr)
        {
          assert init[i] == ws[i] && init[j] == ws[j];
        }
      }
      assert init[k] == ws[k];
      LastValueAt(init, k, d);
    }
  }

  /** A register no write of the list targets keeps its value. */
  lemma {:induction false} LastValueUntouched(ws: seq<RegWrite>, a: Addr7, d: Byte)
    requires forall i :: 0 <= i < |ws| ==> Target(ws[i].addr) != a
    ensures LastValue(ws, a, d) == d
    decreases |ws|
  {
    if ws != [] {
      var init := ws[..|ws| - 1];
      assert forall i :: 0 <= i < |init| ==> init[i] == ws[i];
      LastValueUntouched(init, a, d);
    }
  }

  /** Reading a register right after writing it returns the value written. */
  lemma ReadAfterWrite(s: BusState, cs: Byte, w: RegWrite)
    ensures BurstBytes(AfterWrite(s, cs, w).chip.regs, Target(w.addr), 1) == [w.value]
  {
    var b := BurstBytes(AfterWrite(s, cs, w).chip.regs, Target(w.addr), 1);
    assert b[0] == w.value;
  }
}
