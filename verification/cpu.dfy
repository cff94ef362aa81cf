/**
 * The CPU object: it owns the register file and the stack, shares the
 * memory, holds the two instruction tables, and keeps the T-state counter
 * and the interrupt/halt switches.  fetch decodes the CB prefix.
 *
 * The tables come from a JSON resource; here they are parameters of the
 * constructor, keyed by the opcode byte (the source keys them by the string
 * "0x%02X" of the byte, which is one-to-one on 0..255).
 */
module Cpu {
  import opened Wrappers
  import opened Registers
  import opened Memory
  import opened Stack
  import opened Descriptors

  /** The CPU's own scalar fields. */
  datatype CpuState = CpuState(
    tStates: int,
    ime: bool,
    pendingInterruptSwitch: bool,
    lowPowerMode: bool,
    stopMode: bool,
    didJump: bool,
    running: bool,
    halt: bool,
    pendingImeEnable: bool)

  const Reset: CpuState :=
    CpuState(0, false, false, false, false, false, false, false, false)

  /** `table.get(key)`: None where the table has no entry. */
  function Lookup(table: map<int, OpcodeInfo>, key: int): (r: Option<OpcodeInfo>)
    ensures r.Some? <==> key in table
    ensures r.Some? ==> r.value == table[key]
  {
    if key in table then Some(table[key]) else None
  }

  /**
   * fetch on a snapshot: the descriptor found and the registers afterwards.
   * A 0xCB byte at PC moves PC onto the next byte, which is looked up in the
   * CB-prefixed table.
   */
  function Fetched(m: seq<Byte>, r: Regs, unprefixed: map<int, OpcodeInfo>,
                   cbprefixed: map<int, OpcodeInfo>): (Option<OpcodeInfo>, Regs)
    requires |m| == Size
  {
    if ByteAt(m, r.pc) == 0xCB then
      (Lookup(cbprefixed, ByteAt(m, r.pc + 1)), r.(pc := r.pc + 1))
    else
      (Lookup(unprefixed, ByteAt(m, r.pc)), r)
  }

  /**
   * After fetch, PC rests on the byte that was looked up; it moved (by
   * exactly one) iff the first byte was the 0xCB prefix, and that decides
   * the table.  No other register changes.
   */
  lemma {:induction false} FetchLandsOnOpcode(m: seq<Byte>, r: Regs,
      unprefixed: map<int, OpcodeInfo>, cbprefixed: map<int, OpcodeInfo>)
    requires |m| == Size
    ensures var (info, r') := Fetched(m, r, unprefixed, cbprefixed);
      r' == r.(pc := r'.pc) &&
      (r'.pc == r.pc + 1 <==> ByteAt(m, r.pc) == 0xCB) &&
      (r'.pc == r.pc || r'.pc == r.pc + 1) &&
      info == Lookup(if r'.pc == r.pc then unprefixed else cbprefixed, ByteAt(m, r'.pc))
  {
  }

  class Cpu {
    const regs: Registers
    const mem: Memory
    const stack: Stack
    const unprefixed: map<int, OpcodeInfo>
    const cbprefixed: map<int, OpcodeInfo>

    var tStateCounter: int
    var ime: bool
    var pendingInterruptSwitch: bool
    var lowPowerMode: bool
    var stopMode: bool
    var didJump: bool
    var running: bool
    // setHalt and setPendingImeEnable are called but not defined on the CPU
    // class; they are taken to store their argument in these two fields.
    var halt: bool
    var pendingImeEnable: bool

    ghost predicate Valid()
      reads this, regs, mem, stack
    {
      regs.Valid() && mem.Valid() && stack.regs == regs && stack.mem == mem
    }

    function State(): CpuState
      reads this
    {
      CpuState(tStateCounter, ime, pendingInterruptSwitch, lowPowerMode, stopMode,
               didJump, running, halt, pendingImeEnable)
    }

    /** CPU(memory): fresh registers (all zero) and a stack over them and memory. */
    constructor(mem: Memory, unprefixed: map<int, OpcodeInfo>, cbprefixed: map<int, OpcodeInfo>)
      requires mem.Valid()
      ensures Valid() && fresh(regs) && fresh(stack) && stack.debug == []
      ensures this.mem == mem && this.unprefixed == unprefixed && this.cbprefixed == cbprefixed
      ensures regs.Value() == Regs(0, 0, 0, 0, 0, 0, 0, 0, 0, 0)
      ensures State() == Reset
    {
      var r := new Registers();
      regs := r;
      this.mem := mem;
      stack := new Stack(r, mem);
      this.unprefixed := unprefixed;
      this.cbprefixed := cbprefixed;
      tStateCounter := 0;
      ime, pendingInterruptSwitch, lowPowerMode, stopMode := false, false, false, false;
      didJump, running, halt, pendingImeEnable := false, false, false, false;
    }

    /** fetch: decode the instruction at PC; None where the table has no entry. */
    method Fetch() returns (info: Option<OpcodeInfo>)
      requires Valid()
      modifies regs
      ensures Valid()
      ensures (info, regs.Value()) == Fetched(mem.Contents(), old(regs.Value()), unprefixed, cbprefixed)
    {
      var opcode := mem.ReadByte(regs.pc);
      if opcode == 0xCB {
        regs.IncrementPC(1);
        opcode := mem.ReadByte(regs.pc);
        info := Lookup(cbprefixed, opcode);
      } else {
        info := Lookup(unprefixed, opcode);
      }
    }

    method IncrementTStateCounter(v: int)
      modifies this
      ensures State() == old(State()).(tStates := old(tStateCounter) + v)
    {
      tStateCounter := tStateCounter + v;
    }

    method SetTStateCounter(v: int)
      modifies this
      ensures State() == old(State()).(tStates := v)
    {
      tStateCounter := v;
    }

    method SetIME(b: bool)
      modifies this
      ensures State() == old(State()).(ime := b)
    {
      ime := b;
    }

    /** setPendingInterruptSwitch also switches IME on, whatever b is. */
    method SetPendingInterruptSwitch(b: bool)
      modifies this
      ensures State() == old(State()).(pendingInterruptSwitch := b, ime := true)
    {
      pendingInterruptSwitch := b;
      SetIME(true);
    }

    method SetLowPowerMode(b: bool)
      modifies this
      ensures State() == old(State()).(lowPowerMode := b)
    {
      lowPowerMode := b;
    }

    method SetStopMode(b: bool)
      modifies this
      ensures State() == old(State()).(stopMode := b)
    {
      stopMode := b;
    }

    method SetDidJump(b: bool)
      modifies this
      ensures State() == old(State()).(didJump := b)
    {
      didJump := b;
    }

    method SetHalt(b: bool)
      modifies this
      ensures State() == old(State()).(halt := b)
    {
      halt := b;
    }

    method SetPendingImeEnable(b: bool)
      modifies this
      ensures State() == old(State()).(pendingImeEnable := b)
    {
      pendingImeEnable := b;
    }

    /** stopCPU: the run loop ends after the current iteration. */
    method StopCpu()
      modifies this
      ensures State() == old(State()).(running := false)
    {
      running := false;
    }
  }
}
