/**
 * The interrupt controller: requesting an interrupt sets its bit in IF and
 * wakes a halted CPU; servicing one pushes PC, jumps to the interrupt's
 * vector and switches IME off.
 */
module Interrupts {
  import opened Registers
  import opened Bits
  import opened Memory
  import opened MemoryMap
  import opened Stack
  import opened Cpu

  /** The five interrupt sources, in bit order. */
  datatype Interrupt = VBlank | Stat | Timer | Serial | Joypad

  /** The enum ordinal, which is also the interrupt's bit in IF and IE. */
  function Ordinal(i: Interrupt): nat {
    match i
    case VBlank => 0
    case Stat => 1
    case Timer => 2
    case Serial => 3
    case Joypad => 4
  }

  /** The service routine address of each interrupt. */
  function Vector(i: Interrupt): int {
    match i
    case VBlank => 0x40
    case Stat => 0x48
    case Timer => 0x50
    case Serial => 0x58
    case Joypad => 0x60
  }

  /** The vectors are 8 bytes apart, in bit order, starting at 0x40. */
  lemma {:induction false} VectorsByOrdinal(i: Interrupt, k: Interrupt)
    ensures Vector(i) == 0x40 + 8 * Ordinal(i)
    ensures Ordinal(i) < 5
    ensures i != k ==> Ordinal(i) != Ordinal(k)
  {
  }

  /** `IF | (1 << ordinal)` */
  function Raised(flags: int, i: Interrupt): int {
    Or(flags, Pow2(Ordinal(i)))
  }

  /**
   * On a byte, raising an interrupt sets exactly its bit: the result is a
   * byte, the interrupt's bit is 1 and every other bit is as before.
   */
  lemma {:induction false} RaiseSetsOneBit(flags: int, i: Interrupt)
    requires 0 <= flags < 256
    ensures 0 <= Raised(flags, i) < 256
    ensures Bit(Raised(flags, i), Ordinal(i))
    ensures forall j: nat :: j != Ordinal(i) ==> Bit(Raised(flags, i), j) == Bit(flags, j)
  {
    Pow2Mono(Ordinal(i), 7);
    OrRange(flags, Pow2(Ordinal(i)), 8);
    forall j: nat ensures Bit(Raised(flags, i), j) == (Bit(flags, j) || j == Ordinal(i)) {
      BitOr(flags, Pow2(Ordinal(i)), j);
      BitPow2(Ordinal(i), j);
    }
  }

  /** Requesting the same interrupt twice leaves IF as requesting it once. */
  lemma {:induction false} RaiseIdempotent(flags: int, i: Interrupt)
    requires 0 <= flags < 256
    ensures Raised(Raised(flags, i), i) == Raised(flags, i)
  {
    var once := Raised(flags, i);
    RaiseSetsOneBit(flags, i);
    RaiseSetsOneBit(once, i);
    forall j: nat | j < 8 ensures Bit(Raised(once, i), j) == Bit(once, j) {
    }
    assert Pow2(8) == 256;
    BitsDetermine(Raised(once, i), once, 8);
  }

  /** setInterrupt on a memory snapshot: IF gets the interrupt's bit. */
  function Requested(m: seq<Byte>, i: Interrupt): (m': seq<Byte>)
    requires |m| == Size
    ensures |m'| == Size
  {
    Store(m, IF, Raised(ByteAt(m, IF), i))
  }

  /**
   * A request changes only IF; there it sets the interrupt's bit and keeps
   * the others, and a second identical request changes nothing.
   */
  lemma {:induction false} RequestTouchesOnlyIF(m: seq<Byte>, i: Interrupt)
    requires |m| == Size
    ensures forall a :: 0 <= a < Size && a != IF ==> Requested(m, i)[a] == m[a]
    ensures Bit(Requested(m, i)[IF], Ordinal(i))
    ensures forall j: nat :: j != Ordinal(i) ==> Bit(Requested(m, i)[IF], j) == Bit(m[IF], j)
    ensures Requested(Requested(m, i), i) == Requested(m, i)
  {
    assert Wrap(IF) == IF;
    RaiseSetsOneBit(m[IF], i);
    RaiseIdempotent(m[IF], i);
    assert Requested(m, i)[IF] == Raised(m[IF], i);
  }

  class InterruptController {
    const cpu: Cpu
    const mem: Memory

    ghost predicate Valid()
      reads this, cpu, cpu.regs, cpu.mem, cpu.stack, mem
    {
      cpu.Valid() && mem.Valid()
    }

    constructor(cpu: Cpu, mem: Memory)
      ensures this.cpu == cpu && this.mem == mem
    {
      this.cpu := cpu;
      this.mem := mem;
    }

    /** setInterrupt: set the interrupt's IF bit and clear the CPU's halt state. */
    method SetInterrupt(i: Interrupt)
      requires Valid()
      modifies mem.cells, cpu
      ensures mem.Contents() == Requested(old(mem.Contents()), i)
      ensures cpu.State() == old(cpu.State()).(halt := false)
    {
      var flags := mem.ReadByte(IF);
      flags := Raised(flags, i);
      mem.WriteByte(IF, flags);
      cpu.SetHalt(false);
    }

    /**
     * handleInterrupt: push PC, jump to the vector, switch IME off.  The IF
     * bit is not cleared here.
     */
    method HandleInterrupt(i: Interrupt)
      requires Valid()
      modifies cpu.regs, cpu.mem.cells, cpu, cpu.stack
      ensures cpu.regs.Value() ==
              old(cpu.regs.Value()).(sp := Down(Down(old(cpu.regs.sp))), pc := Vector(i))
      ensures cpu.mem.Contents() ==
              PushedMemory(old(cpu.mem.Contents()), old(cpu.regs.sp), old(cpu.regs.pc))
      ensures cpu.State() == old(cpu.State()).(ime := false)
      ensures cpu.stack.debug == [LowByte(old(cpu.regs.pc)), HighByte(old(cpu.regs.pc))] + old(cpu.stack.debug)
    {
      cpu.stack.Push(cpu.regs.pc);
      cpu.regs.SetPC(Vector(i));
      cpu.SetIME(false);
    }
  }
}
