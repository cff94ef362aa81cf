/**
 * The first generation's static instruction table: 256 slots, every one
 * first filled with a handler that only steps PC, then slots 0x00..0x07
 * given their own handlers (NOP, LD BC,d16, LD [BC],A, INC BC, INC B,
 * DEC B, LD B,n8, RLCA), and a side table of mnemonic, length and T-states
 * for those eight.  execute runs a slot's handler, then adds the slot's
 * T-states to the CPU's counter and its length to PC.
 *
 * The side table's three-argument constructor and its two getters are not
 * defined on the descriptor class they name; they are taken to hold and
 * hand back the three values given.
 */
module LegacyOpcodes {
  import opened Wrappers
  import opened Bits
  import opened Registers
  import opened Memory
  import opened Cpu
  import MicroOps

  /** The handlers the table holds. */
  datatype Instruction =
    | Nop | LoadBCWord | StoreAAtBC | IncBC | IncB | DecB | LoadBByte | Rlca
    | Unimplemented

  /** A side-table entry: mnemonic, length in bytes, T-states. */
  datatype Entry = Entry(mnemonic: string, length: int, tStates: int)

  /** opcodeInfoMap: entries for 0x00..0x07 only. */
  const Entries: map<int, Entry> := map[
    0x00 := Entry("NOP", 1, 4),
    0x01 := Entry("LD BC, d16", 3, 12),
    0x02 := Entry("LD[BC], A", 1, 8),
    0x03 := Entry("INC BC", 1, 8),
    0x04 := Entry("INC B", 1, 4),
    0x05 := Entry("DEC B", 1, 4),
    0x06 := Entry("LD B, n8", 2, 8),
    0x07 := Entry("RLCA", 1, 4)
  ]

  /** The handler slot i holds once the static initializer has run. */
  function Slot(i: int): Instruction {
    if i == 0x00 then Nop
    else if i == 0x01 then LoadBCWord
    else if i == 0x02 then StoreAAtBC
    else if i == 0x03 then IncBC
    else if i == 0x04 then IncB
    else if i == 0x05 then DecB
    else if i == 0x06 then LoadBByte
    else if i == 0x07 then Rlca
    else Unimplemented
  }

  /** What a handler can touch: memory, registers and the T-state counter. */
  datatype Snapshot = Snapshot(mem: seq<Byte>, regs: Regs, tStates: int)

  /** The snapshot after execute, and whether it threw. */
  datatype Outcome = Outcome(after: Snapshot, thrown: bool)

  // ------------------------------------------------------------ handlers

  /** INC B: Z from the wrapped result, N cleared, H set on a nibble carry (never cleared). */
  function Incremented(r: Regs): Regs {
    var result := (r.b + 1) % 256;
    var r1 := if result == 0 then WithFlag(r, Zero) else WithoutFlag(r, Zero);
    var r2 := WithoutFlag(r1, Subtract);
    var r3 := if r.b % 16 + 1 > 0xF then WithFlag(r2, HalfCarry) else r2;
    r3.(b := result)
  }

  /** DEC B: Z from the wrapped result, N set, H set iff the low nibble was 0. */
  function Decremented(r: Regs): Regs {
    var result := (r.b - 1) % 256;
    var r1 := if result == 0 then WithFlag(r, Zero) else WithoutFlag(r, Zero);
    var r2 := WithFlag(r1, Subtract);
    var r3 := if r.b % 16 == 0 then WithFlag(r2, HalfCarry) else WithoutFlag(r2, HalfCarry);
    r3.(b := result)
  }

  /** RLCA: C from bit 7, then Z, N and H cleared, then A shifted left with bit 7 brought round. */
  function Rotated(r: Regs): Regs {
    var carry := And(r.a, 0x80) / 128;
    var r1 := if carry == 1 then WithFlag(r, Carry) else WithoutFlag(r, Carry);
    var r2 := WithoutFlag(WithoutFlag(WithoutFlag(r1, Zero), Subtract), HalfCarry);
    r2.(a := Or(r.a * 2, carry) % 256)
  }

  /** One handler on a snapshot; none of them touches the T-state counter. */
  function Ran(instr: Instruction, s: Snapshot): Snapshot
    requires |s.mem| == Size
  {
    match instr
    case Nop => s
    case LoadBCWord => s.(regs := WithBC(s.regs, WordAt(s.mem, s.regs.pc)))
    case StoreAAtBC => s.(mem := Store(s.mem, BC(s.regs) % 0x10000, s.regs.a))
    case IncBC => s.(regs := WithBC(s.regs, (BC(s.regs) + 1) % 0x10000))
    case IncB => s.(regs := Incremented(s.regs))
    case DecB => s.(regs := Decremented(s.regs))
    case LoadBByte => s.(regs := s.regs.(b := ByteAt(s.mem, s.regs.pc + 1)))
    case Rlca => s.(regs := Rotated(s.regs))
    case Unimplemented => s.(regs := s.regs.(pc := s.regs.pc + 1))
  }

  /**
   * execute(cpu, opcode) on a snapshot.  An opcode outside 0..255 fails the
   * array index before anything runs.  An opcode without a side-table entry
   * runs its handler and then fails on the missing entry, so the T-states
   * and the PC step are never applied.
   */
  function Executed(opcode: int, s: Snapshot): Outcome
    requires |s.mem| == Size
  {
    if opcode < 0 || opcode >= 256 then Outcome(s, true)
    else
      var s1 := Ran(Slot(opcode), s);
      if opcode !in Entries then Outcome(s1, true)
      else
        var e := Entries[opcode];
        Outcome(s1.(tStates := s1.tStates + e.tStates,
                    regs := s1.regs.(pc := s1.regs.pc + e.length)), false)
  }

  // ------------------------------------------------------------ properties

  /**
   * Exactly slots 0x00..0x07 have a side-table entry.  For those, execute
   * does not throw, adds the entry's T-states and moves PC on by its length
   * after the handler; every other opcode in 0..255 throws after the
   * default handler has moved PC on by one, leaving memory and the counter
   * alone.
   */
  lemma {:induction false} ExecuteAdvances(opcode: int, s: Snapshot)
    requires |s.mem| == Size && 0 <= opcode < 256
    ensures (opcode in Entries) <==> opcode < 8
    ensures var o := Executed(opcode, s);
      var s1 := Ran(Slot(opcode), s);
      (o.thrown <==> opcode >= 8) &&
      (opcode < 8 ==>
        o.after.tStates == s.tStates + Entries[opcode].tStates &&
        o.after.regs == s1.regs.(pc := s1.regs.pc + Entries[opcode].length) &&
        o.after.mem == s1.mem) &&
      (opcode >= 8 ==> o.after == s.(regs := s.regs.(pc := s.regs.pc + 1)))
  {
    if opcode < 8 {
      assert opcode in Entries;
    } else {
      assert Slot(opcode) == Unimplemented;
    }
  }

  /** NOP changes nothing but PC (one byte) and the counter (four T-states). */
  lemma {:induction false} NopOnlyAdvances(s: Snapshot)
    requires |s.mem| == Size
    ensures Executed(0x00, s) ==
      Outcome(s.(regs := s.regs.(pc := s.regs.pc + 1), tStates := s.tStates + 4), false)
  {
    assert 0x00 in Entries && Entries[0x00] == Entry("NOP", 1, 4);
  }

  /** INC BC wraps BC modulo 2^16 (0xFFFF becomes 0) and changes nothing else. */
  lemma {:induction false} IncBCWraps(s: Snapshot)
    requires |s.mem| == Size
    ensures var s' := Ran(IncBC, s);
      BC(s'.regs) == (BC(s.regs) + 1) % 0x10000 &&
      s'.regs == s.regs.(b := s'.regs.b, c := s'.regs.c) && s'.mem == s.mem &&
      (BC(s.regs) == 0xFFFF ==> BC(s'.regs) == 0)
  {
    var v := (BC(s.regs) + 1) % 0x10000;
    assert Ran(IncBC, s) == s.(regs := WithBC(s.regs, v));
    WordIntoBC(s.regs, v);
  }

  /**
   * INC B: B ends as (B + 1) mod 256, Z says it is 0, N is clear, and H is
   * the old H or a carry out of the low nibble; H is never cleared.  C and
   * every other register stay.
   */
  lemma {:induction false} IncBFlags(r: Regs)
    requires IsFlagByte(r.f)
    ensures var r' := Incremented(r);
      r' == r.(b := (r.b + 1) % 256, f := r'.f) && IsFlagByte(r'.f) &&
      (FlagSet(r', Zero) <==> (r.b + 1) % 256 == 0) &&
      !FlagSet(r', Subtract) &&
      (FlagSet(r', HalfCarry) <==> FlagSet(r, HalfCarry) || r.b % 16 == 15) &&
      FlagSet(r', Carry) == FlagSet(r, Carry)
  {
    var result := (r.b + 1) % 256;
    var r1 := if result == 0 then WithFlag(r, Zero) else WithoutFlag(r, Zero);
    var r2 := WithoutFlag(r1, Subtract);
    assert FlagSet(r2, Zero) == (result == 0);
    assert FlagSet(r2, HalfCarry) == FlagSet(r, HalfCarry);
    assert FlagSet(r2, Carry) == FlagSet(r, Carry);
  }

  /** A half-carry flag already set survives INC B. */
  lemma {:induction false} IncBKeepsHalfCarry(r: Regs)
    requires IsFlagByte(r.f) && FlagSet(r, HalfCarry)
    ensures FlagSet(Incremented(r), HalfCarry)
  {
    IncBFlags(r);
  }

  /**
   * DEC B: B ends as (B - 1) mod 256 (0 becomes 255), Z says it is 0, N is
   * set, H says the low nibble was 0 (a borrow).  C and every other
   * register stay.
   */
  lemma {:induction false} DecBFlags(r: Regs)
    requires IsFlagByte(r.f)
    ensures var r' := Decremented(r);
      r' == r.(b := (r.b - 1) % 256, f := r'.f) && IsFlagByte(r'.f) &&
      (FlagSet(r', Zero) <==> (r.b - 1) % 256 == 0) &&
      FlagSet(r', Subtract) &&
      (FlagSet(r', HalfCarry) <==> r.b % 16 == 0) &&
      FlagSet(r', Carry) == FlagSet(r, Carry) &&
      (r.b == 0 ==> r'.b == 255)
  {
    var result := (r.b - 1) % 256;
    var r1 := if result == 0 then WithFlag(r, Zero) else WithoutFlag(r, Zero);
    var r2 := WithFlag(r1, Subtract);
    assert FlagSet(r2, Zero) == (result == 0);
    assert FlagSet(r2, Carry) == FlagSet(r, Carry);
  }

  /** `(v & 0x80) >> 7` is bit 7 of v. */
  lemma {:induction false} TopBit(v: int)
    ensures And(v, 0x80) / 128 == (v / 128) % 2
  {
    Pow2Table();
    AndShifted(v, 1, 7);
    AndLowMask(v / 128, 1);
  }

  /**
   * RLCA on a byte A: C gets bit 7 of A, A is rotated left (bit 7 comes
   * back as bit 0), and Z, N, H are cleared even when A ends as 0.  The
   * result is the one the second generation's RLCA computes.
   */
  lemma {:induction false} RlcaRotates(r: Regs)
    requires IsFlagByte(r.f) && 0 <= r.a < 256
    ensures var r' := Rotated(r);
      r' == r.(a := (r.a % 128) * 2 + r.a / 128, f := r'.f) && IsFlagByte(r'.f) &&
      r'.a == MicroOps.ShiftValue(MicroOps.Rlca, r.a, 0) &&
      (FlagSet(r', Carry) <==> r.a >= 128) &&
      !FlagSet(r', Zero) && !FlagSet(r', Subtract) && !FlagSet(r', HalfCarry)
  {
    TopBit(r.a);
    var carry := And(r.a, 0x80) / 128;
    assert carry == r.a / 128;
    MicroOps.RlcForm(r.a, 0);
    var r1 := if carry == 1 then WithFlag(r, Carry) else WithoutFlag(r, Carry);
    var r2 := WithoutFlag(r1, Zero);
    var r3 := WithoutFlag(r2, Subtract);
    var r4 := WithoutFlag(r3, HalfCarry);
    assert FlagSet(r4, Carry) == FlagSet(r3, Carry) == FlagSet(r2, Carry) == FlagSet(r1, Carry);
    assert !FlagSet(r4, Zero) && !FlagSet(r4, Subtract);
  }

  /** LD B,n8 loads the byte after PC into B as 0..255 and changes nothing else. */
  lemma {:induction false} LoadBReadsNextByte(s: Snapshot)
    requires |s.mem| == Size
    ensures var s' := Ran(LoadBByte, s);
      s'.regs == s.regs.(b := ByteAt(s.mem, s.regs.pc + 1)) && s'.mem == s.mem && 0 <= s'.regs.b < 256
  {
  }

  /**
   * LD BC,d16 loads the word at PC itself, not at PC + 1: B is the byte
   * after PC and C is the byte at PC, which is the opcode 0x01 when PC
   * still points at the instruction.
   */
  lemma {:induction false} LoadBCReadsAtPc(s: Snapshot)
    requires |s.mem| == Size
    ensures var s' := Ran(LoadBCWord, s);
      BC(s'.regs) == WordAt(s.mem, s.regs.pc) &&
      s'.regs.b == ByteAt(s.mem, s.regs.pc + 1) && s'.regs.c == ByteAt(s.mem, s.regs.pc) &&
      s'.mem == s.mem &&
      (ByteAt(s.mem, s.regs.pc) == 0x01 ==> s'.regs.c == 0x01)
  {
    var hi: int, lo: int := ByteAt(s.mem, s.regs.pc + 1), ByteAt(s.mem, s.regs.pc);
    var w := WordAt(s.mem, s.regs.pc);
    assert w == hi * 256 + lo && 0 <= w < 0x10000;
    WordSplits(hi, lo);
    WordIntoBC(s.regs, w);
  }

  /** setBC of a 16-bit value, read back with getBC, is that value. */
  lemma WordIntoBC(r: Regs, w: int)
    requires 0 <= w < 0x10000
    ensures BC(WithBC(r, w)) == w
  {
    assert w % 0x10000 == w;
    PairRoundTrip(r, w);
  }

  /** The high and low bytes of `hi * 256 + lo` are hi and lo again. */
  lemma WordSplits(hi: int, lo: int)
    requires 0 <= hi < 256 && 0 <= lo < 256
    ensures HighByte(hi * 256 + lo) == hi && LowByte(hi * 256 + lo) == lo
  {
    DivUnique(hi * 256 + lo, 256, hi, lo);
  }

  /**
   * LD [BC],A writes A's low byte at BC (as 16 bits) and leaves every other
   * cell and every register alone.
   */
  lemma {:induction false} StoreAWritesAtBC(s: Snapshot)
    requires |s.mem| == Size
    ensures var s' := Ran(StoreAAtBC, s);
      ByteAt(s'.mem, BC(s.regs)) == s.regs.a % 256 && s'.regs == s.regs &&
      (forall a :: 0 <= a < Size && a != Wrap(BC(s.regs)) ==> s'.mem[a] == s.mem[a])
  {
    var address := BC(s.regs) % 0x10000;
    assert Wrap(address) == Wrap(BC(s.regs));
  }

  // ------------------------------------------------------------ the table

  /**
   * The static initializer: a table of 256 empty (null) slots, a loop that
   * puts the default handler into every empty slot, then the eight
   * handlers of 0x00..0x07 over their defaults.
   */
  method Instructions() returns (table: array<Option<Instruction>>)
    ensures fresh(table) && table.Length == 256
    ensures forall i :: 0 <= i < 256 ==> table[i] == Some(Slot(i))
  {
    table := new Option<Instruction>[256](_ => None);
    var i := 0;
    while i < table.Length
      invariant 0 <= i <= table.Length
      invariant forall j :: 0 <= j < i ==> table[j] == Some(Unimplemented)
      invariant forall j :: i <= j < table.Length ==> table[j] == None
    {
      if table[i] == None {
        table[i] := Some(Unimplemented);
      }
      i := i + 1;
    }
    table[0x00] := Some(Nop);
    table[0x01] := Some(LoadBCWord);
    table[0x02] := Some(StoreAAtBC);
    table[0x03] := Some(IncBC);
    table[0x04] := Some(IncB);
    table[0x05] := Some(DecB);
    table[0x06] := Some(LoadBByte);
    table[0x07] := Some(Rlca);
  }

  // ------------------------------------------------------------ on the CPU

  /** The CPU's memory, registers and counter as a snapshot. */
  function Snap(cpu: Cpu): Snapshot
    reads cpu, cpu.regs, cpu.mem, cpu.mem.cells
  {
    Snapshot(cpu.mem.Contents(), cpu.regs.Value(), cpu.tStateCounter)
  }

  /** execute(cpu, opcode) with the table the static initializer built. */
  method Execute(cpu: Cpu, table: array<Option<Instruction>>, opcode: int) returns (thrown: bool)
    requires cpu.Valid() && table.Length == 256
    requires forall i :: 0 <= i < 256 ==> table[i] == Some(Slot(i))
    modifies cpu, cpu.regs, cpu.mem.cells
    ensures cpu.Valid()
    ensures Outcome(Snap(cpu), thrown) == Executed(opcode, old(Snap(cpu)))
  {
    var entry := if opcode in Entries then Some(Entries[opcode]) else None;
    if opcode < 0 || opcode >= table.Length {
      return true;
    }
    var instr := table[opcode].value;
    Run(cpu, instr);
    if entry.None? {
      return true;
    }
    cpu.IncrementTStateCounter(entry.value.tStates);
    cpu.regs.IncrementPC(entry.value.length);
    thrown := false;
  }

  /** Run one handler against the CPU. */
  method Run(cpu: Cpu, instr: Instruction)
    requires cpu.Valid()
    modifies cpu.regs, cpu.mem.cells
    ensures cpu.Valid()
    ensures Snap(cpu) == Ran(instr, old(Snap(cpu)))
  {
    var regs := cpu.regs;
    match instr
    case Nop =>
    case LoadBCWord =>
      var d16 := cpu.mem.ReadWord(regs.pc);
      regs.SetBC(d16);
    case StoreAAtBC =>
      cpu.mem.WriteByte(BC(regs.Value()) % 0x10000, regs.a);
    case IncBC =>
      regs.SetBC((BC(regs.Value()) + 1) % 0x10000);
    case IncB =>
      RunIncB(regs);
    case DecB =>
      RunDecB(regs);
    case LoadBByte =>
      var n8 := cpu.mem.ReadByte(regs.pc + 1);
      regs.SetB(n8);
    case Rlca =>
      RunRlca(regs);
    case Unimplemented =>
      regs.IncrementPC(1);
  }

  /** The INC B handler. */
  method RunIncB(regs: Registers)
    requires regs.Valid()
    modifies regs
    ensures regs.Valid()
    ensures regs.Value() == Incremented(old(regs.Value()))
  {
    var result := (regs.b + 1) % 256;
    if result == 0 {
      regs.SetFlag(Zero);
    } else {
      regs.ClearFlag(Zero);
    }
    regs.ClearFlag(Subtract);
    if regs.b % 16 + 1 > 0xF {
      regs.SetFlag(HalfCarry);
    }
    regs.SetB(result);
  }

  /** The DEC B handler. */
  method RunDecB(regs: Registers)
    requires regs.Valid()
    modifies regs
    ensures regs.Valid()
    ensures regs.Value() == Decremented(old(regs.Value()))
  {
    var result := (regs.b - 1) % 256;
    if result == 0 {
      regs.SetFlag(Zero);
    } else {
      regs.ClearFlag(Zero);
    }
    regs.SetFlag(Subtract);
    if regs.b % 16 == 0 {
      regs.SetFlag(HalfCarry);
    } else {
      regs.ClearFlag(HalfCarry);
    }
    regs.SetB(result);
  }

  /** The RLCA handler. */
  method RunRlca(regs: Registers)
    requires regs.Valid()
    modifies regs
    ensures regs.Valid()
    ensures regs.Value() == Rotated(old(regs.Value()))
  {
    var carry := And(regs.a, 0x80) / 128;
    if carry == 1 {
      regs.SetFlag(Carry);
    } else {
      regs.ClearFlag(Carry);
    }
    regs.ClearFlag(Zero);
    regs.ClearFlag(Subtract);
    regs.ClearFlag(HalfCarry);
    regs.SetA(Or(regs.a * 2, carry) % 256);
  }
}
