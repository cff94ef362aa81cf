/**
 * The first generation's instruction handler: a table from mnemonic to
 * handler with two entries, ADC and ADD.  Each handler reads its operands
 * straight from the registers and memory, writes F, and stores its result.
 * Also here: the body of one pass of the CPU's run loop, which fetches an
 * instruction and hands it to this handler.
 *
 * The handler's getFlagConditions has no return statement, so the flag
 * conditions ADD hands to processFlags are a parameter here.
 */
module Handler {
  import opened Wrappers
  import opened Bits
  import opened Registers
  import opened Memory
  import opened Descriptors
  import opened Cpu
  import FlagCalculator
  import LegacyFlags

  type Conditions = FlagCalculator.Conditions

  /** The registers after a handler, and whether it threw. */
  datatype Handled = Handled(regs: Regs, thrown: bool)

  // -------------------------------------------------------- processFlags

  /**
   * One switch of processFlags: the flag's own letter stores the condition
   * into `target`, "0" clears `flag`, "1" sets it, anything else leaves F.
   */
  function Switched(r: Regs, letter: string, own: string, target: Flag, flag: Flag, condition: bool): (r': Regs)
    ensures r' == r.(f := r'.f)
    ensures IsFlagByte(r.f) ==> IsFlagByte(r'.f)
  {
    if letter == own then WithFlagIf(r, target, condition)
    else if letter == "0" then WithoutFlag(r, flag)
    else if letter == "1" then WithFlag(r, flag)
    else r
  }

  /**
   * processFlags on a snapshot: the Z, N, H and C switches in that order.
   * The "H" case stores the half-carry condition into the SUBTRACT bit.
   */
  function FlagsProcessed(r: Regs, flags: FlagSpec, c: Conditions): Regs {
    var r1 := Switched(r, flags.z, "Z", Zero, Zero, c.zero);
    var r2 := Switched(r1, flags.n, "N", Subtract, Subtract, c.subtract);
    var r3 := Switched(r2, flags.h, "H", Subtract, HalfCarry, c.halfCarry);
    Switched(r3, flags.c, "C", Carry, Carry, c.carry)
  }

  /** What one switch does to each flag, on a flag byte. */
  lemma {:induction false} SwitchedFlags(r: Regs, letter: string, own: string, target: Flag, flag: Flag, condition: bool)
    requires IsFlagByte(r.f) && own != "0" && own != "1"
    ensures var r' := Switched(r, letter, own, target, flag, condition);
      (letter == own ==>
         FlagSet(r', target) == condition &&
         forall g: Flag :: g != target ==> FlagSet(r', g) == FlagSet(r, g)) &&
      (letter != own ==>
         FlagSet(r', flag) == (if letter == "0" then false else if letter == "1" then true else FlagSet(r, flag)) &&
         forall g: Flag :: g != flag ==> FlagSet(r', g) == FlagSet(r, g))
  {
  }

  /**
   * After processFlags, Z and C are what their letters say: the condition
   * for the flag's own letter, 0 for "0", 1 for "1", unchanged otherwise.
   * An "H" letter writes the half-carry condition into N and leaves H
   * alone; N's own letter decides N only when H's letter is not "H".  Only
   * F changes, and it stays a flag byte.
   */
  lemma {:induction false} ProcessFlagsOutcome(r: Regs, flags: FlagSpec, c: Conditions)
    requires IsFlagByte(r.f)
    ensures var r' := FlagsProcessed(r, flags, c);
      r' == r.(f := r'.f) && IsFlagByte(r'.f) &&
      FlagSet(r', Zero) == FlagCalculator.Outcome(flags.z, 'Z', c.zero, FlagSet(r, Zero)) &&
      FlagSet(r', Subtract) ==
        (if flags.h == "H" then c.halfCarry
         else FlagCalculator.Outcome(flags.n, 'N', c.subtract, FlagSet(r, Subtract))) &&
      FlagSet(r', HalfCarry) ==
        (if flags.h == "H" then FlagSet(r, HalfCarry)
         else FlagCalculator.Outcome(flags.h, 'H', c.halfCarry, FlagSet(r, HalfCarry))) &&
      FlagSet(r', Carry) == FlagCalculator.Outcome(flags.c, 'C', c.carry, FlagSet(r, Carry))
  {
    var r1 := Switched(r, flags.z, "Z", Zero, Zero, c.zero);
    var r2 := Switched(r1, flags.n, "N", Subtract, Subtract, c.subtract);
    var r3 := Switched(r2, flags.h, "H", Subtract, HalfCarry, c.halfCarry);
    var r4 := Switched(r3, flags.c, "C", Carry, Carry, c.carry);
    SwitchedFlags(r, flags.z, "Z", Zero, Zero, c.zero);
    SwitchedFlags(r3, flags.c, "C", Carry, Carry, c.carry);
    ProcessedMiddleFlags(r1, flags, c);
    assert FlagSet(r4, Zero) == FlagSet(r1, Zero);
  }

  /** The N and H switches, on the registers the Z switch left. */
  lemma {:induction false} ProcessedMiddleFlags(r1: Regs, flags: FlagSpec, c: Conditions)
    requires IsFlagByte(r1.f)
    ensures var r2 := Switched(r1, flags.n, "N", Subtract, Subtract, c.subtract);
      var r3 := Switched(r2, flags.h, "H", Subtract, HalfCarry, c.halfCarry);
      IsFlagByte(r3.f) &&
      FlagSet(r3, Zero) == FlagSet(r1, Zero) && FlagSet(r3, Carry) == FlagSet(r1, Carry) &&
      FlagSet(r3, Subtract) ==
        (if flags.h == "H" then c.halfCarry
         else FlagCalculator.Outcome(flags.n, 'N', c.subtract, FlagSet(r1, Subtract))) &&
      FlagSet(r3, HalfCarry) ==
        (if flags.h == "H" then FlagSet(r1, HalfCarry)
         else FlagCalculator.Outcome(flags.h, 'H', c.halfCarry, FlagSet(r1, HalfCarry)))
  {
    var r2 := Switched(r1, flags.n, "N", Subtract, Subtract, c.subtract);
    SwitchedFlags(r1, flags.n, "N", Subtract, Subtract, c.subtract);
    SwitchedFlags(r2, flags.h, "H", Subtract, HalfCarry, c.halfCarry);
  }

  /** One switch of processFlags on the register file. */
  method Switch(regs: Registers, letter: string, own: string, target: Flag, flag: Flag, condition: bool)
    requires regs.Valid()
    modifies regs
    ensures regs.Valid()
    ensures regs.Value() == Switched(old(regs.Value()), letter, own, target, flag, condition)
  {
    if letter == own {
      regs.SetFlagIf(target, condition);
    } else if letter == "0" {
      regs.ClearFlag(flag);
    } else if letter == "1" {
      regs.SetFlag(flag);
    }
  }

  /**
   * processFlags: it reads both operands first, so an instruction with
   * fewer than two throws before any flag changes.
   */
  method ProcessFlags(regs: Registers, info: OpcodeInfo, c: Conditions) returns (thrown: bool)
    requires regs.Valid()
    modifies regs
    ensures regs.Valid()
    ensures thrown <==> |info.operands| < 2
    ensures regs.Value() == if thrown then old(regs.Value()) else FlagsProcessed(old(regs.Value()), info.flags, c)
  {
    if |info.operands| < 2 {
      return true;
    }
    Switch(regs, info.flags.z, "Z", Zero, Zero, c.zero);
    Switch(regs, info.flags.n, "N", Subtract, Subtract, c.subtract);
    Switch(regs, info.flags.h, "H", Subtract, HalfCarry, c.halfCarry);
    Switch(regs, info.flags.c, "C", Carry, Carry, c.carry);
    thrown := false;
  }

  // --------------------------------------------------------- applyResult

  /** The mask applyResult uses: 0xFF for 8-bit names, 0xFFFF for the rest. */
  function Masked(register: string, result: int): (v: int)
    ensures 0 <= v < 0x10000
  {
    if LegacyFlags.IsByteRegister(register) then result % 256 else result % 0x10000
  }

  /** applyResult: setByName with the masked result; thrown where the name has no setter. */
  method ApplyResult(regs: Registers, register: string, result: int) returns (thrown: bool)
    requires regs.Valid()
    modifies regs
    ensures regs.Valid()
    ensures thrown <==> register !in SetterNames
    ensures regs.Value() ==
            if thrown then old(regs.Value()) else Set(old(regs.Value()), register, Masked(register, result)).value
  {
    var ok := regs.SetByName(register, Masked(register, result));
    thrown := !ok;
  }

  /**
   * applyResult followed by getByName gives the result modulo 256 for a
   * one-letter register and modulo 65536 for SP, PC, BC, DE and HL; "n8"
   * counts as 8-bit but has no setter, so applyResult on it throws.
   */
  lemma {:induction false} ApplyResultReadsBack(r: Regs, register: string, result: int)
    requires register in SetterNames && register != "AF"
    ensures Set(r, register, Masked(register, result)).Some?
    ensures Get(Set(r, register, Masked(register, result)).value, register) ==
            Some(if |register| == 1 then result % 256 else result % 0x10000)
    ensures "n8" !in SetterNames && LegacyFlags.IsByteRegister("n8")
  {
    var v := Masked(register, result);
    SetThenGet(r, register, v);
    if |register| == 1 {
      assert v == result % 256 && register in SingleNames;
    } else {
      assert v == result % 0x10000;
      ModOfMod(result, 0x10000, 1);
    }
  }

  // ------------------------------------------------------------------ ADC

  /**
   * ADC's second operand as the handler reads it, and the registers after
   * the read: for n8 the signed byte at PC, and PC moves on by one; for HL
   * the signed byte at HL; for any other name that register's low byte.
   * None where getByName throws.
   */
  function AdcOperand(m: seq<Byte>, r: Regs, name: string): Option<(int, Regs)>
    requires |m| == Size
  {
    if name == "n8" then Some((SignedRead(m, r.pc), r.(pc := r.pc + 1)))
    else if name == "HL" then Some((SignedRead(m, HL(r)), r))
    else match Get(r, name)
      case None => None
      case Some(v) => Some((v % 256, r))
  }

  /** The carry flag as the 0 or 1 that ADC adds. */
  function CarryIn(r: Regs): (c: int)
    ensures c == 0 || c == 1
  {
    if FlagSet(r, Carry) then 1 else 0
  }

  /** What ADC computes from A's low byte x, the operand y and the carry: A's new value and Z, H, C. */
  datatype AdcSum = AdcSum(value: int, zero: bool, half: bool, carry: bool)

  function AdcSummed(x: int, y: int, carry: int): AdcSum {
    var result := x + y + carry;
    AdcSum(result % 256, result % 256 == 0, x % 16 + y % 16 + carry > 0xF,
           And(x % 256 + y % 256 + carry, 0x100) != 0)
  }

  /** What ADC does once it has A's low byte x and the operand y: the four flags, then A. */
  function AdcApplied(r: Regs, x: int, y: int): Regs {
    AdcWritten(r, AdcSummed(x, y, CarryIn(r)))
  }

  /** The flag writes and the store of a computed sum. */
  function AdcWritten(r: Regs, s: AdcSum): Regs {
    AdcFlags(r, s.zero, s.half, s.carry).(a := s.value)
  }

  /** ADC's four setFlag calls: Z, H and C to the given conditions, then N cleared. */
  function AdcFlags(r: Regs, zero: bool, half: bool, carry: bool): Regs {
    WithFlagIf(WithFlagIf(WithFlagIf(WithFlagIf(r, Zero, zero), HalfCarry, half), Carry, carry),
               Subtract, false)
  }

  /** ADC on a snapshot. */
  function AdcHandled(m: seq<Byte>, r: Regs, info: OpcodeInfo): Handled
    requires |m| == Size
  {
    if |info.operands| < 2 then Handled(r, true)
    else match AdcOperand(m, r, info.operands[1].name)
      case None => Handled(r, true)
      case Some((y, r1)) => Handled(AdcApplied(r1, r.a % 256, y), false)
  }

  /**
   * The operand byte ADC and ADD add, as a value 0..255: the cell at PC for
   * n8, the cell at HL for HL, otherwise the register's low byte.
   */
  function OperandByte(m: seq<Byte>, r: Regs, name: string): Option<int>
    requires |m| == Size
  {
    if name == "n8" then Some(ByteAt(m, r.pc))
    else if name == "HL" then Some(ByteAt(m, HL(r)))
    else match Get(r, name)
      case None => None
      case Some(v) => Some(v % 256)
  }

  /** Two addends that agree modulo 256 give sums that agree modulo 256. */
  lemma {:induction false} SameLowByte(x: int, y: int, b: int, carry: int)
    requires y % 256 == b % 256
    ensures (x + y + carry) % 256 == (x + b + carry) % 256
    ensures y % 16 == b % 16
  {
    var k := y / 256 - b / 256;
    assert y == b + 256 * k;
    assert x + y + carry == (x + b + carry) + 256 * k;
    DivUnique(x + y + carry, 256, (x + b + carry) / 256 + k, (x + b + carry) % 256);
    ModOfMod(y, 16, 16);
    ModOfMod(b, 16, 16);
  }

  /** `s & 0x100` tests whether a sum of two bytes and a carry reached 256. */
  lemma {:induction false} NinthBit(s: int)
    requires 0 <= s < 512
    ensures (And(s, 0x100) != 0) <==> s >= 256
  {
    Pow2Table();
    MaskTestsBit(s, 8);
    DivUnique(s, 256, if s >= 256 then 1 else 0, if s >= 256 then s - 256 else s);
  }

  /**
   * ADC adds the operand byte and the carry to A: A ends as the sum modulo
   * 256, Z says the sum wrapped to zero, H that the low nibbles carried, C
   * that the sum reached 256, and N is cleared.  Reading memory as signed
   * bytes changes none of this.  PC moves past an n8 operand; no other
   * register changes.  It throws exactly when the second operand is
   * missing or names no register.
   */
  lemma {:induction false} AdcAddsWithCarry(m: seq<Byte>, r: Regs, info: OpcodeInfo)
    requires |m| == Size && IsFlagByte(r.f)
    ensures var h := AdcHandled(m, r, info);
      (h.thrown <==> |info.operands| < 2 || OperandByte(m, r, info.operands[1].name).None?) &&
      (h.thrown ==> h.regs == r) &&
      (!h.thrown ==>
        var name := info.operands[1].name;
        var y := OperandByte(m, r, name).value;
        var carry := if FlagSet(r, Carry) then 1 else 0;
        var sum := r.a % 256 + y + carry;
        h.regs == r.(a := sum % 256, f := h.regs.f, pc := r.pc + (if name == "n8" then 1 else 0)) &&
        IsFlagByte(h.regs.f) &&
        (FlagSet(h.regs, Zero) <==> sum % 256 == 0) &&
        (FlagSet(h.regs, HalfCarry) <==> r.a % 16 + y % 16 + carry >= 16) &&
        (FlagSet(h.regs, Carry) <==> sum >= 256) &&
        !FlagSet(h.regs, Subtract))
  {
    var x := r.a % 256;
    assert x % 16 == r.a % 16 by {
      ModOfMod(r.a, 16, 16);
    }
    if |info.operands| >= 2 {
      var name := info.operands[1].name;
      AdcOperandReads(m, r, name);
      if OperandByte(m, r, name).Some? {
        var (y, r1) := AdcOperand(m, r, name).value;
        var b := OperandByte(m, r, name).value;
        var r' := AdcApplied(r1, x, y);
        assert AdcHandled(m, r, info) == Handled(r', false);
        AdcFromOperand(r, r1, x, y, b);
        assert r' == r.(a := (x + b + CarryIn(r)) % 256, f := r'.f, pc := r.pc + (if name == "n8" then 1 else 0));
      }
    }
  }

  /**
   * ADC's operand read finds a value exactly where OperandByte finds a
   * byte, the value agrees with the byte modulo 256, and only PC moves.
   */
  lemma {:induction false} AdcOperandReads(m: seq<Byte>, r: Regs, name: string)
    requires |m| == Size
    ensures AdcOperand(m, r, name).Some? <==> OperandByte(m, r, name).Some?
    ensures AdcOperand(m, r, name).Some? ==>
      var (y, r1) := AdcOperand(m, r, name).value;
      var b := OperandByte(m, r, name).value;
      0 <= b < 256 && y % 256 == b % 256 &&
      r1 == r.(pc := r.pc + (if name == "n8" then 1 else 0))
  {
  }

  /**
   * ADC of x and an operand y that stands for the byte b, on registers r1
   * that differ from r at most in PC: the sum is that of b, and F and A are
   * the only other registers that change.
   */
  lemma {:induction false} AdcFromOperand(r: Regs, r1: Regs, x: int, y: int, b: int)
    requires IsFlagByte(r.f) && r1 == r.(pc := r1.pc)
    requires 0 <= x < 256 && 0 <= b < 256 && y % 256 == b % 256
    ensures var r' := AdcApplied(r1, x, y);
      var carry := if FlagSet(r, Carry) then 1 else 0;
      var sum := x + b + carry;
      r' == r.(a := sum % 256, f := r'.f, pc := r1.pc) && IsFlagByte(r'.f) &&
      (FlagSet(r', Zero) <==> sum % 256 == 0) &&
      (FlagSet(r', HalfCarry) <==> x % 16 + b % 16 + carry >= 16) &&
      (FlagSet(r', Carry) <==> sum >= 256) &&
      !FlagSet(r', Subtract)
  {
    var carry := CarryIn(r);
    assert CarryIn(r1) == carry;
    var s := AdcSummed(x, b, carry);
    assert AdcSummed(x, y, carry) == s by {
      AdcLowByteOnly(x, y, b, carry);
    }
    AdcSumAdds(x, b, carry);
    AdcWrittenFacts(r1, s);
  }

  /** Only the operand's low byte matters to ADC, so a signed read gives the same sum and flags. */
  lemma {:induction false} AdcLowByteOnly(x: int, y: int, b: int, carry: int)
    requires y % 256 == b % 256
    ensures AdcSummed(x, y, carry) == AdcSummed(x, b, carry)
  {
    SameLowByte(x, y, b, carry);
  }

  /** On bytes, ADC's conditions are those of the true sum: Z for a zero low byte, H for a nibble carry, C for reaching 256. */
  lemma {:induction false} AdcSumAdds(x: int, b: int, carry: int)
    requires 0 <= x < 256 && 0 <= b < 256 && (carry == 0 || carry == 1)
    ensures var s := AdcSummed(x, b, carry);
      s.value == (x + b + carry) % 256 &&
      (s.zero <==> (x + b + carry) % 256 == 0) &&
      (s.half <==> x % 16 + b % 16 + carry >= 16) &&
      (s.carry <==> x + b + carry >= 256)
  {
    assert x % 256 == x && b % 256 == b;
    NinthBit(x + b + carry);
  }

  /** Storing a computed sum sets each flag to its condition, N clear, A to the value; nothing else changes. */
  lemma {:induction false} AdcWrittenFacts(r: Regs, s: AdcSum)
    requires IsFlagByte(r.f)
    ensures var r' := AdcWritten(r, s);
      r' == r.(a := s.value, f := r'.f) && IsFlagByte(r'.f) &&
      FlagSet(r', Zero) == s.zero && FlagSet(r', HalfCarry) == s.half &&
      FlagSet(r', Carry) == s.carry && !FlagSet(r', Subtract)
  {
    AdcFlagsFacts(r, s.zero, s.half, s.carry);
    var rf := AdcFlags(r, s.zero, s.half, s.carry);
    assert forall g: Flag :: FlagSet(rf.(a := s.value), g) == FlagSet(rf, g);
  }

  /** Each flag AdcFlags writes holds its condition, and nothing but F changes. */
  lemma {:induction false} AdcFlagsFacts(r: Regs, zero: bool, half: bool, carry: bool)
    requires IsFlagByte(r.f)
    ensures var r' := AdcFlags(r, zero, half, carry);
      r' == r.(f := r'.f) && IsFlagByte(r'.f) &&
      FlagSet(r', Zero) == zero && FlagSet(r', HalfCarry) == half &&
      FlagSet(r', Carry) == carry && !FlagSet(r', Subtract)
  {
    var r2 := WithFlagIf(r, Zero, zero);
    var r3 := WithFlagIf(r2, HalfCarry, half);
    var r4 := WithFlagIf(r3, Carry, carry);
    var r5 := WithFlagIf(r4, Subtract, false);
    assert FlagSet(r5, Zero) == FlagSet(r4, Zero) == FlagSet(r3, Zero) == FlagSet(r2, Zero);
    assert FlagSet(r5, HalfCarry) == FlagSet(r4, HalfCarry) == FlagSet(r3, HalfCarry);
    assert FlagSet(r5, Carry) == FlagSet(r4, Carry);
  }

  /** ADC on the CPU. */
  method Adc(cpu: Cpu, info: OpcodeInfo) returns (thrown: bool)
    requires cpu.Valid()
    modifies cpu.regs
    ensures cpu.Valid()
    ensures Handled(cpu.regs.Value(), thrown) == AdcHandled(cpu.mem.Contents(), old(cpu.regs.Value()), info)
  {
    if |info.operands| < 2 {
      return true;
    }
    var x := cpu.regs.a % 256;
    var y := ReadAdcOperand(cpu, info.operands[1].name);
    if y.None? {
      return true;
    }
    StoreAdc(cpu.regs, x, y.value);
    thrown := false;
  }

  /** The operand read of ADC, moving PC past an n8 byte. */
  method ReadAdcOperand(cpu: Cpu, name: string) returns (y: Option<int>)
    requires cpu.Valid()
    modifies cpu.regs
    ensures cpu.Valid()
    ensures var read := AdcOperand(cpu.mem.Contents(), old(cpu.regs.Value()), name);
      y.Some? == read.Some? &&
      (read.Some? ==> y.value == read.value.0 && cpu.regs.Value() == read.value.1) &&
      (read.None? ==> cpu.regs.Value() == old(cpu.regs.Value()))
  {
    var regs := cpu.regs;
    if name == "n8" {
      y := Some(SignExtend8(cpu.mem.ReadByte(regs.pc)));
      regs.IncrementPC(1);
    } else if name == "HL" {
      y := Some(SignExtend8(cpu.mem.ReadByte(HL(regs.Value()))));
    } else {
      var v := Get(regs.Value(), name);
      y := if v.None? then None else Some(v.value % 256);
    }
  }

  /** ADC's flag writes and its store into A. */
  method StoreAdc(regs: Registers, x: int, y: int)
    requires regs.Valid()
    modifies regs
    ensures regs.Valid()
    ensures regs.Value() == AdcApplied(old(regs.Value()), x, y)
  {
    var s := AdcSummed(x, y, if FlagSet(regs.Value(), Carry) then 1 else 0);
    WriteAdcFlags(regs, s.zero, s.half, s.carry);
    regs.SetA(s.value);
  }

  /** ADC's four setFlag calls on the register file. */
  method WriteAdcFlags(regs: Registers, zero: bool, half: bool, carry: bool)
    modifies regs
    ensures regs.Valid()
    ensures regs.Value() == AdcFlags(old(regs.Value()), zero, half, carry)
  {
    regs.SetFlagIf(Zero, zero);
    regs.SetFlagIf(HalfCarry, half);
    regs.SetFlagIf(Carry, carry);
    regs.SetFlagIf(Subtract, false);
  }

  // ------------------------------------------------------------------ ADD

  /**
   * ADD's second operand and the registers after reading it: the signed
   * byte at PC for n8, the byte at PC as 0..255 for e8 (readUnsignedByte
   * has no definition in the memory class and is taken to return the
   * cell), PC moving on by one for both; the signed byte at HL for HL; any
   * other register unmasked.
   */
  function AddOperand(m: seq<Byte>, r: Regs, name: string): Option<(int, Regs)>
    requires |m| == Size
  {
    if name == "n8" then Some((SignedRead(m, r.pc), r.(pc := r.pc + 1)))
    else if name == "e8" then Some((ByteAt(m, r.pc), r.(pc := r.pc + 1)))
    else if name == "HL" then Some((SignedRead(m, HL(r)), r))
    else match Get(r, name)
      case None => None
      case Some(v) => Some((v, r))
  }

  /**
   * ADD on a snapshot: read both operands, process the flags, then store
   * the masked sum.  A destination with no setter throws after the flags
   * and PC have changed.
   */
  function AddHandled(m: seq<Byte>, r: Regs, info: OpcodeInfo, c: Conditions): Handled
    requires |m| == Size
  {
    if |info.operands| < 2 then Handled(r, true)
    else
      var target := info.operands[0].name;
      match Get(r, target)
      case None => Handled(r, true)
      case Some(x) =>
        match AddOperand(m, r, info.operands[1].name)
        case None => Handled(r, true)
        case Some((y, r1)) =>
          Stored(FlagsProcessed(r1, info.flags, c), target, x + y)
  }

  /** applyResult on a snapshot: the masked sum into the target, or a throw with F already written. */
  function Stored(r2: Regs, target: string, sum: int): Handled {
    match Set(r2, target, Masked(target, sum))
    case None => Handled(r2, true)
    case Some(r3) => Handled(r3, false)
  }

  /**
   * ADD A, r / n8 / (HL): A ends as A plus the operand byte modulo 256,
   * whether memory is read signed or not; F is what processFlags makes of
   * the conditions; PC moves past an n8 operand.
   */
  lemma {:induction false} AddToA(m: seq<Byte>, r: Regs, info: OpcodeInfo, c: Conditions)
    requires |m| == Size && |info.operands| >= 2 && info.operands[0].name == "A"
    requires info.operands[1].name != "e8" && OperandByte(m, r, info.operands[1].name).Some?
    ensures var h := AddHandled(m, r, info, c);
      var name := info.operands[1].name;
      var r1 := r.(pc := r.pc + (if name == "n8" then 1 else 0));
      !h.thrown &&
      h.regs == FlagsProcessed(r1, info.flags, c).(a := (r.a + OperandByte(m, r, name).value) % 256)
  {
    var name := info.operands[1].name;
    var b := OperandByte(m, r, name).value;
    AddOperandReads(m, r, name);
    var (y, r1) := AddOperand(m, r, name).value;
    AddHandledStores(m, r, info, c);
    assert (r.a + y) % 256 == (r.a + b) % 256 by {
      SameLowByte(r.a, y, b, 0);
    }
    StoredIntoA(FlagsProcessed(r1, info.flags, c), r.a + y);
  }

  /**
   * ADD's operand read, for every name but e8: it finds a value exactly
   * where OperandByte finds a byte, the two agree modulo 256, and only PC
   * moves.
   */
  lemma {:induction false} AddOperandReads(m: seq<Byte>, r: Regs, name: string)
    requires |m| == Size && name != "e8"
    ensures AddOperand(m, r, name).Some? <==> OperandByte(m, r, name).Some?
    ensures AddOperand(m, r, name).Some? ==>
      var (y, r1) := AddOperand(m, r, name).value;
      y % 256 == OperandByte(m, r, name).value % 256 &&
      r1 == r.(pc := r.pc + (if name == "n8" then 1 else 0))
  {
  }

  /** Storing a sum into A keeps its low byte and changes nothing else. */
  lemma {:induction false} StoredIntoA(r2: Regs, sum: int)
    ensures Stored(r2, "A", sum) == Handled(r2.(a := sum % 256), false)
  {
    assert Masked("A", sum) == sum % 256;
  }

  /**
   * ADD SP, e8 adds the offset byte as 0..255, so a byte 0xFF moves SP up by
   * 255 rather than down by one; PC moves past the byte.
   */
  lemma {:induction false} AddOffsetToSp(m: seq<Byte>, r: Regs, info: OpcodeInfo, c: Conditions)
    requires |m| == Size && |info.operands| >= 2
    requires info.operands[0].name == "SP" && info.operands[1].name == "e8"
    ensures var h := AddHandled(m, r, info, c);
      !h.thrown &&
      h.regs == FlagsProcessed(r.(pc := r.pc + 1), info.flags, c).(sp := (r.sp + ByteAt(m, r.pc)) % 0x10000) &&
      (ByteAt(m, r.pc) == 0xFF ==> h.regs.sp == (r.sp + 255) % 0x10000)
  {
  }

  /** ADD of two register pairs leaves their sum modulo 65536 in the first. */
  lemma {:induction false} AddPairs(m: seq<Byte>, r: Regs, info: OpcodeInfo, c: Conditions)
    requires |m| == Size && |info.operands| >= 2
    requires info.operands[0].name in {"BC", "DE", "HL"} && info.operands[1].name in {"BC", "DE", "SP"}
    ensures var h := AddHandled(m, r, info, c);
      var target := info.operands[0].name;
      !h.thrown &&
      Get(h.regs, target) ==
        Some((Get(r, target).value + Get(r, info.operands[1].name).value) % 0x10000)
  {
    var target := info.operands[0].name;
    var source := info.operands[1].name;
    assert AddOperand(m, r, source) == Some((Get(r, source).value, r));
    AddHandledStores(m, r, info, c);
    StoredPair(FlagsProcessed(r, info.flags, c), target, Get(r, target).value + Get(r, source).value);
  }

  /** Once both operands are read, ADD is processFlags followed by applyResult. */
  lemma AddHandledStores(m: seq<Byte>, r: Regs, info: OpcodeInfo, c: Conditions)
    requires |m| == Size && |info.operands| >= 2 && Get(r, info.operands[0].name).Some?
    requires AddOperand(m, r, info.operands[1].name).Some?
    ensures var (y, r1) := AddOperand(m, r, info.operands[1].name).value;
      AddHandled(m, r, info, c) ==
        Stored(FlagsProcessed(r1, info.flags, c), info.operands[0].name, Get(r, info.operands[0].name).value + y)
  {
  }

  /** Storing a sum into a register pair keeps it modulo 65536. */
  lemma {:induction false} StoredPair(r2: Regs, target: string, sum: int)
    requires target in {"BC", "DE", "HL"}
    ensures !Stored(r2, target, sum).thrown
    ensures Get(Stored(r2, target, sum).regs, target) == Some(sum % 0x10000)
  {
    var v := Masked(target, sum);
    assert v == sum % 0x10000 by {
      assert !LegacyFlags.IsByteRegister(target);
    }
    SetThenGet(r2, target, v);
    ModOfMod(sum, 0x10000, 1);
  }

  /** ADD on the CPU. */
  method Add(cpu: Cpu, info: OpcodeInfo, c: Conditions) returns (thrown: bool)
    requires cpu.Valid()
    modifies cpu.regs
    ensures cpu.Valid()
    ensures Handled(cpu.regs.Value(), thrown) == AddHandled(cpu.mem.Contents(), old(cpu.regs.Value()), info, c)
  {
    if |info.operands| < 2 {
      return true;
    }
    var target := info.operands[0].name;
    var x := Get(cpu.regs.Value(), target);
    if x.None? {
      return true;
    }
    ghost var m, r := cpu.mem.Contents(), cpu.regs.Value();
    var y := ReadAddOperand(cpu, info.operands[1].name);
    if y.None? {
      return true;
    }
    ghost var r1 := cpu.regs.Value();
    AddHandledStores(m, r, info, c);
    thrown := ProcessFlags(cpu.regs, info, c);
    assert cpu.regs.Value() == FlagsProcessed(r1, info.flags, c);
    thrown := ApplyResult(cpu.regs, target, x.value + y.value);
    assert Handled(cpu.regs.Value(), thrown) == Stored(FlagsProcessed(r1, info.flags, c), target, x.value + y.value);
  }

  /** The operand read of ADD, moving PC past an n8 or e8 byte. */
  method ReadAddOperand(cpu: Cpu, name: string) returns (y: Option<int>)
    requires cpu.Valid()
    modifies cpu.regs
    ensures cpu.Valid()
    ensures var read := AddOperand(cpu.mem.Contents(), old(cpu.regs.Value()), name);
      y.Some? == read.Some? &&
      (read.Some? ==> y.value == read.value.0 && cpu.regs.Value() == read.value.1) &&
      (read.None? ==> cpu.regs.Value() == old(cpu.regs.Value()))
  {
    var regs := cpu.regs;
    if name == "n8" {
      y := Some(SignExtend8(cpu.mem.ReadByte(regs.pc)));
      regs.IncrementPC(1);
    } else if name == "e8" {
      y := Some(cpu.mem.ReadByte(regs.pc));
      regs.IncrementPC(1);
    } else if name == "HL" {
      y := Some(SignExtend8(cpu.mem.ReadByte(HL(regs.Value()))));
    } else {
      y := Get(regs.Value(), name);
    }
  }

  // -------------------------------------------------------------- execute

  /** The mnemonic table filled by mapMnemonics. */
  datatype Entry = AdcEntry | AddEntry

  const Mnemonics: map<string, Entry> := map["ADC" := AdcEntry, "ADD" := AddEntry]

  /** execute on a snapshot: any mnemonic other than ADC and ADD throws. */
  function Executed(m: seq<Byte>, r: Regs, info: OpcodeInfo, c: Conditions): Handled
    requires |m| == Size
  {
    if info.mnemonic !in Mnemonics then Handled(r, true)
    else match Mnemonics[info.mnemonic]
      case AdcEntry => AdcHandled(m, r, info)
      case AddEntry => AddHandled(m, r, info, c)
  }

  /** execute: look up the mnemonic's handler and run it. */
  method Execute(cpu: Cpu, info: OpcodeInfo, c: Conditions) returns (thrown: bool)
    requires cpu.Valid()
    modifies cpu.regs
    ensures cpu.Valid()
    ensures Handled(cpu.regs.Value(), thrown) == Executed(cpu.mem.Contents(), old(cpu.regs.Value()), info, c)
  {
    if info.mnemonic !in Mnemonics {
      return true;
    }
    match Mnemonics[info.mnemonic] {
      case AdcEntry =>
        thrown := Adc(cpu, info);
      case AddEntry =>
        thrown := Add(cpu, info, c);
    }
  }

  // ------------------------------------------------------------- run loop

  /**
   * One pass of the run loop on a snapshot: fetch, execute, then step PC
   * on by one unless the instruction jumped, in which case the jump switch
   * is reset instead.  A missing table entry throws inside execute.  The
   * result is the registers, the CPU's fields, and whether it threw.
   */
  function Iterated(m: seq<Byte>, r: Regs, s: CpuState, unprefixed: map<int, OpcodeInfo>,
                    cbprefixed: map<int, OpcodeInfo>, c: Conditions): (Regs, CpuState, bool)
    requires |m| == Size
  {
    var (info, r1) := Fetched(m, r, unprefixed, cbprefixed);
    if info.None? then (r1, s, true) else Advanced(Executed(m, r1, info.value, c), s)
  }

  /** The end of a pass: PC steps on by one, or the jump switch is reset. */
  function Advanced(h: Handled, s: CpuState): (Regs, CpuState, bool) {
    if h.thrown then (h.regs, s, true)
    else if !s.didJump then (h.regs.(pc := h.regs.pc + 1), s, false)
    else (h.regs, s.(didJump := false), false)
  }

  /** The body of the run loop, once; the trace line and the one-millisecond sleep are not modelled. */
  method RunIteration(cpu: Cpu, c: Conditions) returns (thrown: bool)
    requires cpu.Valid()
    modifies cpu, cpu.regs
    ensures cpu.Valid()
    ensures (cpu.regs.Value(), cpu.State(), thrown) ==
            Iterated(cpu.mem.Contents(), old(cpu.regs.Value()), old(cpu.State()),
                     cpu.unprefixed, cpu.cbprefixed, c)
  {
    ghost var m, r, st := cpu.mem.Contents(), cpu.regs.Value(), cpu.State();
    var info := cpu.Fetch();
    ghost var r1 := cpu.regs.Value();
    assert Fetched(m, r, cpu.unprefixed, cpu.cbprefixed) == (info, r1);
    if info.None? {
      return true;
    }
    thrown := Execute(cpu, info.value, c);
    ghost var h := Executed(m, r1, info.value, c);
    assert Iterated(m, r, st, cpu.unprefixed, cpu.cbprefixed, c) == Advanced(h, st);
    assert h == Handled(cpu.regs.Value(), thrown);
    if !thrown {
      EndPass(cpu);
    }
  }

  /** The end of a pass that did not throw: PC one on, or the jump switch reset. */
  method EndPass(cpu: Cpu)
    requires cpu.Valid()
    modifies cpu, cpu.regs
    ensures cpu.Valid()
    ensures (cpu.regs.Value(), cpu.State(), false) == Advanced(Handled(old(cpu.regs.Value()), false), old(cpu.State()))
  {
    if !cpu.didJump {
      cpu.regs.IncrementPC(1);
    } else {
      cpu.SetDidJump(false);
    }
  }

  /**
   * A pass over an unprefixed `ADC A, n8` with no jump pending: fetch leaves
   * PC on the opcode, so the byte ADC adds is the opcode byte itself, and
   * PC ends two past where it started, on the byte that was meant as the
   * operand.
   */
  lemma {:induction false} AdcImmediateAddsOpcodeByte(m: seq<Byte>, r: Regs, s: CpuState,
      unprefixed: map<int, OpcodeInfo>, cbprefixed: map<int, OpcodeInfo>, c: Conditions)
    requires |m| == Size && IsFlagByte(r.f) && !s.didJump
    requires ByteAt(m, r.pc) != 0xCB && ByteAt(m, r.pc) in unprefixed
    requires var info := unprefixed[ByteAt(m, r.pc)];
      info.mnemonic == "ADC" && |info.operands| >= 2 && info.operands[1].name == "n8"
    ensures var (r', s', thrown) := Iterated(m, r, s, unprefixed, cbprefixed, c);
      var carry := if FlagSet(r, Carry) then 1 else 0;
      !thrown && s' == s &&
      r'.a == (r.a % 256 + ByteAt(m, r.pc) + carry) % 256 &&
      r'.pc == r.pc + 2
  {
    var info := unprefixed[ByteAt(m, r.pc)];
    assert Fetched(m, r, unprefixed, cbprefixed) == (Some(info), r);
    assert Mnemonics["ADC"] == AdcEntry;
    AdcAddsWithCarry(m, r, info);
  }
}
