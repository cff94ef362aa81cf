/**
 * The micro-op generation's flag calculator.  For each mnemonic a calculator
 * turns the destination value x and the source value y into four
 * conditions (zero, half carry, carry, subtract); applyFlags then writes F
 * according to the instruction's "Z/N/H/C/0/1/-" specification.
 *
 * The table of calculator lambdas becomes one match on the mnemonic.  The
 * calculators read the CPU's registers (the carry flag, A), and POP's
 * calculator also writes F, so Calculate takes and returns a register
 * snapshot.  Java's `& 0xFF` is written `% 256` (lemma Bits.AndLowMask).
 */
module FlagCalculator {
  import opened Bits
  import opened Registers
  import opened Descriptors
  import opened Wrappers

  /** FlagConditions: every field starts false. */
  datatype Conditions = Conditions(zero: bool, halfCarry: bool, carry: bool, subtract: bool)

  const NoConditions: Conditions := Conditions(false, false, false, false)

  /**
   * The outcome of calculateFlags: the conditions and the registers after
   * the calculator ran, or one of the two exceptions it can throw.
   */
  datatype Calculation =
    | Calculated(conditions: Conditions, regs: Regs)
    | UnknownMnemonic     // IllegalArgumentException: no calculator registered
    | MissingOperand      // ArrayIndexOutOfBoundsException on operands[i]

  /** Second operands that make ADD a 16-bit addition. */
  const WideNames: set<string> := {"AF", "BC", "DE", "HL", "SP", "PC"}

  /** The ADD calculator, by the name of the second operand. */
  function AddConditions(source: string, x: int, y: int): Conditions {
    if source == "e8" then
      var lowSp := x % 256;
      var e8 := y % 256;
      NoConditions.(halfCarry := lowSp % 16 + e8 % 16 > 0x0F, carry := lowSp + e8 > 0xFF)
    else if source in WideNames then
      NoConditions.(halfCarry := And(x % 0x1000 + y % 0x1000, 0x1000) != 0,
                    carry := x % 0x10000 + y % 0x10000 > 0xFFFF)
    else
      NoConditions.(zero := (x + y) % 256 == 0,
                    halfCarry := x % 16 + y % 16 > 0xF,
                    carry := x + y > 0xFF)
  }

  /** The half-carry test shared by SUB, SBC and CP: bit 4 of `x ^ y ^ ((x - (y + c)) & 0xFF)`. */
  predicate XorHalfCarry(x: int, y: int, c: int) {
    And(Xor(Xor(x, y), (x - (y + c)) % 256), 0x10) != 0
  }

  /** POP's calculator: F takes bits 7..4 of `x & 0xF0`, one setFlag call per flag. */
  function PoppedFlags(r: Regs, x: int): Regs {
    var popped := And(x, 0xF0);
    var r1 := WithFlagIf(r, Zero, And(popped, 0x80) > 0);
    var r2 := WithFlagIf(r1, Subtract, And(popped, 0x40) > 0);
    var r3 := WithFlagIf(r2, HalfCarry, And(popped, 0x20) > 0);
    WithFlagIf(r3, Carry, And(popped, 0x10) > 0)
  }

  /** The LD calculator: `LD HL, SP+e8` when there is a third operand, a 16-bit add otherwise. */
  function LoadConditions(operandCount: int, x: int, y: int): Conditions {
    if operandCount > 2 then
      var sp := x % 0x10000;
      var offset := SignExtend8(y);
      var sum := (sp + offset) % 0x10000;
      NoConditions.(halfCarry := And(Xor(Xor(sp, offset), sum), 0x10) != 0,
                    carry := And(Xor(Xor(sp, offset), sum), 0x100) != 0)
    else
      NoConditions.(halfCarry := And(x % 0x1000 + y % 0x1000, 0x1000) != 0,
                    carry := x % 0x10000 + y % 0x10000 > 0xFFFF)
  }

  /** The calculators registered in the constructor, one per mnemonic. */
  datatype Calculator =
    | AddCalc | AdcCalc | DecCalc | IncCalc | SbcCalc | SubCalc
    | AndCalc | BitCalc | OrCalc | RlCalc | RlaCalc | RlcCalc
    | RlcaCalc | RrCalc | RraCalc | RrcCalc | RrcaCalc | SlaCalc
    | SraCalc | SrlCalc | SwapCalc | XorCalc | CpCalc | CplCalc
    | DaaCalc | PopCalc | LdCalc | CcfCalc | LdhCalc

  /**
   * The calculator table filled by the constructor: arithmetic, bit
   * operations, comparison and the miscellaneous group, by mnemonic.
   */
  const Calculators: map<string, Calculator> := map[
    "ADC" := AdcCalc, "DEC" := DecCalc, "INC" := IncCalc,
    "AND" := AndCalc, "OR" := OrCalc, "XOR" := XorCalc,
    "RL" := RlCalc, "RLA" := RlaCalc, "RLC" := RlcCalc, "RLCA" := RlcaCalc,
    "RR" := RrCalc, "RRA" := RraCalc, "RRC" := RrcCalc, "RRCA" := RrcaCalc,
    "SLA" := SlaCalc, "SRA" := SraCalc, "SRL" := SrlCalc, "SWAP" := SwapCalc,
    "CPL" := CplCalc, "DAA" := DaaCalc, "CCF" := CcfCalc, "LDH" := LdhCalc,
    "BIT" := BitCalc, "CP" := CpCalc, "SUB" := SubCalc, "SBC" := SbcCalc,
    "ADD" := AddCalc, "LD" := LdCalc, "POP" := PopCalc
  ]

  /** The entries the flag lemmas below look up. */
  lemma Entries()
    ensures "SUB" in Calculators && Calculators["SUB"] == SubCalc
    ensures "SBC" in Calculators && Calculators["SBC"] == SbcCalc
    ensures "CP" in Calculators && Calculators["CP"] == CpCalc
    ensures "ADD" in Calculators && Calculators["ADD"] == AddCalc
    ensures "LD" in Calculators && Calculators["LD"] == LdCalc
    ensures "BIT" in Calculators && Calculators["BIT"] == BitCalc
  {
  }

  /** POP's entry. */
  lemma PopEntry()
    ensures "POP" in Calculators && Calculators["POP"] == PopCalc
  {
  }

  /**
   * calculateFlags: look up the mnemonic's calculator and run it on x and y;
   * a mnemonic with no calculator is the IllegalArgumentException.
   */
  function Calculate(r: Regs, mnemonic: string, x: int, y: int, operands: seq<Operand>): (outcome: Calculation)
    ensures outcome.UnknownMnemonic? <==> mnemonic !in Calculators
  {
    if mnemonic in Calculators then Run(Calculators[mnemonic], r, x, y, operands) else UnknownMnemonic
  }

  /** One calculator's lambda, run on the CPU's registers, x, y and the operands. */
  function Run(calculator: Calculator, r: Regs, x: int, y: int, operands: seq<Operand>): (outcome: Calculation)
    ensures !outcome.UnknownMnemonic?
    ensures outcome.MissingOperand? <==>
            (calculator == AddCalc && |operands| < 2) ||
            (calculator in {DecCalc, IncCalc} && |operands| == 0)
    ensures outcome.Calculated? && calculator != PopCalc ==> outcome.regs == r
    ensures outcome.Calculated? && calculator == PopCalc ==> outcome.regs == PoppedFlags(r, x)
  {
    match calculator
    case AddCalc =>
      if |operands| < 2 then MissingOperand
      else Calculated(AddConditions(operands[1].name, x, y), r)
    case AdcCalc => Calculated(AdcConditions(r, x, y), r)
    case DecCalc =>
      if |operands| == 0 then MissingOperand
      else Calculated(DecConditions(IsValidRegister(operands[0].name), x), r)
    case IncCalc =>
      if |operands| == 0 then MissingOperand
      else Calculated(IncConditions(IsValidRegister(operands[0].name), x, y), r)
    case SbcCalc => Calculated(SbcConditions(r, x, y), r)
    case SubCalc => Calculated(SubConditions(r, x, y), r)
    case AndCalc => Calculated(NoConditions.(zero := And(x, y) % 256 == 0), r)
    case BitCalc => Calculated(BitConditions(x, y), r)
    case OrCalc => Calculated(NoConditions.(zero := Or(x, y) % 256 == 0), r)
    case RlCalc => Calculated(RlConditions(r, x), r)
    case RlaCalc => Calculated(CarryIsOne(y), r)
    case RlcCalc => Calculated(ZeroAndCarryIsOne(x, y), r)
    case RlcaCalc => Calculated(CarryIsOne(y), r)
    case RrCalc => Calculated(ZeroAndCarryIsOne(x, y), r)
    case RraCalc => Calculated(CarryIsOne(y), r)
    case RrcCalc => Calculated(ZeroAndCarryIsOne(x, y), r)
    case RrcaCalc => Calculated(CarryIsOne(y), r)
    case SlaCalc => Calculated(SlaConditions(x), r)
    case SraCalc => Calculated(SraConditions(x), r)
    case SrlCalc => Calculated(SrlConditions(x), r)
    case SwapCalc => Calculated(NoConditions.(zero := Or(x / 16, x * 16) == 0), r)
    case XorCalc => Calculated(NoConditions.(zero := Xor(x, y) % 256 == 0), r)
    case CpCalc => Calculated(CpConditions(x, y), r)
    case CplCalc => Calculated(NoConditions, r)
    case DaaCalc => Calculated(NoConditions, r)
    case PopCalc => Calculated(NoConditions, PoppedFlags(r, x))
    case LdCalc => Calculated(LoadConditions(|operands|, x, y), r)
    case CcfCalc => Calculated(NoConditions.(carry := !FlagSet(r, Carry)), r)
    case LdhCalc => Calculated(NoConditions, r)
  }

  /** The carry flag as the 0 or 1 that ADC, SBC and RL add in. */
  function CarryIn(r: Regs): int {
    if FlagSet(r, Carry) then 1 else 0
  }

  function AdcConditions(r: Regs, x: int, y: int): Conditions {
    var c := CarryIn(r);
    NoConditions.(zero := (x + y + c) % 256 == 0,
                  halfCarry := x % 16 + y % 16 + c > 0xF,
                  carry := x + y + c > 0xFF)
  }

  /** DEC computes flags only when its operand names a register. */
  function DecConditions(register: bool, x: int): Conditions {
    if register then
      NoConditions.(zero := (x - 1) % 256 == 0, halfCarry := x % 16 < 1, subtract := true)
    else
      NoConditions
  }

  /** INC computes flags only when its operand names a register. */
  function IncConditions(register: bool, x: int, y: int): Conditions {
    if register then
      NoConditions.(zero := (x + y) % 256 == 0, halfCarry := x % 16 + y % 16 > 0xF)
    else
      NoConditions
  }

  function SbcConditions(r: Regs, x: int, y: int): Conditions {
    var c := CarryIn(r);
    NoConditions.(zero := (x - (y + c)) % 256 == 0,
                  halfCarry := XorHalfCarry(x, y, c),
                  carry := y + c > r.a)
  }

  function SubConditions(r: Regs, x: int, y: int): Conditions {
    NoConditions.(zero := (x - y) % 256 == 0,
                  halfCarry := XorHalfCarry(x, y, 0),
                  carry := y > r.a)
  }

  /** BIT: Z from `y & (1 << x)`. */
  function BitConditions(x: int, y: int): Conditions {
    NoConditions.(zero := And(y, ShiftOne(x)) == 0)
  }

  /** RL: the rotated byte through the carry, and bit 7 as the carry out. */
  function RlConditions(r: Regs, x: int): Conditions {
    var carryOut := (x / 128) % 2;
    var result := Or(x * 2, CarryIn(r)) % 256;
    NoConditions.(zero := result == 0, carry := carryOut == 1)
  }

  /** RLA, RLCA, RRA and RRCA: C from the carry the operation passed in y. */
  function CarryIsOne(y: int): Conditions {
    NoConditions.(carry := y == 1)
  }

  /** RLC, RR and RRC: Z from the result in x, C from the carry in y. */
  function ZeroAndCarryIsOne(x: int, y: int): Conditions {
    NoConditions.(zero := x == 0, carry := y == 1)
  }

  function SlaConditions(x: int): Conditions {
    NoConditions.(zero := (x * 2) % 256 == 0, carry := And(x, 0x80) != 0)
  }

  function SraConditions(x: int): Conditions {
    NoConditions.(zero := (x / 2) % 256 == 0, carry := And(x, 0x01) != 0)
  }

  function SrlConditions(x: int): Conditions {
    NoConditions.(zero := x / 2 == 0, carry := And(x, 0x1) != 0)
  }

  /** CP: SUB's conditions, except that C compares with x rather than A. */
  function CpConditions(x: int, y: int): Conditions {
    NoConditions.(zero := (x - y) % 256 == 0,
                  halfCarry := XorHalfCarry(x, y, 0),
                  carry := y > x)
  }

  // ----------------------------------------------------------- applyFlags

  /**
   * What one "Z"/"H"/"C" switch leaves in its flag: the condition for the
   * flag's own letter, 0 for "0", 1 for "1", the old value otherwise.
   */
  function Outcome(letter: string, own: char, condition: bool, before: bool): bool {
    if letter == [own] then condition
    else if letter == "0" then false
    else if letter == "1" then true
    else before
  }

  /** One switch of applyFlags for Z, H or C. */
  function Applied(r: Regs, flag: Flag, letter: string, condition: bool): (r': Regs)
    ensures r' == r.(f := r'.f)
    ensures IsFlagByte(r.f) ==> IsFlagByte(r'.f)
    ensures IsFlagByte(r.f) ==> FlagSet(r', flag) == Outcome(letter, Letter(flag), condition, FlagSet(r, flag))
    ensures IsFlagByte(r.f) ==> forall g: Flag :: g != flag ==> FlagSet(r', g) == FlagSet(r, g)
  {
    if letter == [Letter(flag)] then WithFlagIf(r, flag, condition)
    else if letter == "0" then WithoutFlag(r, flag)
    else if letter == "1" then WithFlag(r, flag)
    else r
  }

  /**
   * The N switch: its "N" case has no break, so after storing the
   * condition it runs into the "0" case and clears the flag.
   */
  function AppliedSubtract(r: Regs, letter: string, condition: bool): (r': Regs)
    ensures r' == r.(f := r'.f)
    ensures IsFlagByte(r.f) ==> IsFlagByte(r'.f)
    ensures IsFlagByte(r.f) ==>
              FlagSet(r', Subtract) ==
              (if letter == "N" then false else Outcome(letter, 'N', condition, FlagSet(r, Subtract)))
    ensures IsFlagByte(r.f) ==> forall g: Flag :: g != Subtract ==> FlagSet(r', g) == FlagSet(r, g)
  {
    if letter == "N" then WithoutFlag(WithFlagIf(r, Subtract, condition), Subtract)
    else Applied(r, Subtract, letter, condition)
  }

  /** applyFlags on a snapshot: the Z, N, H and C switches in that order. */
  function FlagsApplied(r: Regs, flags: FlagSpec, c: Conditions): Regs {
    var r1 := Applied(r, Zero, flags.z, c.zero);
    var r2 := AppliedSubtract(r1, flags.n, c.subtract);
    var r3 := Applied(r2, HalfCarry, flags.h, c.halfCarry);
    Applied(r3, Carry, flags.c, c.carry)
  }

  /**
   * After applyFlags each flag is what its letter says: the condition for
   * the flag's own letter, 0 for "0", 1 for "1", unchanged for anything
   * else; except N, which ends clear whenever its letter is "N".  Only F
   * changes, and it stays a flag byte.
   */
  lemma {:induction false} FlagsAppliedOutcome(r: Regs, flags: FlagSpec, c: Conditions)
    requires IsFlagByte(r.f)
    ensures var r' := FlagsApplied(r, flags, c);
      r' == r.(f := r'.f) && IsFlagByte(r'.f) &&
      FlagSet(r', Zero) == Outcome(flags.z, 'Z', c.zero, FlagSet(r, Zero)) &&
      FlagSet(r', Subtract) ==
        (if flags.n == "N" then false else Outcome(flags.n, 'N', c.subtract, FlagSet(r, Subtract))) &&
      FlagSet(r', HalfCarry) == Outcome(flags.h, 'H', c.halfCarry, FlagSet(r, HalfCarry)) &&
      FlagSet(r', Carry) == Outcome(flags.c, 'C', c.carry, FlagSet(r, Carry))
  {
    var r1 := Applied(r, Zero, flags.z, c.zero);
    var r2 := AppliedSubtract(r1, flags.n, c.subtract);
    var r3 := Applied(r2, HalfCarry, flags.h, c.halfCarry);
    var r4 := Applied(r3, Carry, flags.c, c.carry);
    assert FlagSet(r4, Zero) == FlagSet(r1, Zero);
    assert FlagSet(r4, Subtract) == FlagSet(r2, Subtract);
    assert FlagSet(r4, HalfCarry) == FlagSet(r3, HalfCarry);
  }

  /**
   * processFlags on a snapshot: calculate, then apply the instruction's
   * flag specification; None where calculateFlags throws (nothing has
   * changed by then).
   */
  function FlagsProcessed(r: Regs, info: OpcodeInfo, x: int, y: int): Option<Regs> {
    var outcome := Calculate(r, info.mnemonic, x, y, info.operands);
    if outcome.Calculated? then Some(FlagsApplied(outcome.regs, info.flags, outcome.conditions)) else None
  }

  // ------------------------------------------------ what the flags mean

  /**
   * SUB, SBC and CP compute H from `x ^ y ^ result`; on all inputs that is
   * exactly a borrow out of the low nibble: x & 0xF < (y & 0xF) + c.
   */
  lemma {:induction false} XorHalfCarryIsBorrow(x: int, y: int, c: int)
    requires c == 0 || c == 1
    ensures XorHalfCarry(x, y, c) <==> x % 16 < y % 16 + c
  {
    XorOfDifferenceBit(x, y, x - (y + c));
    DifferenceBit(x, y, c);
    NibbleBorrow(x, y, c);
  }

  /** A carry into bit 4 of y + c flips the nibble comparison back into x mod 16 < y mod 16 + c. */
  lemma {:induction false} NibbleBorrow(x: int, y: int, c: int)
    requires c == 0 || c == 1
    ensures ((y % 16 + c >= 16) != (x % 16 < (y + c) % 16)) == (x % 16 < y % 16 + c)
  {
    if y % 16 + c >= 16 {
      assert (y + c) % 16 == 0;
    } else {
      assert (y + c) % 16 == y % 16 + c;
    }
  }

  /** Bit 4 of `x ^ y ^ (d & 0xFF)`, tested with the mask 0x10. */
  lemma {:induction false} XorOfDifferenceBit(x: int, y: int, d: int)
    ensures (And(Xor(Xor(x, y), d % 256), 0x10) != 0) == ((Bit(x, 4) != Bit(y, 4)) != Bit(d, 4))
  {
    var t := Xor(Xor(x, y), d % 256);
    assert Pow2(4) == 16;
    MaskTestsBit(t, 4);
    BitXor(Xor(x, y), d % 256, 4);
    BitXor(x, y, 4);
    assert Pow2(8) == 256 by {
      Pow2Add(4, 4);
    }
    BitOfMod(d, 8, 4);
  }

  /** Bit 4 of x - (y + c): both operand bits, the carry into y + c and the borrow below bit 4. */
  lemma {:induction false} DifferenceBit(x: int, y: int, c: int)
    requires c == 0 || c == 1
    ensures Bit(x - (y + c), 4) ==
            ((Bit(x, 4) != Bit(y, 4)) != ((y % 16 + c >= 16) != (x % 16 < (y + c) % 16)))
  {
    assert Pow2(4) == 16;
    BitOfDifference(x, y + c, 4);
    BitOfSum(y, c, 4);
    assert c / 16 == 0;
  }

  /**
   * SUB: Z iff the 8-bit difference is zero, H iff the low nibble borrows,
   * C iff y exceeds A; N is left to the descriptor's "1".
   */
  lemma {:induction false} SubFlags(r: Regs, x: int, y: int, operands: seq<Operand>)
    ensures var outcome := Calculate(r, "SUB", x, y, operands);
      outcome.Calculated? && outcome.regs == r &&
      (outcome.conditions.zero <==> (x - y) % 256 == 0) &&
      (outcome.conditions.halfCarry <==> x % 16 < y % 16) &&
      (outcome.conditions.carry <==> y > r.a) &&
      !outcome.conditions.subtract
  {
    Entries();
    XorHalfCarryIsBorrow(x, y, 0);
    assert Calculate(r, "SUB", x, y, operands) == Calculated(SubConditions(r, x, y), r);
  }

  /** SBC: as SUB with the carry flag subtracted as well. */
  lemma {:induction false} SbcFlags(r: Regs, x: int, y: int, operands: seq<Operand>)
    ensures var c := if FlagSet(r, Carry) then 1 else 0;
      var outcome := Calculate(r, "SBC", x, y, operands);
      outcome.Calculated? && outcome.regs == r &&
      (outcome.conditions.zero <==> (x - y - c) % 256 == 0) &&
      (outcome.conditions.halfCarry <==> x % 16 < y % 16 + c) &&
      (outcome.conditions.carry <==> y + c > r.a) &&
      !outcome.conditions.subtract
  {
    Entries();
    var c := CarryIn(r);
    var conditions := SbcConditions(r, x, y);
    assert Calculate(r, "SBC", x, y, operands) == Calculated(conditions, r);
    XorHalfCarryIsBorrow(x, y, c);
    assert conditions.halfCarry <==> x % 16 < y % 16 + c;
    assert x - y - c == x - (y + c);
  }

  /** CP: SUB's Z and H, but C compares y with x, and A is not consulted. */
  lemma {:induction false} CpFlags(r: Regs, x: int, y: int, operands: seq<Operand>)
    ensures var outcome := Calculate(r, "CP", x, y, operands);
      outcome.Calculated? && outcome.regs == r &&
      (outcome.conditions.zero <==> (x - y) % 256 == 0) &&
      (outcome.conditions.halfCarry <==> x % 16 < y % 16) &&
      (outcome.conditions.carry <==> y > x) &&
      !outcome.conditions.subtract
  {
    Entries();
    XorHalfCarryIsBorrow(x, y, 0);
    assert Calculate(r, "CP", x, y, operands) == Calculated(CpConditions(x, y), r);
  }

  /**
   * Java's `(a & 0xFFF) + (b & 0xFFF)` has bit 12 set exactly when the two
   * 12-bit halves carry out of bit 11.
   */
  lemma {:induction false} Bit12IsCarry(x: int, y: int)
    ensures (And(x % 0x1000 + y % 0x1000, 0x1000) != 0) <==> x % 0x1000 + y % 0x1000 >= 0x1000
  {
    var s := x % 0x1000 + y % 0x1000;
    Pow2Table();
    MaskTestsBit(s, 12);
    assert 0 <= s < 2 * 0x1000;
    DivUnique(s, 0x1000, if s >= 0x1000 then 1 else 0, if s >= 0x1000 then s - 0x1000 else s);
  }

  /**
   * ADD with a 16-bit second operand: H is the carry out of bit 11, C the
   * carry out of bit 15, and Z is never computed.
   */
  lemma {:induction false} WideAddFlags(r: Regs, x: int, y: int, operands: seq<Operand>)
    requires |operands| >= 2 && operands[1].name in WideNames
    ensures var outcome := Calculate(r, "ADD", x, y, operands);
      outcome.Calculated? &&
      (outcome.conditions.halfCarry <==> x % 0x1000 + y % 0x1000 >= 0x1000) &&
      (outcome.conditions.carry <==> x % 0x10000 + y % 0x10000 >= 0x10000) &&
      !outcome.conditions.zero && !outcome.conditions.subtract
  {
    Entries();
    Bit12IsCarry(x, y);
  }

  /**
   * `LD HL, SP+e8` computes H and C from `sp ^ offset ^ sum`; that is the
   * carry out of bit 3 and bit 7 of adding the low byte of SP and the
   * unsigned e8 byte, the same conditions ADD SP, e8 computes directly.
   */
  lemma {:induction false} StackOffsetFlags(r: Regs, x: int, y: int, operands: seq<Operand>, addOperands: seq<Operand>)
    requires |operands| > 2
    requires |addOperands| >= 2 && addOperands[1].name == "e8"
    ensures var outcome := Calculate(r, "LD", x, y, operands);
      outcome.Calculated? &&
      (outcome.conditions.halfCarry <==> x % 16 + y % 16 > 0xF) &&
      (outcome.conditions.carry <==> x % 256 + y % 256 > 0xFF) &&
      outcome.conditions == Calculate(r, "ADD", x, y, addOperands).conditions
  {
    Entries();
    assert Calculate(r, "LD", x, y, operands) == Calculated(LoadConditions(|operands|, x, y), r);
    assert Calculate(r, "ADD", x, y, addOperands) == Calculated(AddConditions("e8", x, y), r);
    LoadOffsetConditions(|operands|, x, y);
    ModOfMod(x, 16, 16);
    ModOfMod(y, 16, 16);
    var load, add := LoadConditions(|operands|, x, y), AddConditions("e8", x, y);
    assert load.halfCarry == add.halfCarry && load.carry == add.carry;
  }

  /** The third-operand branch of the LD calculator, as carries out of bits 3 and 7. */
  lemma {:induction false} LoadOffsetConditions(operandCount: int, x: int, y: int)
    requires operandCount > 2
    ensures LoadConditions(operandCount, x, y).halfCarry <==> x % 16 + y % 16 > 0xF
    ensures LoadConditions(operandCount, x, y).carry <==> x % 256 + y % 256 > 0xFF
    ensures !LoadConditions(operandCount, x, y).zero && !LoadConditions(operandCount, x, y).subtract
  {
    LoadOffsetHalfCarry(x, y);
    LoadOffsetCarry(x, y);
  }

  lemma {:induction false} LoadOffsetHalfCarry(x: int, y: int)
    ensures var sp, offset := x % 0x10000, SignExtend8(y);
      (And(Xor(Xor(sp, offset), (sp + offset) % 0x10000), 0x10) != 0) <==> x % 16 + y % 16 > 0xF
  {
    OperandResidues(x, y, 16);
    CarryFromResidues(x % 0x10000, SignExtend8(y), x, y, 4, 16);
  }

  lemma {:induction false} LoadOffsetCarry(x: int, y: int)
    ensures var sp, offset := x % 0x10000, SignExtend8(y);
      (And(Xor(Xor(sp, offset), (sp + offset) % 0x10000), 0x100) != 0) <==> x % 256 + y % 256 > 0xFF
  {
    OperandResidues(x, y, 256);
    CarryFromResidues(x % 0x10000, SignExtend8(y), x, y, 8, 256);
  }

  /** SP masked to 16 bits and the sign-extended offset keep x's and y's residues modulo 16 and 256. */
  lemma {:induction false} OperandResidues(x: int, y: int, m: int)
    requires m == 16 || m == 256
    ensures (x % 0x10000) % m == x % m && SignExtend8(y) % m == y % m
  {
    ModOfMod(x, m, 0x10000 / m);
    ModOfMod(SignExtend8(y), m, 256 / m);
    ModOfMod(y, m, 256 / m);
  }

  /** The carry test of XorCarryMask depends on the operands only through their residues. */
  lemma {:induction false} CarryFromResidues(a: int, b: int, x: int, y: int, k: nat, m: int)
    requires (k == 4 && m == 16) || (k == 8 && m == 256)
    requires a % m == x % m && b % m == y % m
    ensures (And(Xor(Xor(a, b), (a + b) % 0x10000), m) != 0) <==> x % m + y % m >= m
  {
    XorCarryMask(a, b, k, m);
  }

  /** Testing bit k (4 or 8) of `a ^ b ^ ((a + b) & 0xFFFF)` tests the carry into bit k. */
  lemma {:induction false} XorCarryMask(a: int, b: int, k: nat, m: int)
    requires (k == 4 && m == 16) || (k == 8 && m == 256)
    ensures (And(Xor(Xor(a, b), (a + b) % 0x10000), m) != 0) == (a % m + b % m >= m)
  {
    Pow2Table();
    XorCarryBit(a, b, 16, k);
    MaskTestsBit(Xor(Xor(a, b), (a + b) % 0x10000), k);
  }

  /** Bit k of `a ^ b ^ ((a + b) mod 2^n)` is the carry into bit k of a + b, for k below n. */
  lemma {:induction false} XorCarryBit(a: int, b: int, n: nat, k: nat)
    requires k < n
    ensures Bit(Xor(Xor(a, b), (a + b) % Pow2(n)), k) == (a % Pow2(k) + b % Pow2(k) >= Pow2(k))
  {
    BitXor(Xor(a, b), (a + b) % Pow2(n), k);
    BitXor(a, b, k);
    BitOfMod(a + b, n, k);
    BitOfSum(a, b, k);
  }

  /** BIT u3, r: Z is set iff bit u3 of the operand is clear. */
  lemma {:induction false} BitTestFlags(r: Regs, x: int, y: int, operands: seq<Operand>)
    requires 0 <= x < 31
    ensures var outcome := Calculate(r, "BIT", x, y, operands);
      outcome.Calculated? && (outcome.conditions.zero <==> !Bit(y, x))
  {
    Entries();
    assert ShiftOne(x) == Pow2(x);
    MaskTestsBit(y, x);
  }

  /**
   * POP's calculator copies bits 7..4 of the popped value into Z, N, H and
   * C, changes no other register, and returns all-false conditions.
   */
  lemma {:induction false} PopCopiesFlagBits(r: Regs, x: int, operands: seq<Operand>)
    ensures var outcome := Calculate(r, "POP", x, 0, operands);
      outcome.Calculated? && outcome.conditions == NoConditions &&
      outcome.regs == r.(f := outcome.regs.f) && IsFlagByte(outcome.regs.f) &&
      forall flag: Flag :: FlagSet(outcome.regs, flag) == Bit(x, Position(flag))
  {
    PopOutcome(r, x, 0, operands);
    PoppedFlagBits(r, x);
  }

  /** The POP entry of the calculator table. */
  lemma {:induction false} PopOutcome(r: Regs, x: int, y: int, operands: seq<Operand>)
    ensures Calculate(r, "POP", x, y, operands) == Calculated(NoConditions, PoppedFlags(r, x))
  {
    PopEntry();
  }

  /** The four setFlag calls of POP's calculator leave bits 7..4 of x in F. */
  lemma {:induction false} PoppedFlagBits(r: Regs, x: int)
    ensures var r' := PoppedFlags(r, x);
      r' == r.(f := r'.f) && IsFlagByte(r'.f) &&
      forall flag: Flag :: FlagSet(r', flag) == Bit(x, Position(flag))
  {
    var popped := And(x, 0xF0);
    FlagConstants();
    PopTestIsBit(x, Zero);
    PopTestIsBit(x, Subtract);
    PopTestIsBit(x, HalfCarry);
    PopTestIsBit(x, Carry);
    var r1 := WithFlagIf(r, Zero, And(popped, 0x80) > 0);
    var r2 := WithFlagIf(r1, Subtract, And(popped, 0x40) > 0);
    var r3 := WithFlagIf(r2, HalfCarry, And(popped, 0x20) > 0);
    var r4 := WithFlagIf(r3, Carry, And(popped, 0x10) > 0);
    assert r4 == PoppedFlags(r, x);
    assert FlagSet(r4, Zero) == FlagSet(r1, Zero) == Bit(x, 7);
    assert FlagSet(r4, Subtract) == FlagSet(r2, Subtract) == Bit(x, 6);
    assert FlagSet(r4, HalfCarry) == FlagSet(r3, HalfCarry) == Bit(x, 5);
  }

  /** `(x & 0xF0 & mask) > 0` tests the flag's bit of x. */
  lemma {:induction false} PopTestIsBit(x: int, flag: Flag)
    ensures (And(And(x, 0xF0), Mask(flag)) > 0) == Bit(x, Position(flag))
  {
    var popped := And(x, 0xF0);
    HighNibbleBits(x);
    FlagSetIsBit(popped, flag);
    AndRange(popped, Mask(flag));
  }

  /**
   * POP AF as written: its flag specification is "Z N H C", so applyFlags
   * overwrites the flags POP's calculator copied with the all-false
   * conditions, and every flag ends clear whatever was popped.
   */
  lemma {:induction false} PopAFEndsWithFlagsClear(r: Regs, info: OpcodeInfo, x: int, y: int)
    requires info.mnemonic == "POP" && info.flags == FlagSpec("Z", "N", "H", "C")
    ensures var r' := FlagsProcessed(r, info, x, y);
      r'.Some? && forall flag: Flag :: !FlagSet(r'.value, flag)
  {
    var popped := PoppedFlags(r, x);
    PopOutcome(r, x, y, info.operands);
    PoppedFlagBits(r, x);
    FlagsAppliedOutcome(popped, info.flags, NoConditions);
  }

  // -------------------------------------------------------------- methods

  /** applyFlags: the four switches, with the N case falling into "0". */
  method ApplyFlags(regs: Registers, flags: FlagSpec, conditions: Conditions)
    requires regs.Valid()
    modifies regs
    ensures regs.Valid()
    ensures regs.Value() == FlagsApplied(old(regs.Value()), flags, conditions)
  {
    ApplySwitch(regs, Zero, flags.z, conditions.zero);
    ApplySubtractSwitch(regs, flags.n, conditions.subtract);
    ApplySwitch(regs, HalfCarry, flags.h, conditions.halfCarry);
    ApplySwitch(regs, Carry, flags.c, conditions.carry);
  }

  /** One switch of applyFlags for Z, H or C. */
  method ApplySwitch(regs: Registers, flag: Flag, letter: string, condition: bool)
    requires regs.Valid()
    modifies regs
    ensures regs.Valid()
    ensures regs.Value() == Applied(old(regs.Value()), flag, letter, condition)
  {
    if letter == [Letter(flag)] {
      regs.SetFlagIf(flag, condition);
    } else if letter == "0" {
      regs.ClearFlag(flag);
    } else if letter == "1" {
      regs.SetFlag(flag);
    }
  }

  /** The N switch of applyFlags, whose "N" case runs into the "0" case. */
  method ApplySubtractSwitch(regs: Registers, letter: string, condition: bool)
    requires regs.Valid()
    modifies regs
    ensures regs.Valid()
    ensures regs.Value() == AppliedSubtract(old(regs.Value()), letter, condition)
  {
    if letter == "N" {
      regs.SetFlagIf(Subtract, condition);
      regs.ClearFlag(Subtract);
    } else {
      ApplySwitch(regs, Subtract, letter, condition);
    }
  }

  /**
   * calculateFlags: thrown where Java throws (nothing has changed then);
   * otherwise the conditions, with POP's calculator having written F.
   */
  method CalculateFlags(regs: Registers, mnemonic: string, x: int, y: int, operands: seq<Operand>)
      returns (conditions: Conditions, thrown: bool)
    requires regs.Valid()
    modifies regs
    ensures regs.Valid()
    ensures var outcome := Calculate(old(regs.Value()), mnemonic, x, y, operands);
      thrown == !outcome.Calculated? &&
      (thrown ==> regs.Value() == old(regs.Value())) &&
      (!thrown ==> conditions == outcome.conditions && regs.Value() == outcome.regs)
  {
    var outcome := Calculate(regs.Value(), mnemonic, x, y, operands);
    if !outcome.Calculated? {
      return NoConditions, true;
    }
    if Calculators[mnemonic] == PopCalc {
      var popped := And(x, 0xF0);
      regs.SetFlagIf(Zero, And(popped, 0x80) > 0);
      regs.SetFlagIf(Subtract, And(popped, 0x40) > 0);
      regs.SetFlagIf(HalfCarry, And(popped, 0x20) > 0);
      regs.SetFlagIf(Carry, And(popped, 0x10) > 0);
    }
    return outcome.conditions, false;
  }

  /** processFlags: calculate, then apply the descriptor's flag specification. */
  method ProcessFlags(regs: Registers, info: OpcodeInfo, x: int, y: int) returns (thrown: bool)
    requires regs.Valid()
    modifies regs
    ensures regs.Valid()
    ensures thrown == FlagsProcessed(old(regs.Value()), info, x, y).None?
    ensures !thrown ==> regs.Value() == FlagsProcessed(old(regs.Value()), info, x, y).value
    ensures thrown ==> regs.Value() == old(regs.Value())
  {
    var conditions;
    conditions, thrown := CalculateFlags(regs, info.mnemonic, x, y, info.operands);
    if !thrown {
      ApplyFlags(regs, info.flags, conditions);
    }
  }
}
