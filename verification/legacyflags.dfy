/**
 * The first generation's flag calculator: seven calculators, ADD, ADC, DEC,
 * INC, AND, BIT and CP, each turning the two operand values into the four
 * flag conditions.  No calculator writes the registers; ADC reads the carry
 * flag.
 *
 * The conditions record is the same four booleans the micro-op generation
 * uses, so FlagCalculator.Conditions serves both generations.
 */
module LegacyFlags {
  import opened Bits
  import opened Registers
  import opened Descriptors
  import FlagCalculator

  type Conditions = FlagCalculator.Conditions

  /** FlagConditions: every field starts false. */
  const NoConditions: Conditions := FlagCalculator.NoConditions

  /** The calculators the constructor registers. */
  datatype Calculator = AddCalc | AdcCalc | DecCalc | IncCalc | AndCalc | BitCalc | CpCalc

  /** The calculator table: arithmetic, bit operations and comparison; the miscellaneous group is empty. */
  const Calculators: map<string, Calculator> := map[
    "ADD" := AddCalc, "ADC" := AdcCalc, "DEC" := DecCalc, "INC" := IncCalc,
    "AND" := AndCalc, "BIT" := BitCalc, "CP" := CpCalc
  ]

  /** The outcome of calculateFlags, or one of the two exceptions it can throw. */
  datatype Calculation =
    | Calculated(conditions: Conditions)
    | UnknownMnemonic     // IllegalArgumentException: no calculator registered
    | MissingOperand      // ArrayIndexOutOfBoundsException on operands[i]

  /**
   * The handler's is8BitRegister, which the INC and DEC calculators consult:
   * a one-letter name, or "n8".
   */
  predicate IsByteRegister(name: string) {
    |name| == 1 || name == "n8"
  }

  /** INC and DEC compute flags only for these operands. */
  predicate FlagsOperand(name: string) {
    IsByteRegister(name) || name == "HL"
  }

  /** `(x & 0xF0) < (y & 0xF0) || (x & 0xF) < (y & 0xF)`, the H test of DEC and CP. */
  predicate NibbleLess(x: int, y: int) {
    And(x, 0xF0) < And(y, 0xF0) || x % 16 < y % 16
  }

  /** The ADD calculator, by the name of the second operand. */
  function AddConditions(source: string, x: int, y: int): Conditions {
    if source == "e8" then
      var lowerByte := x % 256;
      var e8 := y % 256;
      NoConditions.(halfCarry := And(x % 0x1000 + y % 0x1000, 0x1000) != 0,
                    carry := lowerByte + e8 > 0xFF)
    else if source in FlagCalculator.WideNames then
      NoConditions.(halfCarry := And(x % 0x1000 + y % 0x1000, 0x1000) != 0,
                    carry := x % 0x10000 + y % 0x10000 > 0xFFFF)
    else
      NoConditions.(zero := (x + y) % 256 == 0,
                    halfCarry := x % 16 + y % 16 > 0xF,
                    carry := x + y > 0xFF)
  }

  function AdcConditions(r: Regs, x: int, y: int): Conditions {
    var carry := if FlagSet(r, Carry) then 1 else 0;
    NoConditions.(zero := (x + y + carry) % 256 == 0,
                  halfCarry := x % 16 + y % 16 + carry > 0xF,
                  carry := x + y + carry > 0xFF)
  }

  function DecConditions(name: string, x: int, y: int): Conditions {
    if FlagsOperand(name) then
      NoConditions.(zero := (x - y) % 256 == 0, halfCarry := NibbleLess(x, y))
    else
      NoConditions
  }

  function IncConditions(name: string, x: int, y: int): Conditions {
    if FlagsOperand(name) then
      NoConditions.(zero := (x + y) % 256 == 0, halfCarry := x % 16 + y % 16 > 0xF)
    else
      NoConditions
  }

  function CpConditions(x: int, y: int): Conditions {
    NoConditions.(zero := (x - y) % 256 == 0, halfCarry := NibbleLess(x, y), carry := y > x)
  }

  /**
   * calculateFlags: look up the mnemonic's calculator and run it; a mnemonic
   * with no calculator is the IllegalArgumentException.
   */
  function Calculate(r: Regs, mnemonic: string, x: int, y: int, operands: seq<Operand>): (outcome: Calculation)
    ensures outcome.UnknownMnemonic? <==> mnemonic !in Calculators
  {
    if mnemonic !in Calculators then UnknownMnemonic
    else match Calculators[mnemonic]
      case AddCalc =>
        if |operands| < 2 then MissingOperand else Calculated(AddConditions(operands[1].name, x, y))
      case AdcCalc => Calculated(AdcConditions(r, x, y))
      case DecCalc =>
        if |operands| == 0 then MissingOperand else Calculated(DecConditions(operands[0].name, x, y))
      case IncCalc =>
        if |operands| == 0 then MissingOperand else Calculated(IncConditions(operands[0].name, x, y))
      case AndCalc => Calculated(NoConditions.(zero := And(x, y) % 256 == 0))
      case BitCalc => Calculated(NoConditions.(zero := And(y, ShiftOne(x)) == 0))
      case CpCalc => Calculated(CpConditions(x, y))
  }

  // ------------------------------------------------ what the flags mean

  /** The entries the lemmas below look up. */
  lemma Entries()
    ensures Calculators["ADD"] == AddCalc && Calculators["ADC"] == AdcCalc
    ensures Calculators["DEC"] == DecCalc && Calculators["INC"] == IncCalc
    ensures Calculators["AND"] == AndCalc && Calculators["BIT"] == BitCalc
    ensures Calculators["CP"] == CpCalc
  {
  }

  /** `x & 0xF0` is the high nibble of x's low byte, kept in place. */
  lemma {:induction false} HighNibbleValue(x: int)
    ensures And(x, 0xF0) == ((x / 16) % 16) * 16
  {
    Pow2Table();
    assert 0xF0 == 15 * Pow2(4);
    AndShifted(x, 15, 4);
    assert 15 == Pow2(4) - 1;
    AndLowMask(x / 16, 4);
  }

  /**
   * ADD of two bytes: Z iff the sum wraps to zero, H iff the low nibbles
   * carry, C iff the sum does not fit in a byte; N is never computed.  The
   * micro-op generation's ADD calculator agrees on this case.
   */
  lemma {:induction false} ByteAddFlags(r: Regs, x: int, y: int, operands: seq<Operand>)
    requires |operands| >= 2 && operands[1].name != "e8" && operands[1].name !in FlagCalculator.WideNames
    requires 0 <= x < 256 && 0 <= y < 256
    ensures var outcome := Calculate(r, "ADD", x, y, operands);
      outcome.Calculated? &&
      (outcome.conditions.zero <==> (x + y) % 256 == 0) &&
      (outcome.conditions.halfCarry <==> (x % 16 + y % 16) / 16 == 1) &&
      (outcome.conditions.carry <==> (x + y) % 256 != x + y) &&
      !outcome.conditions.subtract &&
      FlagCalculator.Calculate(r, "ADD", x, y, operands) == FlagCalculator.Calculated(outcome.conditions, r)
  {
    Entries();
    FlagCalculator.Entries();
  }

  /**
   * ADD with a 16-bit second operand: H is the carry out of bit 11, C the
   * carry out of bit 15, and Z is never computed.
   */
  lemma {:induction false} WideAddFlags(r: Regs, x: int, y: int, operands: seq<Operand>)
    requires |operands| >= 2 && operands[1].name in FlagCalculator.WideNames
    ensures var outcome := Calculate(r, "ADD", x, y, operands);
      outcome.Calculated? &&
      (outcome.conditions.halfCarry <==> x % 0x1000 + y % 0x1000 >= 0x1000) &&
      (outcome.conditions.carry <==> x % 0x10000 + y % 0x10000 >= 0x10000) &&
      !outcome.conditions.zero && !outcome.conditions.subtract
  {
    Entries();
    FlagCalculator.Bit12IsCarry(x, y);
  }

  /**
   * ADD SP, e8: C is the carry out of the low byte, but H is the 12-bit
   * test of the 16-bit case, so a carry out of the low nibble alone does not
   * set it; the micro-op generation takes H from the low nibble instead.
   */
  lemma {:induction false} OffsetAddFlags(r: Regs, x: int, y: int, operands: seq<Operand>)
    requires |operands| >= 2 && operands[1].name == "e8"
    ensures var outcome := Calculate(r, "ADD", x, y, operands);
      outcome.Calculated? &&
      (outcome.conditions.halfCarry <==> x % 0x1000 + y % 0x1000 >= 0x1000) &&
      (outcome.conditions.carry <==> x % 256 + y % 256 >= 256) &&
      !outcome.conditions.zero && !outcome.conditions.subtract
    ensures x == 0x0F && y == 0x01 ==>
      !Calculate(r, "ADD", x, y, operands).conditions.halfCarry &&
      FlagCalculator.Calculate(r, "ADD", x, y, operands).conditions.halfCarry
  {
    Entries();
    FlagCalculator.Entries();
    FlagCalculator.Bit12IsCarry(x, y);
  }

  /**
   * ADC adds the carry flag in: with C clear it computes exactly what
   * 8-bit ADD computes, and both generations' ADC calculators agree.
   */
  lemma {:induction false} AdcFoldsCarry(r: Regs, x: int, y: int, operands: seq<Operand>)
    ensures var outcome := Calculate(r, "ADC", x, y, operands);
      outcome.Calculated? &&
      FlagCalculator.Calculate(r, "ADC", x, y, operands) == FlagCalculator.Calculated(outcome.conditions, r) &&
      (!FlagSet(r, Carry) && |operands| >= 2 && operands[1].name != "e8" &&
       operands[1].name !in FlagCalculator.WideNames ==>
         Calculate(r, "ADD", x, y, operands) == outcome)
  {
    Entries();
    var c := AdcConditions(r, x, y);
    assert Calculate(r, "ADC", x, y, operands) == Calculated(c);
    assert FlagCalculator.Calculate(r, "ADC", x, y, operands) == FlagCalculator.Calculated(c, r) by {
      assert FlagCalculator.Calculators["ADC"] == FlagCalculator.AdcCalc;
      assert FlagCalculator.AdcConditions(r, x, y) == c;
    }
    if !FlagSet(r, Carry) && |operands| >= 2 && operands[1].name != "e8" &&
       operands[1].name !in FlagCalculator.WideNames {
      AddIsAdcWithoutCarry(r, x, y, operands);
    }
  }

  /** With C clear, ADD of a byte operand computes the conditions ADC does. */
  lemma AddIsAdcWithoutCarry(r: Regs, x: int, y: int, operands: seq<Operand>)
    requires !FlagSet(r, Carry) && |operands| >= 2 && operands[1].name != "e8"
    requires operands[1].name !in FlagCalculator.WideNames
    ensures Calculate(r, "ADD", x, y, operands) == Calculated(AdcConditions(r, x, y))
  {
    Entries();
    assert AddConditions(operands[1].name, x, y) == AdcConditions(r, x, y);
  }

  /**
   * INC and DEC leave every condition false unless their operand is an
   * 8-bit register or HL; then INC's Z and H are those of adding y, and
   * DEC's those of CP.  N is never computed.
   */
  lemma {:induction false} IncDecOnlyForRegisters(r: Regs, x: int, y: int, operands: seq<Operand>)
    requires |operands| >= 1
    ensures var inc, dec := Calculate(r, "INC", x, y, operands), Calculate(r, "DEC", x, y, operands);
      inc.Calculated? && dec.Calculated? &&
      (!FlagsOperand(operands[0].name) ==> inc.conditions == NoConditions && dec.conditions == NoConditions) &&
      (FlagsOperand(operands[0].name) ==>
         inc.conditions == NoConditions.(zero := (x + y) % 256 == 0, halfCarry := x % 16 + y % 16 >= 16) &&
         dec.conditions == Calculate(r, "CP", x, y, operands).conditions.(carry := false))
  {
    Entries();
  }

  /**
   * CP: Z iff x and y agree modulo 256 and C iff y > x.  H is not the
   * low-nibble borrow: it also holds when only the high nibble of x's low
   * byte is the smaller, as for x = 0x0F, y = 0x10.
   */
  lemma {:induction false} CompareFlags(r: Regs, x: int, y: int, operands: seq<Operand>)
    ensures var outcome := Calculate(r, "CP", x, y, operands);
      outcome.Calculated? &&
      (outcome.conditions.zero <==> x % 256 == y % 256) &&
      (outcome.conditions.halfCarry <==> (x / 16) % 16 < (y / 16) % 16 || x % 16 < y % 16) &&
      (outcome.conditions.carry <==> y > x) &&
      !outcome.conditions.subtract
    ensures x == 0x0F && y == 0x10 ==>
      Calculate(r, "CP", x, y, operands).conditions.halfCarry && !(x % 16 < y % 16)
  {
    Entries();
    HighNibbleValue(x);
    HighNibbleValue(y);
    assert Calculate(r, "CP", x, y, operands) == Calculated(CpConditions(x, y));
    DifferenceWrapsToZero(x, y);
  }

  /** x - y is 0 modulo 256 exactly when x and y agree modulo 256. */
  lemma {:induction false} DifferenceWrapsToZero(x: int, y: int)
    ensures (x - y) % 256 == 0 <==> x % 256 == y % 256
  {
    assert x == 256 * (x / 256) + x % 256;
    assert y == 256 * (y / 256) + y % 256;
    if x % 256 == y % 256 {
      DivUnique(x - y, 256, x / 256 - y / 256, 0);
    } else {
      var d := x % 256 - y % 256;
      if d > 0 {
        DivUnique(x - y, 256, x / 256 - y / 256, d);
      } else {
        DivUnique(x - y, 256, x / 256 - y / 256 - 1, d + 256);
      }
    }
  }

  /** BIT u3, r: Z is set iff bit u3 of the operand is clear; the micro-op generation agrees. */
  lemma {:induction false} BitTestFlags(r: Regs, x: int, y: int, operands: seq<Operand>)
    requires 0 <= x < 31
    ensures var outcome := Calculate(r, "BIT", x, y, operands);
      outcome.Calculated? && (outcome.conditions.zero <==> !Bit(y, x)) &&
      outcome.conditions == NoConditions.(zero := outcome.conditions.zero) &&
      FlagCalculator.Calculate(r, "BIT", x, y, operands) == FlagCalculator.Calculated(outcome.conditions, r)
  {
    Entries();
    FlagCalculator.Entries();
    assert ShiftOne(x) == Pow2(x);
    MaskTestsBit(y, x);
  }
}
