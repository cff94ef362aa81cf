/**
 * The opcode descriptors loaded from the instruction table: operands, the
 * per-flag "Z/N/H/C/0/1/-" specification, the descriptor itself, and the
 * operand data types the micro-op builder assigns.
 *
 * Both generations of the CPU read the same descriptor fields; the older
 * operand record is the newer one without the increment/decrement marks, so
 * one datatype serves both.  Descriptors are never changed after loading,
 * so they are values here.
 */
module Descriptors {
  import opened Bits
  import opened Registers

  /** One operand of an instruction: "A", "HL", "n8", "a16", "NZ", "3", ... */
  datatype Operand = Operand(name: string, bytes: int, immediate: bool,
                             increment: bool, decrement: bool)

  /**
   * What an instruction does to each flag: the flag's own letter (computed),
   * "0" (cleared), "1" (set) or "-" (unchanged).
   */
  datatype FlagSpec = FlagSpec(z: string, n: string, h: string, c: string)

  /** One entry of the unprefixed or CB-prefixed instruction table. */
  datatype OpcodeInfo = OpcodeInfo(
    opcode: int,
    mnemonic: string,
    bytes: int,
    cycles: seq<int>,
    operands: seq<Operand>,
    immediate: bool,
    flags: FlagSpec,
    prefixed: bool,
    cbprefixed: bool)

  /** How the builder classifies an operand. */
  datatype DataType = R8 | R16 | N16 | A8 | E8 | MEMORY

  /** The letter naming each flag in a flag specification. */
  function Letter(flag: Flag): char {
    match flag
    case Zero => 'Z'
    case Subtract => 'N'
    case HalfCarry => 'H'
    case Carry => 'C'
  }

  /** CheckFlagsByChar: the flag a letter names, tested on F; false for any other character. */
  function CheckFlagsByChar(r: Regs, ch: char): (b: bool)
    ensures b ==> ch in "ZNHC"
  {
    match ch
    case 'Z' => FlagSet(r, Zero)
    case 'N' => FlagSet(r, Subtract)
    case 'H' => FlagSet(r, HalfCarry)
    case 'C' => FlagSet(r, Carry)
    case _ => false
  }

  /**
   * CheckFlagsByChar(ch) holds exactly when ch is the letter of a flag whose
   * bit is set in F.
   */
  lemma {:induction false} CheckFlagsByCharReadsBit(r: Regs, ch: char)
    ensures CheckFlagsByChar(r, ch) <==>
            exists flag: Flag :: Letter(flag) == ch && Bit(r.f, Position(flag))
  {
    FlagSetIsBit(r.f, Zero);
    FlagSetIsBit(r.f, Subtract);
    FlagSetIsBit(r.f, HalfCarry);
    FlagSetIsBit(r.f, Carry);
    if CheckFlagsByChar(r, ch) {
      var flag :=
        if ch == 'Z' then Zero else if ch == 'N' then Subtract
        else if ch == 'H' then HalfCarry else Carry;
      assert Letter(flag) == ch && Bit(r.f, Position(flag));
    }
  }
}
