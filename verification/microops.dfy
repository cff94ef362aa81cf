/**
 * The micro-operations of the newer CPU generation, as values.
 *
 * The builder queues one object per micro-operation; each holds a kind (an
 * enum in the source), the suppliers it reads from and the consumer it
 * hands its result to.  All suppliers and consumers the builder creates are
 * the opcode's three value fields or small lambdas over them, so they are
 * written here as a Slot (which field) or a Supplier (which lambda).  The
 * per-kind arithmetic lives in this module as functions; what executing an
 * operation does to the machine is in module Pipeline.
 */
module MicroOps {
  import opened Bits
  import opened Wrappers
  import opened Registers
  import opened Descriptors

  /** The opcode's value fields the builder's method references name. */
  datatype Slot = Destination | Source | Extra

  /**
   * What a supplier hands over: a value field, or one of the builder's
   * lambdas for LD (a16),SP: `v & 0xFF`, `(v >>> 8) & 0xFF`, `(v + 1) & 0xFFFF`.
   */
  datatype Supplier =
    | Field(slot: Slot)
    | LowByteOf(slot: Slot)
    | HighByteOf(slot: Slot)
    | NextAddress(slot: Slot)

  datatype AluKind = Adc | Add | Cp | Dec | Inc | Sbc | Sub | PostDec | PostInc
  datatype ShiftKind = Rl | Rla | Rlc | Rlca | Rr | Rra | Rrc | Rrca | Sla | Sra | Srl | Swap
  datatype LogicKind = LogicAnd | LogicCpl | LogicOr | LogicXor
  datatype BitFlagKind = ResBit | SetBit
  datatype StackKind = PushHigh | PushLow | Pop
  datatype Condition = CondZ | CondNZ | CondC | CondNC
  datatype InterruptKind = Di | Ei | EiQuick | Halt

  /**
   * One queued micro-operation.  An Option<Supplier> is a supplier the
   * source tests against null before reading; `wide` is the ALU's
   * is16BitOperation, fixed when the operation is built.
   */
  datatype MicroOp =
    | Alu(alu: AluKind, wide: bool, x: Option<Supplier>, y: Option<Supplier>)
    | ApplyResult(result: Supplier, resultType: DataType, target: string)
    | Shift(shift: ShiftKind, shiftTarget: Option<Supplier>)
    | Bitwise(logic: LogicKind, logicSource: Option<Supplier>)
    | BitFlag(bitOp: BitFlagKind, bitIndex: Option<Supplier>, bitTarget: Option<Supplier>)
    | StackOp(stack: StackKind, value: Supplier)
    | Load
    | CheckCC(condition: Condition)
    | CalculateCycles
    | MergeOperands(low: Supplier, high: Supplier, mergeInto: Slot)
    | FlipBytes(lowByte: Supplier, highByte: Supplier, flipInto: Slot)
    | FlipOperands
    | ReadImmediate8(immediateInto: Slot, highRam: bool)
    | WriteMemory8(address: Supplier, data: Supplier)
    | Interrupt(interrupt: InterruptKind)
    | ReadRegister8(register8Into: Slot, register8: string)
    | ReadRegister16(register16Into: Slot, register16: string)
    | ReadMemory8(memory8Into: Slot, memory8Address: Supplier)
    | ReadMemory8At(memoryAtInto: Slot, addressRegister: string)
    | ReadMemory16(memory16Into: Slot, memory16Address: Supplier)
    | EmptyCycle
    | HandleFlags(info: OpcodeInfo, flagX: Supplier, flagY: Supplier)

  /**
   * getCycles of each operation class: the machine cycles it stands for.
   * Only memory accesses and padding cost anything.
   */
  function Cycles(op: MicroOp): (n: nat)
    ensures n <= 2
    ensures n == 2 <==> op.WriteMemory8?
    ensures n == 1 <==> op.StackOp? || op.ReadImmediate8? || op.ReadMemory8? ||
                        op.ReadMemory8At? || op.EmptyCycle? ||
                        (op.Interrupt? && op.interrupt != EiQuick)
  {
    match op
    case StackOp(_, _) => 1
    case ReadImmediate8(_, _) => 1
    case WriteMemory8(_, _) => 2
    case Interrupt(kind) => if kind != EiQuick then 1 else 0
    case ReadMemory8(_, _) => 1
    case ReadMemory8At(_, _) => 1
    case EmptyCycle => 1
    case _ => 0
  }

  // ------------------------------------------------------------------ ALU

  /** The mask of a result: 16 bits for an R16/N16 destination, 8 otherwise. */
  function Width(wide: bool): int {
    if wide then 0x10000 else 0x100
  }

  /** ADD SP,e8 and JR add a signed displacement instead of a masked operand. */
  predicate OffsetAdd(info: OpcodeInfo) {
    (|info.operands| > 1 && info.operands[1].name == "e8") || info.mnemonic == "JR"
  }

  function AdcValue(x: int, y: int, carry: int): int { (x + y + carry) % 256 }

  /** add: `x + ((y << 24) >> 24)`, unmasked, for a displacement; masked otherwise. */
  function AddValue(info: OpcodeInfo, wide: bool, x: int, y: int): int {
    if OffsetAdd(info) then x + SignExtend8(y) else (x + y) % Width(wide)
  }

  function IncValue(wide: bool, x: int): int { (x + 1) % Width(wide) }
  function DecValue(wide: bool, x: int): int { (x - 1) % Width(wide) }
  function SbcValue(x: int, y: int, carry: int): int { (x - y - carry) % 256 }
  function SubValue(x: int, y: int): int { (x - y) % 256 }

  /**
   * The result AluOperation.execute computes before applyResult; None for
   * CP and the HL post-increment/decrement, which return before computing one.
   */
  function AluResult(kind: AluKind, info: OpcodeInfo, wide: bool, x: int, y: int, carry: int): (r: Option<int>)
    ensures r.None? <==> kind in {Cp, PostDec, PostInc}
  {
    match kind
    case Adc => Some(AdcValue(x, y, carry))
    case Add => Some(AddValue(info, wide, x, y))
    case Dec => Some(DecValue(wide, x))
    case Inc => Some(IncValue(wide, x))
    case Sbc => Some(SbcValue(x, y, carry))
    case Sub => Some(SubValue(x, y))
    case _ => None
  }

  /** Subtracting what was added, modulo m, gives the original value modulo m. */
  lemma ModCancel(x: int, k: int, m: int)
    requires m > 0
    ensures ((x + k) % m - k) % m == x % m
  {
    var t := (x + k) % m;
    var q := (x + k) / m;
    assert x + k == q * m + t;
    var u := (t - k) % m;
    var w := (t - k) / m;
    assert t - k == w * m + u && 0 <= u < m;
    assert x == (q + w) * m + u;
    DivUnique(x, m, q + w, u);
  }

  /**
   * Every masked ALU result is a value of its width, and the ALU's
   * operations undo each other: SBC undoes ADC with the same carry, SUB
   * undoes an 8-bit ADD, DEC undoes INC and INC undoes DEC.
   */
  lemma {:induction false} AluInverses(info: OpcodeInfo, wide: bool, x: int, y: int, carry: int)
    requires !OffsetAdd(info)
    ensures 0 <= AdcValue(x, y, carry) < 256 && 0 <= SbcValue(x, y, carry) < 256
    ensures 0 <= AddValue(info, wide, x, y) < Width(wide)
    ensures SbcValue(AdcValue(x, y, carry), y, carry) == x % 256
    ensures SubValue(AddValue(info, false, x, y), y) == x % 256
    ensures DecValue(wide, IncValue(wide, x)) == x % Width(wide)
    ensures IncValue(wide, DecValue(wide, x)) == x % Width(wide)
  {
    ModCancel(x, y + carry, 256);
    assert AdcValue(x, y, carry) - y - carry == AdcValue(x, y, carry) - (y + carry);
    ModCancel(x, y, 256);
    ModCancel(x, 1, Width(wide));
    ModCancel(x, -1, Width(wide));
  }

  /**
   * ADD SP,e8 and JR move x by a two's-complement byte: the displacement
   * lies in -128..127 and agrees with y modulo 256.
   */
  lemma {:induction false} OffsetAddDisplaces(info: OpcodeInfo, wide: bool, x: int, y: int)
    requires OffsetAdd(info)
    ensures var d := AddValue(info, wide, x, y) - x;
      -128 <= d < 128 && d % 256 == y % 256 &&
      (0 <= y < 256 ==> d == if y < 128 then y else y - 256)
  {
  }

  // ------------------------------------------------------ shifts, rotates

  /** The shift/rotate result for a target value v and the carry flag as 0 or 1. */
  function ShiftValue(kind: ShiftKind, v: int, carry: int): int {
    match kind
    case Rl => Or(v * 2, carry) % 256
    case Rla => Or(v * 2, carry) % 256
    case Rlc => Or(v * 2, v / 128) % 256
    case Rlca => Or(v * 2, v / 128) % 256
    case Rr => Or(Ushr32(v, 1), carry * 128) % 256
    case Rra => Or(Ushr32(v, 1), carry * 128) % 256
    case Rrc => Or(Ushr32(v, 1), And(v, 1) * 128) % 256
    case Rrca => Or(Ushr32(v, 1), And(v, 1) * 128) % 256
    case Sla => (v * 2) % 256
    case Sra => Or(v / 2, And(v, 0x80)) % 256
    case Srl => (v / 2) % 256
    case Swap => Or(Ushr32(And(v, 0xF0), 4), And(v, 0xF) * 16) % 256
  }

  /** A byte shifted right logically by k is its quotient by 2^k. */
  lemma UshrByte(v: int, k: nat)
    requires 0 <= v < 256
    ensures Ushr32(v, k) == v / Pow2(k)
  {
    assert v % 0x1_0000_0000 == v;
  }

  /** A value below 256 is its own remainder. */
  lemma ByteMod(x: int)
    requires 0 <= x < 256
    ensures x % 256 == x
  {
    DivUnique(x, 256, 0, x);
  }

  /** Or with a bit placed above a value below 2^k is an addition. */
  lemma OrAbove(lo: int, b: int, k: nat)
    requires 0 <= lo < Pow2(k)
    ensures Or(lo, b * Pow2(k)) == b * Pow2(k) + lo
  {
    OrComm(lo, b * Pow2(k));
    OrDisjoint(b, lo, k);
  }

  /** Doubling a byte: bit 7 moves out, the rest moves up. */
  lemma DoubleByte(v: int)
    requires 0 <= v < 256
    ensures (v * 2) % 256 == (v % 128) * 2 && (v * 2) / 256 == v / 128
  {
    assert v * 2 == (v / 128) * 256 + (v % 128) * 2;
    DivUnique(v * 2, 256, v / 128, (v % 128) * 2);
  }

  /** RL and RLA shift left and bring the carry into bit 0. */
  lemma {:induction false} RlForm(v: int, carry: int)
    requires 0 <= v < 256 && (carry == 0 || carry == 1)
    ensures ShiftValue(Rl, v, carry) == ShiftValue(Rla, v, carry) == (v % 128) * 2 + carry
  {
    OrDisjoint(v, carry, 1);
    DoubleByte(v);
    DivUnique(v * 2 + carry, 256, v / 128, (v % 128) * 2 + carry);
  }

  /** RLC and RLCA rotate left: bit 7 comes back in as bit 0; SLA lets it go. */
  lemma {:induction false} RlcForm(v: int, carry: int)
    requires 0 <= v < 256
    ensures ShiftValue(Rlc, v, carry) == ShiftValue(Rlca, v, carry) == (v % 128) * 2 + v / 128
    ensures ShiftValue(Sla, v, carry) == (v % 128) * 2
  {
    var q := v / 128;
    assert 0 <= q < 2;
    OrDisjoint(v, q, 1);
    DoubleByte(v);
    DivUnique(v * 2 + q, 256, q, (v % 128) * 2 + q);
  }

  /** RR and RRA shift right and bring the carry into bit 7. */
  lemma {:induction false} RrForm(v: int, carry: int)
    requires 0 <= v < 256 && (carry == 0 || carry == 1)
    ensures ShiftValue(Rr, v, carry) == ShiftValue(Rra, v, carry) == v / 2 + carry * 128
  {
    Pow2Table();
    assert Pow2(7) == 128;
    UshrByte(v, 1);
    OrAbove(v / 2, carry, 7);
    ByteMod(v / 2 + carry * 128);
  }

  /** RRC and RRCA rotate right: bit 0 comes back in as bit 7. */
  lemma {:induction false} RrcForm(v: int, carry: int)
    requires 0 <= v < 256
    ensures ShiftValue(Rrc, v, carry) == ShiftValue(Rrca, v, carry) == v / 2 + (v % 2) * 128
  {
    Pow2Table();
    assert Pow2(7) == 128;
    UshrByte(v, 1);
    AndLowMask(v, 1);
    OrAbove(v / 2, v % 2, 7);
    ByteMod(v / 2 + (v % 2) * 128);
  }

  /** SRA keeps bit 7 (an arithmetic shift). */
  lemma {:induction false} SraForm(v: int, carry: int)
    requires 0 <= v < 256
    ensures ShiftValue(Sra, v, carry) == v / 2 + (v / 128) * 128
  {
    var h, top := v / 2, v / 128;
    assert 0 <= h < 128 && 0 <= top < 2;
    Pow2Table();
    assert Pow2(7) == 128;
    assert Pow2(8) - Pow2(7) == 0x80;
    AndHighMask(v, 7, 8);
    assert And(v, 0x80) == top * 128;
    OrAbove(h, top, 7);
    assert Or(h, top * 128) == top * 128 + h;
    ByteMod(top * 128 + h);
    assert ShiftValue(Sra, v, carry) == Or(h, top * 128) % 256;
  }

  /** SRL clears bit 7 (a logical shift). */
  lemma {:induction false} SrlForm(v: int, carry: int)
    requires 0 <= v < 256
    ensures ShiftValue(Srl, v, carry) == v / 2 < 128
  {
    ByteMod(v / 2);
  }

  /** SWAP exchanges the two nibbles of a byte. */
  lemma {:induction false} SwapForm(v: int, carry: int)
    requires 0 <= v < 256
    ensures ShiftValue(Swap, v, carry) == (v % 16) * 16 + v / 16
  {
    var n, lo := v / 16, v % 16;
    assert 0 <= n < 16 && 0 <= lo < 16;
    SwapHighNibble(v);
    SwapLowNibble(v);
    OrAbove(n, lo, 4);
    Pow2Table();
    assert Or(n, lo * 16) == lo * 16 + n;
    assert lo * 16 <= 240;
    ByteMod(lo * 16 + n);
    assert ShiftValue(Swap, v, carry) == Or(n, lo * 16) % 256;
  }

  /** `(v & 0xF0) >>> 4` is the high nibble of a byte. */
  lemma SwapHighNibble(v: int)
    requires 0 <= v < 256
    ensures Ushr32(And(v, 0xF0), 4) == v / 16
  {
    var n := v / 16;
    Pow2Table();
    assert Pow2(8) - Pow2(4) == 0xF0;
    AndHighMask(v, 4, 8);
    assert And(v, 0xF0) == n * 16;
    assert 0 <= n * 16 < 256;
    UshrByte(n * 16, 4);
    DivUnique(n * 16, 16, n, 0);
  }

  /** `v & 0xF` is the low nibble. */
  lemma SwapLowNibble(v: int)
    ensures And(v, 0xF) == v % 16
  {
    Pow2Table();
    AndLowMask(v, 4);
  }

  /** Every shift result of a byte is a byte. */
  lemma {:induction false} ShiftsStayBytes(v: int, carry: int)
    requires 0 <= v < 256 && (carry == 0 || carry == 1)
    ensures forall kind :: 0 <= ShiftValue(kind, v, carry) < 256
  {
    forall kind
      ensures 0 <= ShiftValue(kind, v, carry) < 256
    {
      match kind
      case Rl => RlForm(v, carry);
      case Rla => RlForm(v, carry);
      case Rlc => RlcForm(v, carry);
      case Rlca => RlcForm(v, carry);
      case Sla => RlcForm(v, carry);
      case Rr => RrForm(v, carry);
      case Rra => RrForm(v, carry);
      case Rrc => RrcForm(v, carry);
      case Rrca => RrcForm(v, carry);
      case Sra => SraForm(v, carry);
      case Srl => SrlForm(v, carry);
      case Swap => SwapForm(v, carry);
    }
  }

  /** RR, given the bit RL shifted out, undoes RL, and RL undoes RR likewise. */
  lemma {:induction false} RotateThroughCarryInverts(v: int, carry: int)
    requires 0 <= v < 256 && (carry == 0 || carry == 1)
    ensures ShiftValue(Rr, ShiftValue(Rl, v, carry), v / 128) == v
    ensures ShiftValue(Rl, ShiftValue(Rr, v, carry), v % 2) == v
  {
    var q := v / 128;
    RlForm(v, carry);
    HalfOfTwice(v % 128, carry);
    RrForm((v % 128) * 2 + carry, q);
    RrForm(v, carry);
    var right := v / 2 + carry * 128;
    DivUnique(right, 128, carry, v / 2);
    RlForm(right, v % 2);
  }

  /** RRC undoes RLC, and SWAP undoes itself. */
  lemma {:induction false} RotationsInvert(v: int, carry: int)
    requires 0 <= v < 256
    ensures ShiftValue(Rrc, ShiftValue(Rlc, v, carry), carry) == v
    ensures ShiftValue(Swap, ShiftValue(Swap, v, carry), carry) == v
  {
    var q := v / 128;
    RlcForm(v, carry);
    HalfOfTwice(v % 128, q);
    RrcForm((v % 128) * 2 + q, carry);
    SwapForm(v, carry);
    var s := (v % 16) * 16 + v / 16;
    DivUnique(s, 16, v % 16, v / 16);
    SwapForm(s, carry);
  }

  // ------------------------------------------------------------- bitwise

  /** The result BitwiseOperation writes to A, for A = a and source y. */
  function LogicValue(kind: LogicKind, a: int, y: int): int {
    match kind
    case LogicAnd => And(a, y) % 256
    case LogicCpl => Not(a) % 256
    case LogicOr => Or(a, y) % 256
    case LogicXor => Xor(a, y) % 256
  }

  /**
   * Bit by bit, the result below bit 8 is the logical operation of the
   * operands' bits; it is a byte, and CPL of a byte is 255 minus it.
   */
  lemma {:induction false} LogicBits(kind: LogicKind, a: int, y: int, j: nat)
    requires j < 8
    ensures 0 <= LogicValue(kind, a, y) < 256
    ensures Bit(LogicValue(kind, a, y), j) ==
      match kind
      case LogicAnd => Bit(a, j) && Bit(y, j)
      case LogicCpl => !Bit(a, j)
      case LogicOr => Bit(a, j) || Bit(y, j)
      case LogicXor => Bit(a, j) != Bit(y, j)
    ensures kind == LogicCpl && 0 <= a < 256 ==> LogicValue(kind, a, y) == 255 - a
  {
    Pow2Table();
    match kind
    case LogicAnd => BitOfMod(And(a, y), 8, j); BitAnd(a, y, j);
    case LogicCpl =>
      BitOfMod(Not(a), 8, j); BitNot(a, j);
      if 0 <= a < 256 {
        DivUnique(Not(a), 256, -1, 255 - a);
      }
    case LogicOr => BitOfMod(Or(a, y), 8, j); BitOr(a, y, j);
    case LogicXor => BitOfMod(Xor(a, y), 8, j); BitXor(a, y, j);
  }

  // ------------------------------------------------------------- RES/SET

  /** The result BitFlagOperation computes: bit b of t cleared (RES) or set (SET). */
  function BitFlagValue(kind: BitFlagKind, b: int, t: int): int {
    match kind
    case ResBit => And(t, Not(ShiftOne(b)))
    case SetBit => Or(t, ShiftOne(b))
  }

  /** For a bit index 0..30, RES clears exactly bit b and SET sets exactly bit b. */
  lemma {:induction false} BitFlagBits(kind: BitFlagKind, b: int, t: int, j: nat)
    requires 0 <= b < 31
    ensures Bit(BitFlagValue(kind, b, t), j) == if j == b then kind == SetBit else Bit(t, j)
  {
    assert ShiftOne(b) == Pow2(b);
    BitPow2(b, j);
    match kind
    case ResBit => BitAnd(t, Not(Pow2(b)), j); BitNot(Pow2(b), j);
    case SetBit => BitOr(t, Pow2(b), j);
  }

  // -------------------------------------------------------- byte merging

  /** MergeOperands: `((hi & 0xFF) << 8 | (lo & 0xFF)) & 0xFFFF`. */
  function Merged(lo: int, hi: int): int {
    Or((hi % 256) * 256, lo % 256) % 0x10000
  }

  /** FlipBytes: `(high << 8) | (low & 0xFF)`, high unmasked. */
  function Flipped(low: int, high: int): int {
    Or(high * 256, low % 256)
  }

  /**
   * The first byte read is the low byte: the merge is the little-endian
   * word of the two bytes, always 16 bits; splitting a word into its
   * bytes and merging them gives the word back; and FlipBytes computes
   * the same word whenever its high input is a byte.
   */
  lemma {:induction false} MergeLittleEndian(lo: int, hi: int)
    ensures Merged(lo, hi) == (hi % 256) * 256 + lo % 256
    ensures 0 <= Merged(lo, hi) < 0x10000
    ensures Flipped(lo, hi) == hi * 256 + lo % 256
    ensures 0 <= hi < 256 ==> Flipped(lo, hi) == Merged(lo, hi)
  {
    Pow2Table();
    var w := (hi % 256) * 256 + lo % 256;
    assert Or((hi % 256) * 256, lo % 256) == w by {
      OrDisjoint(hi % 256, lo % 256, 8);
    }
    assert Flipped(lo, hi) == hi * 256 + lo % 256 by {
      OrDisjoint(hi, lo % 256, 8);
    }
    assert 0 <= w < 0x10000;
    assert w % 0x10000 == w by {
      DivUnique(w, 0x10000, 0, w);
    }
  }

  /** Merging the low and high byte of a 16-bit value gives the value back. */
  lemma {:induction false} MergeRoundTrip(n: int)
    requires 0 <= n < 0x10000
    ensures Merged(n % 256, n / 256) == n
  {
    MergeLittleEndian(n % 256, n / 256);
    DivUnique(n / 256, 256, 0, n / 256);
  }

  // ------------------------------------------------- conditions, cycles

  /** CheckCC: the remaining operations are killed when the condition fails. */
  function Kills(condition: Condition, r: Regs): bool {
    match condition
    case CondZ => !FlagSet(r, Zero)
    case CondNZ => FlagSet(r, Zero)
    case CondC => !FlagSet(r, Carry)
    case CondNC => FlagSet(r, Carry)
  }

  /**
   * Z and NZ test bit 7 of F, C and NC bit 4; each condition kills exactly
   * when its opposite would not.
   */
  lemma {:induction false} KillsUnlessConditionHolds(condition: Condition, r: Regs)
    ensures condition in {CondZ, CondNZ} ==>
            (Kills(condition, r) <==> Bit(r.f, 7) != (condition == CondZ))
    ensures condition in {CondC, CondNC} ==>
            (Kills(condition, r) <==> Bit(r.f, 4) != (condition == CondC))
    ensures Kills(CondZ, r) != Kills(CondNZ, r) && Kills(CondC, r) != Kills(CondNC, r)
  {
    FlagSetIsBit(r.f, Zero);
    FlagSetIsBit(r.f, Carry);
  }

  /**
   * CalculateCycles: the only entry of a one-entry array, otherwise entry
   * 0 when taken and 1 when not; None where the index is out of bounds.
   */
  function CycleChoice(cycles: seq<int>, taken: bool): (r: Option<int>)
    ensures |cycles| == 1 ==> r == Some(cycles[0])
    ensures |cycles| >= 2 ==> r == Some(if taken then cycles[0] else cycles[1])
    ensures |cycles| == 0 <==> r.None?
  {
    if |cycles| == 1 then Some(cycles[0])
    else
      var index := if taken then 0 else 1;
      if index < |cycles| then Some(cycles[index]) else None
  }
}
