/**
 * The newer CPU generation's Opcode object and what executing one of its
 * queued micro-operations does to the machine.
 *
 * An Opcode holds a FIFO of micro-operations and the scratch values they
 * pass to each other (destination, source and extra value), plus what the
 * builder recorded about the instruction.  Each call of execute pops one
 * operation and runs it against the CPU's registers, the memory and the
 * opcode's own fields.
 *
 * The effect of one operation is specified on a snapshot (a Machine) by
 * the step functions below; the methods of class Opcode carry it out on
 * the objects and are proved to agree with them.  Where the source throws
 * (a register name with no getter or setter, a null field, an index out
 * of bounds) the step reports `thrown`, together with the state reached
 * when the exception left the operation.
 */
module Pipeline {
  import opened Wrappers
  import opened Bits
  import opened Registers
  import opened Memory
  import opened Descriptors
  import opened FlagCalculator
  import opened Cpu
  import opened MicroOps
  import opened Stack

  /**
   * The Opcode object's fields other than the queue.  killRemainingOps and
   * realCycles are the state behind setKillRemainingOps, isTaken and
   * setRealCycles, which the operations call but the class does not
   * declare; isTaken is read as "not killed".
   */
  datatype OpcodeState = OpcodeState(
    info: Option<OpcodeInfo>,
    cc: Option<string>,
    destinationOperandString: Option<string>,
    sourceOperandString: Option<string>,
    destinationOperand: Option<Operand>,
    sourceOperand: Option<Operand>,
    sourceType: Option<DataType>,
    destinationType: Option<DataType>,
    fetchedAt: int,
    sourceValue: int,
    destinationValue: int,
    extraValue: int,
    cyclesConsumed: int,
    operationsRemaining: bool,
    unimplError: bool,
    killRemainingOps: bool,
    realCycles: int)

  /** A new Opcode: every reference null, every number 0, every switch off. */
  const Blank: OpcodeState :=
    OpcodeState(None, None, None, None, None, None, None, None, 0, 0, 0, 0, 0, false, false, false, 0)

  /** Everything one operation can read or change. */
  datatype Machine = Machine(regs: Regs, mem: seq<Byte>, cpu: CpuState, opcode: OpcodeState)

  /** The machine after an operation, and whether the operation threw. */
  datatype Effect = Effect(after: Machine, thrown: bool)

  predicate Sized(m: Machine) {
    |m.mem| == Size
  }

  // ------------------------------------------------- suppliers, consumers

  /** The getter of a value field. */
  function SlotValue(o: OpcodeState, s: Slot): int {
    match s
    case Destination => o.destinationValue
    case Source => o.sourceValue
    case Extra => o.extraValue
  }

  /** The setter of a value field. */
  function WithSlot(o: OpcodeState, s: Slot, v: int): (o': OpcodeState)
    ensures SlotValue(o', s) == v
    ensures forall t: Slot :: t != s ==> SlotValue(o', t) == SlotValue(o, t)
  {
    match s
    case Destination => o.(destinationValue := v)
    case Source => o.(sourceValue := v)
    case Extra => o.(extraValue := v)
  }

  /** What a supplier hands over when it is called. */
  function Supplied(o: OpcodeState, s: Supplier): int {
    match s
    case Field(slot) => SlotValue(o, slot)
    case LowByteOf(slot) => SlotValue(o, slot) % 256
    case HighByteOf(slot) => Ushr32(SlotValue(o, slot), 8) % 256
    case NextAddress(slot) => (SlotValue(o, slot) + 1) % 0x10000
  }

  /** A supplier the source tests against null first: a missing one gives 0. */
  function SuppliedOrZero(o: OpcodeState, s: Option<Supplier>): int {
    if s.Some? then Supplied(o, s.value) else 0
  }

  /** isValidRegister on a field that may be null; null is not a register. */
  predicate NamesRegister(name: Option<string>) {
    name.Some? && IsValidRegister(name.value)
  }

  // -------------------------------------------------------------- steps

  /**
   * AluOperation.execute: CP returns at once, POST_INC/POST_DEC step HL,
   * every other kind computes its result and applies it.  ADD reads the
   * descriptor, so a null descriptor throws there.
   */
  function AluStep(m: Machine, kind: AluKind, wide: bool, x: Option<Supplier>, y: Option<Supplier>): Effect
    requires Sized(m)
  {
    var xv, yv := SuppliedOrZero(m.opcode, x), SuppliedOrZero(m.opcode, y);
    match kind
    case Cp => Effect(m, false)
    case PostDec => Effect(m.(regs := WithHL(m.regs, (HL(m.regs) - 1) % 0x10000)), false)
    case PostInc => Effect(m.(regs := WithHL(m.regs, (HL(m.regs) + 1) % 0x10000)), false)
    case Adc => AluApplied(m, AdcValue(xv, yv, CarryIn(m.regs)))
    case Add =>
      if m.opcode.info.None? then Effect(m, true)
      else AluApplied(m, AddValue(m.opcode.info.value, wide, xv, yv))
    case Dec => AluApplied(m, DecValue(wide, xv))
    case Inc => AluApplied(m, IncValue(wide, xv))
    case Sbc => AluApplied(m, SbcValue(xv, yv, CarryIn(m.regs)))
    case Sub => AluApplied(m, SubValue(xv, yv))
  }

  /**
   * AluOperation.applyResult: an N16 destination receives the result
   * little-endian at destinationValue; otherwise a destination naming a
   * register receives it through setByName; anything else is dropped.
   */
  function AluApplied(m: Machine, result: int): Effect
    requires Sized(m)
  {
    var o := m.opcode;
    if o.destinationType == Some(N16) then
      var addr := o.destinationValue;
      Effect(m.(mem := Store(Store(m.mem, addr, result % 256), addr + 1, (result / 256) % 256)), false)
    else if NamesRegister(o.destinationOperandString) then
      var r' := Set(m.regs, o.destinationOperandString.value, result);
      if r'.Some? then Effect(m.(regs := r'.value), false) else Effect(m, true)
    else Effect(m, false)
  }

  /** ApplyResult: mask to the register's width and store it, or write the byte at the register's address. */
  function ApplyResultStep(m: Machine, result: Supplier, resultType: DataType, target: string): Effect
    requires Sized(m)
  {
    var v := Supplied(m.opcode, result);
    match resultType
    case R8 =>
      var r' := Set(m.regs, target, v % 256);
      if r'.Some? then Effect(m.(regs := r'.value), false) else Effect(m, true)
    case R16 =>
      var r' := Set(m.regs, target, v % 0x10000);
      if r'.Some? then Effect(m.(regs := r'.value), false) else Effect(m, true)
    case MEMORY =>
      var address := Get(m.regs, target);
      if address.Some? then Effect(m.(mem := Store(m.mem, address.value, v)), false) else Effect(m, true)
    case _ => Effect(m, false)
  }

  /**
   * BitShiftOperation: shift the target (0 when there is none) and store
   * the byte in A when the opcode has no destination operand, at [HL]
   * when the destination is not immediate, else in the named register.
   */
  function ShiftStep(m: Machine, kind: ShiftKind, target: Option<Supplier>): Effect
    requires Sized(m)
  {
    ShiftStored(m, ShiftValue(kind, SuppliedOrZero(m.opcode, target), CarryIn(m.regs)))
  }

  /** BitShiftOperation.applyResult. */
  function ShiftStored(m: Machine, result: int): Effect
    requires Sized(m)
  {
    var d := m.opcode.destinationOperand;
    if d.None? then Effect(m.(regs := m.regs.(a := result)), false)
    else if !d.value.immediate then Effect(m.(mem := Store(m.mem, HL(m.regs), result)), false)
    else
      var r' := Set(m.regs, d.value.name, result);
      if r'.Some? then Effect(m.(regs := r'.value), false) else Effect(m, true)
  }

  /** BitwiseOperation: A op source, masked, back into A. */
  function BitwiseStep(m: Machine, kind: LogicKind, source: Option<Supplier>): Effect {
    var result := LogicValue(kind, m.regs.a, SuppliedOrZero(m.opcode, source));
    Effect(m.(regs := m.regs.(a := result)), false)
  }

  /**
   * StackOperation.  POP records the value for the flag calculator, loads
   * the destination pair (setAF for AF, setByName otherwise) and then
   * moves SP up by two; PUSH_HIGH and PUSH_LOW each move SP down by one
   * and store one byte there, PUSH_LOW clearing the low nibble for AF.
   */
  function StackStep(m: Machine, kind: StackKind, value: Supplier): Effect
    requires Sized(m)
  {
    var v := Supplied(m.opcode, value);
    var ds := m.opcode.destinationOperandString;
    match kind
    case Pop => PopStep(m, v)
    case PushHigh => PushByteStep(m, Ushr32(v, 8) % 256)
    case PushLow => PushByteStep(m, if ds == Some("AF") then And(v % 256, 0xF0) else v % 256)
  }

  /** POP of the value v. */
  function PopStep(m: Machine, v: int): Effect {
    var ds := m.opcode.destinationOperandString;
    var m1 := m.(opcode := m.opcode.(destinationValue := v));
    var r1 := if ds == Some("AF") then Some(WithAF(m.regs, v))
              else if ds.None? then None
              else Set(m.regs, ds.value, v);
    if r1.None? then Effect(m1, true)
    else Effect(m1.(regs := r1.value.(sp := (r1.value.sp + 2) % 0x10000)), false)
  }

  /** One half of PUSH: SP one lower, the byte stored there. */
  function PushByteStep(m: Machine, b: int): Effect
    requires Sized(m)
  {
    var sp := (m.regs.sp - 1) % 0x10000;
    Effect(m.(mem := Store(m.mem, sp, b), regs := m.regs.(sp := sp)), false)
  }

  /**
   * Load: the source is the named register for an R8/R16 source, the
   * source value otherwise; an immediate destination register receives it
   * masked to 16 bits (two-letter name) or 8 bits, anything else makes it
   * a byte written at destinationValue.
   */
  function LoadStep(m: Machine): Effect
    requires Sized(m)
  {
    var o := m.opcode;
    var fromRegister := o.sourceType == Some(R8) || o.sourceType == Some(R16);
    var source := if fromRegister && o.sourceOperandString.Some? then Get(m.regs, o.sourceOperandString.value)
                  else if fromRegister then None
                  else Some(o.sourceValue);
    if source.None? then Effect(m, true)
    else if NamesRegister(o.destinationOperandString) && o.destinationOperand.None? then Effect(m, true)
    else if NamesRegister(o.destinationOperandString) && o.destinationOperand.value.immediate then
      var ds := o.destinationOperandString.value;
      var v := if |ds| > 1 then source.value % 0x10000 else source.value % 256;
      var r' := Set(m.regs, ds, v);
      if r'.Some? then Effect(m.(regs := r'.value), false) else Effect(m, true)
    else Effect(m.(mem := Store(m.mem, o.destinationValue, source.value % 256)), false)
  }

  /** CalculateCycles: record the cycle count for the branch taken; throws without a descriptor or a cycle entry. */
  function CyclesRecorded(o: OpcodeState): Option<OpcodeState> {
    if o.info.None? then None
    else
      var choice := CycleChoice(o.info.value.cycles, !o.killRemainingOps);
      if choice.None? then None else Some(o.(realCycles := choice.value))
  }

  /** CheckCC: the opcode's remaining operations are killed when the condition fails. */
  function CheckStep(m: Machine, condition: Condition): Effect {
    Effect(if Kills(condition, m.regs) then m.(opcode := m.opcode.(killRemainingOps := true)) else m, false)
  }

  /** CalculateCycles as a step. */
  function CyclesStep(m: Machine): Effect {
    var o' := CyclesRecorded(m.opcode);
    if o'.Some? then Effect(m.(opcode := o'.value), false) else Effect(m, true)
  }

  /** MergeOperands: the little-endian word of two supplied bytes into a value field. */
  function MergeStep(m: Machine, low: Supplier, high: Supplier, into: Slot): Effect {
    var o := m.opcode;
    Effect(m.(opcode := WithSlot(o, into, Merged(Supplied(o, low), Supplied(o, high)))), false)
  }

  /** FlipBytes: the high input shifted over the low byte, into a value field. */
  function FlipStep(m: Machine, low: Supplier, high: Supplier, into: Slot): Effect {
    var o := m.opcode;
    Effect(m.(opcode := WithSlot(o, into, Flipped(Supplied(o, low), Supplied(o, high)))), false)
  }

  /** FlipOperands: source and destination value swap. */
  function SwapStep(m: Machine): Effect {
    var o := m.opcode;
    Effect(m.(opcode := o.(sourceValue := o.destinationValue, destinationValue := o.sourceValue)), false)
  }

  /** ReadMemory16Bit: the little-endian word at the supplied address. */
  function ReadWordStep(m: Machine, into: Slot, address: Supplier): Effect
    requires Sized(m)
  {
    Effect(m.(opcode := WithSlot(m.opcode, into, WordAt(m.mem, Supplied(m.opcode, address)))), false)
  }

  /** ReadImmediate8bit: the byte at PC, PC + 1, and 0xFF00 or-ed in for a high-RAM address. */
  function ReadImmediateStep(m: Machine, into: Slot, highRam: bool): Effect
    requires Sized(m)
  {
    var b := ByteAt(m.mem, m.regs.pc);
    var result := if highRam then Or(b, 0xFF00) else b;
    Effect(m.(regs := m.regs.(pc := m.regs.pc + 1), opcode := WithSlot(m.opcode, into, result)), false)
  }

  /** WriteMemory8Bit: one byte, both address and data masked first. */
  function WriteMemoryStep(m: Machine, address: Supplier, data: Supplier): Effect
    requires Sized(m)
  {
    var a, d := Supplied(m.opcode, address) % 0x10000, Supplied(m.opcode, data) % 256;
    Effect(m.(mem := Store(m.mem, a, d)), false)
  }

  /** InterruptOperation: DI, EI (deferred), the immediate EI and HALT. */
  function InterruptStep(m: Machine, kind: InterruptKind): Effect {
    match kind
    case Di => Effect(m.(cpu := m.cpu.(ime := false)), false)
    case Ei => Effect(m.(cpu := m.cpu.(pendingImeEnable := true)), false)
    case EiQuick => Effect(m.(cpu := m.cpu.(ime := true)), false)
    case Halt => Effect(m.(cpu := m.cpu.(halt := true)), false)
  }

  /** ReadRegister8Bit / ReadRegister16Bit: the named register, masked to the width. */
  function ReadRegisterStep(m: Machine, into: Slot, name: string, width: int): Effect
    requires width > 0
  {
    var v := Get(m.regs, name);
    if v.None? then Effect(m, true)
    else Effect(m.(opcode := WithSlot(m.opcode, into, v.value % width)), false)
  }

  /**
   * ReadMemory8Bit / ReadMemory8Bits: the byte at an address, handed on as
   * 0..255 (see ReadMemoryStepAsWritten for the signed value the source hands
   * on).  The address comes from a supplier, or from a named register.
   */
  function ReadMemoryStep(m: Machine, into: Slot, address: Option<int>): Effect
    requires Sized(m)
  {
    if address.None? then Effect(m, true)
    else Effect(m.(opcode := WithSlot(m.opcode, into, ByteAt(m.mem, address.value))), false)
  }

  /** HandleFlags: processFlags on the two supplied values. */
  function HandleFlagsStep(m: Machine, info: OpcodeInfo, x: Supplier, y: Supplier): Effect {
    var r' := FlagsProcessed(m.regs, info, Supplied(m.opcode, x), Supplied(m.opcode, y));
    if r'.Some? then Effect(m.(regs := r'.value), false) else Effect(m, true)
  }

  /** One micro-operation's execute, on a snapshot. */
  function Stepped(m: Machine, op: MicroOp): (e: Effect)
    requires Sized(m)
    ensures Sized(e.after)
  {
    var o := m.opcode;
    match op
    case Alu(kind, wide, x, y) => AluStep(m, kind, wide, x, y)
    case ApplyResult(result, resultType, target) => ApplyResultStep(m, result, resultType, target)
    case Shift(kind, target) => ShiftStep(m, kind, target)
    case Bitwise(kind, source) => BitwiseStep(m, kind, source)
    case BitFlag(_, _, _) => Effect(m, false)
    case StackOp(kind, value) => StackStep(m, kind, value)
    case Load => LoadStep(m)
    case CheckCC(condition) => CheckStep(m, condition)
    case CalculateCycles => CyclesStep(m)
    case MergeOperands(low, high, into) => MergeStep(m, low, high, into)
    case FlipBytes(low, high, into) => FlipStep(m, low, high, into)
    case FlipOperands => SwapStep(m)
    case ReadImmediate8(into, highRam) => ReadImmediateStep(m, into, highRam)
    case WriteMemory8(address, data) => WriteMemoryStep(m, address, data)
    case Interrupt(kind) => InterruptStep(m, kind)
    case ReadRegister8(into, name) => ReadRegisterStep(m, into, name, 0x100)
    case ReadRegister16(into, name) => ReadRegisterStep(m, into, name, 0x10000)
    case ReadMemory8(into, address) => ReadMemoryStep(m, into, Some(Supplied(o, address)))
    case ReadMemory8At(into, register) => ReadMemoryStep(m, into, Get(m.regs, register))
    case ReadMemory16(into, address) => ReadWordStep(m, into, address)
    case EmptyCycle => Effect(m, false)
    case HandleFlags(info, x, y) => HandleFlagsStep(m, info, x, y)
  }

  /** Opcode.execute on a snapshot: run the head; the queue is drained when nothing is left and nothing threw. */
  function Executed(m: Machine, queue: seq<MicroOp>): Effect
    requires Sized(m) && |queue| > 0
  {
    var e := Stepped(m, queue[0]);
    if !e.thrown && |queue| == 1 then
      Effect(e.after.(opcode := e.after.opcode.(operationsRemaining := false)), false)
    else e
  }

  /**
   * ReadMemory8Bit / ReadMemory8Bits as written: readByte returns the
   * signed Java byte and it is handed on without `& 0xFF`.
   */
  function ReadMemoryStepAsWritten(m: Machine, into: Slot, address: Option<int>): Effect
    requires Sized(m)
  {
    if address.None? then Effect(m, true)
    else Effect(m.(opcode := WithSlot(m.opcode, into, SignedRead(m.mem, address.value))), false)
  }

  // -------------------------------------------------------------- class

  class Opcode {
    var microOps: seq<MicroOp>
    var info: Option<OpcodeInfo>
    var cc: Option<string>
    var destinationOperandString: Option<string>
    var sourceOperandString: Option<string>
    var destinationOperand: Option<Operand>
    var sourceOperand: Option<Operand>
    var sourceType: Option<DataType>
    var destinationType: Option<DataType>
    var fetchedAt: int
    var sourceValue: int
    var destinationValue: int
    var extraValue: int
    var cyclesConsumed: int
    var operationsRemaining: bool
    var unimplError: bool
    var killRemainingOps: bool
    var realCycles: int

    function State(): OpcodeState
      reads this
    {
      OpcodeState(info, cc, destinationOperandString, sourceOperandString, destinationOperand,
                  sourceOperand, sourceType, destinationType, fetchedAt, sourceValue,
                  destinationValue, extraValue, cyclesConsumed, operationsRemaining,
                  unimplError, killRemainingOps, realCycles)
    }

    /** The CPU's registers, its memory and flags, and this opcode's fields. */
    function Snapshot(cpu: Cpu): (m: Machine)
      requires cpu.Valid()
      reads this, cpu, cpu.regs, cpu.mem, cpu.mem.cells, cpu.stack
      ensures Sized(m)
    {
      Machine(cpu.regs.Value(), cpu.mem.Contents(), cpu.State(), State())
    }

    constructor()
      ensures microOps == [] && State() == Blank
    {
      microOps := [];
      info, cc := None, None;
      destinationOperandString, sourceOperandString := None, None;
      destinationOperand, sourceOperand := None, None;
      sourceType, destinationType := None, None;
      fetchedAt, sourceValue, destinationValue, extraValue, cyclesConsumed := 0, 0, 0, 0, 0;
      operationsRemaining, unimplError, killRemainingOps := false, false, false;
      realCycles := 0;
    }

    /** addOp: append to the queue and mark operations as remaining. */
    method AddOp(op: MicroOp)
      modifies this
      ensures microOps == old(microOps) + [op]
      ensures State() == old(State()).(operationsRemaining := true)
    {
      operationsRemaining := true;
      microOps := microOps + [op];
    }

    // The builder's setters: each changes its one field.

    method SetDestinationOperandString(v: Option<string>)
      modifies this
      ensures microOps == old(microOps) && State() == old(State()).(destinationOperandString := v)
    {
      destinationOperandString := v;
    }

    method SetSourceOperandString(v: Option<string>)
      modifies this
      ensures microOps == old(microOps) && State() == old(State()).(sourceOperandString := v)
    {
      sourceOperandString := v;
    }

    method SetDestinationOperand(v: Option<Operand>)
      modifies this
      ensures microOps == old(microOps) && State() == old(State()).(destinationOperand := v)
    {
      destinationOperand := v;
    }

    method SetSourceOperand(v: Option<Operand>)
      modifies this
      ensures microOps == old(microOps) && State() == old(State()).(sourceOperand := v)
    {
      sourceOperand := v;
    }

    method SetCc(v: Option<string>)
      modifies this
      ensures microOps == old(microOps) && State() == old(State()).(cc := v)
    {
      cc := v;
    }

    method SetOpcodeInfo(v: Option<OpcodeInfo>)
      modifies this
      ensures microOps == old(microOps) && State() == old(State()).(info := v)
    {
      info := v;
    }

    method SetFetchedAt(v: int)
      modifies this
      ensures microOps == old(microOps) && State() == old(State()).(fetchedAt := v)
    {
      fetchedAt := v;
    }

    method SetUnimplError(v: bool)
      modifies this
      ensures microOps == old(microOps) && State() == old(State()).(unimplError := v)
    {
      unimplError := v;
    }

    method SetCyclesConsumed(v: int)
      modifies this
      ensures microOps == old(microOps) && State() == old(State()).(cyclesConsumed := v)
    {
      cyclesConsumed := v;
    }

    method SetSourceType(v: Option<DataType>)
      modifies this
      ensures microOps == old(microOps) && State() == old(State()).(sourceType := v)
    {
      sourceType := v;
    }

    method SetDestinationType(v: Option<DataType>)
      modifies this
      ensures microOps == old(microOps) && State() == old(State()).(destinationType := v)
    {
      destinationType := v;
    }

    method SetDestinationValue(v: int)
      modifies this
      ensures microOps == old(microOps) && State() == old(State()).(destinationValue := v)
    {
      destinationValue := v;
    }

    /**
     * execute: pop the head and run it.  Popping an empty queue throws
     * before anything changes.
     */
    method Execute(cpu: Cpu) returns (thrown: bool)
      requires cpu.Valid()
      modifies this, cpu, cpu.regs, cpu.mem.cells
      ensures cpu.Valid()
      ensures old(microOps) == [] ==> thrown && microOps == [] && Snapshot(cpu) == old(Snapshot(cpu))
      ensures old(microOps) != [] ==>
                microOps == old(microOps)[1..] &&
                Effect(Snapshot(cpu), thrown) == Executed(old(Snapshot(cpu)), old(microOps))
    {
      if microOps == [] {
        return true;
      }
      var op := microOps[0];
      microOps := microOps[1..];
      thrown := Run(cpu, op);
      if !thrown && microOps == [] {
        operationsRemaining := false;
      }
    }

    /** MicroOperation.execute, dispatched on the kind of operation. */
    method Run(cpu: Cpu, op: MicroOp) returns (thrown: bool)
      requires cpu.Valid()
      modifies this, cpu, cpu.regs, cpu.mem.cells
      ensures cpu.Valid() && microOps == old(microOps)
      ensures Effect(Snapshot(cpu), thrown) == Stepped(old(Snapshot(cpu)), op)
    {
      if op.Alu? || op.ApplyResult? || op.Shift? || op.Bitwise? || op.BitFlag? || op.HandleFlags? {
        thrown := RunComputation(cpu, op);
      } else if op.StackOp? || op.Load? || op.WriteMemory8? || op.Interrupt? || op.CheckCC? || op.CalculateCycles? {
        thrown := RunStateChange(cpu, op);
      } else if op.ReadImmediate8? || op.ReadMemory8? || op.ReadMemory8At? || op.ReadMemory16? {
        thrown := RunRead(cpu, op);
      } else {
        thrown := RunTransfer(cpu, op);
      }
    }

    /** The operations that compute a value and store it in registers, memory or flags. */
    method RunComputation(cpu: Cpu, op: MicroOp) returns (thrown: bool)
      requires cpu.Valid()
      requires op.Alu? || op.ApplyResult? || op.Shift? || op.Bitwise? || op.BitFlag? || op.HandleFlags?
      modifies this, cpu.regs, cpu.mem.cells
      ensures cpu.Valid() && microOps == old(microOps)
      ensures Effect(Snapshot(cpu), thrown) == Stepped(old(Snapshot(cpu)), op)
    {
      ghost var m := Snapshot(cpu);
      match op
      case Alu(kind, wide, x, y) =>
        assert Stepped(m, op) == AluStep(m, kind, wide, x, y);
        thrown := RunAlu(cpu, kind, wide, x, y);
      case ApplyResult(result, resultType, target) =>
        assert Stepped(m, op) == ApplyResultStep(m, result, resultType, target);
        thrown := RunApplyResult(cpu, result, resultType, target);
      case Shift(kind, target) =>
        assert Stepped(m, op) == ShiftStep(m, kind, target);
        thrown := RunShift(cpu, kind, target);
      case Bitwise(kind, source) =>
        assert Stepped(m, op) == BitwiseStep(m, kind, source);
        RunBitwise(cpu, kind, source);
        thrown := false;
      case BitFlag(kind, index, target) =>
        assert Stepped(m, op) == Effect(m, false);
        var _ := RunBitFlag(kind, index, target);
        thrown := false;
      case HandleFlags(info, x, y) =>
        assert Stepped(m, op) == HandleFlagsStep(m, info, x, y);
        thrown := RunHandleFlags(cpu, info, x, y);
    }

    /** The stack, load and write operations, and those that switch CPU or opcode state. */
    method RunStateChange(cpu: Cpu, op: MicroOp) returns (thrown: bool)
      requires cpu.Valid()
      requires op.StackOp? || op.Load? || op.WriteMemory8? || op.Interrupt? || op.CheckCC? || op.CalculateCycles?
      modifies this, cpu, cpu.regs, cpu.mem.cells
      ensures cpu.Valid() && microOps == old(microOps)
      ensures Effect(Snapshot(cpu), thrown) == Stepped(old(Snapshot(cpu)), op)
    {
      ghost var m := Snapshot(cpu);
      thrown := false;
      match op
      case StackOp(kind, value) =>
        assert Stepped(m, op) == StackStep(m, kind, value);
        thrown := RunStack(cpu, kind, value);
      case Load =>
        assert Stepped(m, op) == LoadStep(m);
        thrown := RunLoad(cpu);
      case WriteMemory8(address, data) =>
        assert Stepped(m, op) == WriteMemoryStep(m, address, data);
        RunWriteMemory(cpu, address, data);
      case Interrupt(kind) =>
        assert Stepped(m, op) == InterruptStep(m, kind);
        RunInterrupt(cpu, kind);
      case CheckCC(condition) =>
        assert Stepped(m, op) == CheckStep(m, condition);
        RunCheckCC(cpu, condition);
      case CalculateCycles =>
        assert Stepped(m, op) == CyclesStep(m);
        thrown := RunCalculateCycles(cpu);
    }

    /** The operations that combine or copy the opcode's value fields. */
    method RunTransfer(cpu: Cpu, op: MicroOp) returns (thrown: bool)
      requires cpu.Valid()
      requires op.MergeOperands? || op.FlipBytes? || op.FlipOperands? ||
               op.ReadRegister8? || op.ReadRegister16? || op.EmptyCycle?
      modifies this
      ensures microOps == old(microOps)
      ensures Effect(Snapshot(cpu), thrown) == Stepped(old(Snapshot(cpu)), op)
    {
      ghost var m := Snapshot(cpu);
      thrown := false;
      match op
      case MergeOperands(low, high, into) =>
        assert Stepped(m, op) == MergeStep(m, low, high, into);
        RunMerge(cpu, low, high, into);
      case FlipBytes(low, high, into) =>
        assert Stepped(m, op) == FlipStep(m, low, high, into);
        RunFlipBytes(cpu, low, high, into);
      case FlipOperands =>
        assert Stepped(m, op) == SwapStep(m);
        RunFlipOperands(cpu);
      case ReadRegister8(into, name) =>
        assert Stepped(m, op) == ReadRegisterStep(m, into, name, 0x100);
        thrown := RunReadRegister(cpu, into, name, 0x100);
      case ReadRegister16(into, name) =>
        assert Stepped(m, op) == ReadRegisterStep(m, into, name, 0x10000);
        thrown := RunReadRegister(cpu, into, name, 0x10000);
      case EmptyCycle =>
        assert Stepped(m, op) == Effect(m, false);
    }

    /** The operations that read memory into a value field. */
    method RunRead(cpu: Cpu, op: MicroOp) returns (thrown: bool)
      requires cpu.Valid()
      requires op.ReadImmediate8? || op.ReadMemory8? || op.ReadMemory8At? || op.ReadMemory16?
      modifies this, cpu.regs
      ensures cpu.Valid() && microOps == old(microOps)
      ensures Effect(Snapshot(cpu), thrown) == Stepped(old(Snapshot(cpu)), op)
    {
      ghost var m := Snapshot(cpu);
      thrown := false;
      match op
      case ReadImmediate8(into, highRam) =>
        assert Stepped(m, op) == ReadImmediateStep(m, into, highRam);
        RunReadImmediate(cpu, into, highRam);
      case ReadMemory8(into, address) =>
        assert Stepped(m, op) == ReadMemoryStep(m, into, Some(Supplied(m.opcode, address)));
        RunReadMemory(cpu, into, address);
      case ReadMemory8At(into, register) =>
        assert Stepped(m, op) == ReadMemoryStep(m, into, Get(m.regs, register));
        thrown := RunReadMemoryAt(cpu, into, register);
      case ReadMemory16(into, address) =>
        assert Stepped(m, op) == ReadWordStep(m, into, address);
        RunReadWord(cpu, into, address);
    }

    /** A consumer: the setter of one value field. */
    method Accept(s: Slot, v: int)
      modifies this
      ensures microOps == old(microOps)
      ensures State() == WithSlot(old(State()), s, v)
    {
      match s
      case Destination => destinationValue := v;
      case Source => sourceValue := v;
      case Extra => extraValue := v;
    }

    method RunAlu(cpu: Cpu, kind: AluKind, wide: bool, x: Option<Supplier>, y: Option<Supplier>) returns (thrown: bool)
      requires cpu.Valid()
      modifies this, cpu.regs, cpu.mem.cells
      ensures cpu.Valid() && microOps == old(microOps)
      ensures Effect(Snapshot(cpu), thrown) == AluStep(old(Snapshot(cpu)), kind, wide, x, y)
    {
      ghost var m := Snapshot(cpu);
      var xv := SuppliedOrZero(State(), x);
      var yv := SuppliedOrZero(State(), y);
      var carry := CarryIn(cpu.regs.Value());
      var result: int;
      match kind {
        case Cp =>
          return false;
        case PostDec =>
          var val := (HL(cpu.regs.Value()) - 1) % 0x10000;
          var ok := cpu.regs.SetByName("HL", val);
          return false;
        case PostInc =>
          var val := (HL(cpu.regs.Value()) + 1) % 0x10000;
          var ok := cpu.regs.SetByName("HL", val);
          return false;
        case Adc => result := AdcValue(xv, yv, carry);
        case Add =>
          if info.None? {
            return true;
          }
          result := AddValue(info.value, wide, xv, yv);
        case Dec => result := DecValue(wide, xv);
        case Inc => result := IncValue(wide, xv);
        case Sbc => result := SbcValue(xv, yv, carry);
        case Sub => result := SubValue(xv, yv);
      }
      assert AluStep(m, kind, wide, x, y) == AluApplied(m, result);
      thrown := ApplyAluResult(cpu, result);
    }

    method ApplyAluResult(cpu: Cpu, result: int) returns (thrown: bool)
      requires cpu.Valid()
      modifies cpu.regs, cpu.mem.cells
      ensures cpu.Valid()
      ensures Effect(Snapshot(cpu), thrown) == AluApplied(old(Snapshot(cpu)), result)
    {
      thrown := false;
      if destinationType == Some(N16) {
        var addr := destinationValue;
        cpu.mem.WriteByte(addr, result % 256);
        cpu.mem.WriteByte(addr + 1, (result / 256) % 256);
      } else if NamesRegister(destinationOperandString) {
        var ok := cpu.regs.SetByName(destinationOperandString.value, result);
        thrown := !ok;
      }
    }

    method RunApplyResult(cpu: Cpu, result: Supplier, resultType: DataType, target: string) returns (thrown: bool)
      requires cpu.Valid()
      modifies cpu.regs, cpu.mem.cells
      ensures cpu.Valid()
      ensures Effect(Snapshot(cpu), thrown) == ApplyResultStep(old(Snapshot(cpu)), result, resultType, target)
    {
      var v := Supplied(State(), result);
      thrown := false;
      match resultType
      case R8 =>
        var ok := cpu.regs.SetByName(target, v % 256);
        thrown := !ok;
      case R16 =>
        var ok := cpu.regs.SetByName(target, v % 0x10000);
        thrown := !ok;
      case MEMORY =>
        var address := Get(cpu.regs.Value(), target);
        if address.None? {
          return true;
        }
        cpu.mem.WriteByte(address.value, v);
      case _ =>
    }

    method RunShift(cpu: Cpu, kind: ShiftKind, target: Option<Supplier>) returns (thrown: bool)
      requires cpu.Valid()
      modifies cpu.regs, cpu.mem.cells
      ensures cpu.Valid()
      ensures Effect(Snapshot(cpu), thrown) == ShiftStep(old(Snapshot(cpu)), kind, target)
    {
      var v := SuppliedOrZero(State(), target);
      var carry := CarryIn(cpu.regs.Value());
      var result := ShiftValue(kind, v, carry);
      thrown := StoreShifted(cpu, result);
    }

    method StoreShifted(cpu: Cpu, result: int) returns (thrown: bool)
      requires cpu.Valid()
      modifies cpu.regs, cpu.mem.cells
      ensures cpu.Valid()
      ensures Effect(Snapshot(cpu), thrown) == ShiftStored(old(Snapshot(cpu)), result)
    {
      thrown := false;
      if destinationOperand.None? {
        cpu.regs.SetA(result);
      } else if !destinationOperand.value.immediate {
        cpu.mem.WriteByte(HL(cpu.regs.Value()), result);
      } else {
        var ok := cpu.regs.SetByName(destinationOperand.value.name, result);
        thrown := !ok;
      }
    }

    method RunBitwise(cpu: Cpu, kind: LogicKind, source: Option<Supplier>)
      requires cpu.Valid()
      modifies cpu.regs
      ensures cpu.Valid()
      ensures Effect(Snapshot(cpu), false) == BitwiseStep(old(Snapshot(cpu)), kind, source)
    {
      var x := cpu.regs.a;
      var y := SuppliedOrZero(State(), source);
      var result := LogicValue(kind, x, y);
      cpu.regs.SetA(result);
    }

    /**
     * BitFlagOperation.execute: the result of RES/SET on the supplied bit
     * index and target, each 0 when absent.  The result is kept in the
     * operation and handed to nobody, so the machine does not change.
     */
    method RunBitFlag(kind: BitFlagKind, index: Option<Supplier>, target: Option<Supplier>) returns (result: int)
      ensures result == BitFlagValue(kind, SuppliedOrZero(State(), index), SuppliedOrZero(State(), target))
      ensures var b, t := SuppliedOrZero(State(), index), SuppliedOrZero(State(), target);
              0 <= b < 31 ==> forall j: nat :: Bit(result, j) == if j == b then kind == SetBit else Bit(t, j)
    {
      var b := SuppliedOrZero(State(), index);
      var t := SuppliedOrZero(State(), target);
      result := BitFlagValue(kind, b, t);
      if 0 <= b < 31 {
        forall j: nat
          ensures Bit(result, j) == if j == b then kind == SetBit else Bit(t, j)
        {
          BitFlagBits(kind, b, t, j);
        }
      }
    }

    method RunStack(cpu: Cpu, kind: StackKind, value: Supplier) returns (thrown: bool)
      requires cpu.Valid()
      modifies this, cpu.regs, cpu.mem.cells
      ensures cpu.Valid() && microOps == old(microOps)
      ensures Effect(Snapshot(cpu), thrown) == StackStep(old(Snapshot(cpu)), kind, value)
    {
      var v := Supplied(State(), value);
      thrown := false;
      match kind
      case Pop =>
        thrown := RunPop(cpu, v);
      case PushHigh =>
        var high := Ushr32(v, 8) % 256;
        RunPushByte(cpu, high);
      case PushLow =>
        var low := v % 256;
        if destinationOperandString == Some("AF") {
          low := And(low, 0xF0);
        }
        RunPushByte(cpu, low);
    }

    method RunPop(cpu: Cpu, v: int) returns (thrown: bool)
      requires cpu.Valid()
      modifies this, cpu.regs
      ensures cpu.Valid() && microOps == old(microOps)
      ensures Effect(Snapshot(cpu), thrown) == PopStep(old(Snapshot(cpu)), v)
    {
      thrown := false;
      destinationValue := v;
        if destinationOperandString == Some("AF") {
          cpu.regs.SetAF(v);
        } else if destinationOperandString.None? {
          return true;
        } else {
          var ok := cpu.regs.SetByName(destinationOperandString.value, v);
          if !ok {
            return true;
          }
        }
        cpu.regs.SetSP((cpu.regs.sp + 2) % 0x10000);
    }

    method RunPushByte(cpu: Cpu, b: int)
      requires cpu.Valid()
      modifies cpu.regs, cpu.mem.cells
      ensures cpu.Valid()
      ensures Effect(Snapshot(cpu), false) == PushByteStep(old(Snapshot(cpu)), b)
    {
      var sp := (cpu.regs.sp - 1) % 0x10000;
      cpu.mem.WriteByte(sp, b);
      cpu.regs.SetSP(sp);
    }

    method RunLoad(cpu: Cpu) returns (thrown: bool)
      requires cpu.Valid()
      modifies cpu.regs, cpu.mem.cells
      ensures cpu.Valid()
      ensures Effect(Snapshot(cpu), thrown) == LoadStep(old(Snapshot(cpu)))
    {
      var source: int;
      if sourceType == Some(R8) || sourceType == Some(R16) {
        if sourceOperandString.None? || Get(cpu.regs.Value(), sourceOperandString.value).None? {
          return true;
        }
        source := Get(cpu.regs.Value(), sourceOperandString.value).value;
      } else {
        source := sourceValue;
      }
      if NamesRegister(destinationOperandString) {
        if destinationOperand.None? {
          return true;
        }
        if destinationOperand.value.immediate {
          var ds := destinationOperandString.value;
          source := if |ds| > 1 then source % 0x10000 else source % 256;
          var ok := cpu.regs.SetByName(ds, source);
          return !ok;
        }
      }
      cpu.mem.WriteByte(destinationValue, source % 256);
      thrown := false;
    }

    method RunCheckCC(cpu: Cpu, condition: Condition)
      requires cpu.Valid()
      modifies this
      ensures microOps == old(microOps)
      ensures Effect(Snapshot(cpu), false) == CheckStep(old(Snapshot(cpu)), condition)
    {
      if Kills(condition, cpu.regs.Value()) {
        killRemainingOps := true;
      }
    }

    method RunCalculateCycles(cpu: Cpu) returns (thrown: bool)
      requires cpu.Valid()
      modifies this
      ensures microOps == old(microOps)
      ensures Effect(Snapshot(cpu), thrown) == CyclesStep(old(Snapshot(cpu)))
      ensures thrown == CyclesRecorded(old(State())).None?
      ensures State() == if thrown then old(State()) else CyclesRecorded(old(State())).value
    {
      if info.None? {
        return true;
      }
      var cycleChoices := info.value.cycles;
      var realCyclesNow: int;
      if |cycleChoices| == 1 {
        realCyclesNow := cycleChoices[0];
      } else {
        var taken := !killRemainingOps;
        var index := if taken then 0 else 1;
        if index >= |cycleChoices| {
          return true;
        }
        realCyclesNow := cycleChoices[index];
      }
      realCycles := realCyclesNow;
      thrown := false;
    }

    method RunMerge(cpu: Cpu, low: Supplier, high: Supplier, into: Slot)
      requires cpu.Valid()
      modifies this
      ensures microOps == old(microOps)
      ensures Effect(Snapshot(cpu), false) == MergeStep(old(Snapshot(cpu)), low, high, into)
    {
      var lo := Supplied(State(), low) % 256;
      var hi := Supplied(State(), high) % 256;
      var n16 := Or(hi * 256, lo) % 0x10000;
      Accept(into, n16);
    }

    method RunFlipBytes(cpu: Cpu, low: Supplier, high: Supplier, into: Slot)
      requires cpu.Valid()
      modifies this
      ensures microOps == old(microOps)
      ensures Effect(Snapshot(cpu), false) == FlipStep(old(Snapshot(cpu)), low, high, into)
    {
      var lo := Supplied(State(), low);
      var hi := Supplied(State(), high);
      var n16 := Or(hi * 256, lo % 256);
      Accept(into, n16);
    }

    method RunFlipOperands(cpu: Cpu)
      requires cpu.Valid()
      modifies this
      ensures microOps == old(microOps)
      ensures Effect(Snapshot(cpu), false) == SwapStep(old(Snapshot(cpu)))
    {
      var destination := destinationValue;
      var source := sourceValue;
      sourceValue := destination;
      destinationValue := source;
    }

    method RunReadImmediate(cpu: Cpu, into: Slot, highRam: bool)
      requires cpu.Valid()
      modifies this, cpu.regs
      ensures cpu.Valid() && microOps == old(microOps)
      ensures Effect(Snapshot(cpu), false) == ReadImmediateStep(old(Snapshot(cpu)), into, highRam)
    {
      var result: int := cpu.mem.ReadByte(cpu.regs.pc);
      cpu.regs.IncrementPC(1);
      if highRam {
        result := Or(result, 0xFF00);
      }
      Accept(into, result);
    }

    method RunWriteMemory(cpu: Cpu, address: Supplier, data: Supplier)
      requires cpu.Valid()
      modifies cpu.mem.cells
      ensures cpu.Valid()
      ensures Effect(Snapshot(cpu), false) == WriteMemoryStep(old(Snapshot(cpu)), address, data)
    {
      var addr := Supplied(State(), address) % 0x10000;
      var d := Supplied(State(), data) % 256;
      cpu.mem.WriteByte(addr, d);
    }

    method RunInterrupt(cpu: Cpu, kind: InterruptKind)
      requires cpu.Valid()
      modifies cpu
      ensures cpu.Valid()
      ensures Effect(Snapshot(cpu), false) == InterruptStep(old(Snapshot(cpu)), kind)
    {
      match kind
      case Di => cpu.SetIME(false);
      case Ei => cpu.SetPendingImeEnable(true);
      case EiQuick => cpu.SetIME(true);
      case Halt => cpu.SetHalt(true);
    }

    method RunReadRegister(cpu: Cpu, into: Slot, name: string, width: int) returns (thrown: bool)
      requires cpu.Valid() && width > 0
      modifies this
      ensures microOps == old(microOps)
      ensures Effect(Snapshot(cpu), thrown) == ReadRegisterStep(old(Snapshot(cpu)), into, name, width)
    {
      var v := Get(cpu.regs.Value(), name);
      if v.None? {
        return true;
      }
      Accept(into, v.value % width);
      thrown := false;
    }

    method RunReadMemory(cpu: Cpu, into: Slot, address: Supplier)
      requires cpu.Valid()
      modifies this
      ensures microOps == old(microOps)
      ensures Effect(Snapshot(cpu), false) == ReadMemoryStep(old(Snapshot(cpu)), into, Some(Supplied(old(State()), address)))
    {
      var addr := Supplied(State(), address);
      var result: int := cpu.mem.ReadByte(addr);
      Accept(into, result);
    }

    method RunReadMemoryAt(cpu: Cpu, into: Slot, register: string) returns (thrown: bool)
      requires cpu.Valid()
      modifies this
      ensures microOps == old(microOps)
      ensures Effect(Snapshot(cpu), thrown) == ReadMemoryStep(old(Snapshot(cpu)), into, Get(cpu.regs.Value(), register))
    {
      var address := Get(cpu.regs.Value(), register);
      if address.None? {
        return true;
      }
      var result: int := cpu.mem.ReadByte(address.value);
      Accept(into, result);
      thrown := false;
    }

    method RunReadWord(cpu: Cpu, into: Slot, address: Supplier)
      requires cpu.Valid()
      modifies this
      ensures microOps == old(microOps)
      ensures Effect(Snapshot(cpu), false) == ReadWordStep(old(Snapshot(cpu)), into, address)
    {
      var result := cpu.mem.ReadWord(Supplied(State(), address));
      Accept(into, result);
    }

    method RunHandleFlags(cpu: Cpu, info: OpcodeInfo, x: Supplier, y: Supplier) returns (thrown: bool)
      requires cpu.Valid()
      modifies cpu.regs
      ensures cpu.Valid()
      ensures Effect(Snapshot(cpu), thrown) == HandleFlagsStep(old(Snapshot(cpu)), info, x, y)
    {
      var xVal := Supplied(State(), x);
      var yVal := Supplied(State(), y);
      thrown := ProcessFlags(cpu.regs, info, xVal, yVal);
    }
  }

  // ----------------------------------------------------------- properties

  /** `(v >>> 8) & 0xFF` is the high byte of v, whatever its sign. */
  lemma {:induction false} UshrHighByte(v: int)
    ensures Ushr32(v, 8) % 256 == HighByte(v)
  {
    Pow2Table();
    var q, w := v / 0x1_0000_0000, v % 0x1_0000_0000;
    assert Ushr32(v, 8) == w / 256;
    DivUnique(v, 256, q * 0x100_0000 + w / 256, w % 256);
    DivUnique(v / 256, 256, q * 0x1_0000 + (w / 256) / 256, (w / 256) % 256);
  }

  /**
   * PUSH_HIGH then PUSH_LOW of the same value (into anything but AF) store
   * exactly what the stack's push stores, leave SP two lower, and popping
   * there gives the value back modulo 2^16.
   */
  lemma {:induction false} PushHalvesArePush(m: Machine, value: Supplier)
    requires Sized(m) && m.opcode.destinationOperandString != Some("AF")
    ensures var e1 := StackStep(m, PushHigh, value);
            var e2 := StackStep(e1.after, PushLow, value);
            var v := Supplied(m.opcode, value);
            !e1.thrown && !e2.thrown &&
            e2.after == m.(mem := PushedMemory(m.mem, m.regs.sp, v), regs := m.regs.(sp := Down(Down(m.regs.sp)))) &&
            PoppedValue(e2.after.mem, e2.after.regs.sp) == v % 0x10000
  {
    var v := Supplied(m.opcode, value);
    UshrHighByte(v);
    var sp1 := Down(m.regs.sp);
    var m1 := m.(mem := Store(m.mem, sp1, HighByte(v)), regs := m.regs.(sp := sp1));
    assert StackStep(m, PushHigh, value) == Effect(m1, false);
    assert StackStep(m1, PushLow, value) ==
           Effect(m1.(mem := Store(m1.mem, Down(sp1), LowByte(v)), regs := m1.regs.(sp := Down(sp1))), false);
    PushThenPop(m.mem, m.regs.sp, v);
  }

  /**
   * POP AF loads A with the high byte and F with the high nibble of the
   * low byte, so F stays a flag byte and AF reads back as `v & 0xFFF0`;
   * then SP moves two up.
   */
  lemma {:induction false} PopIntoAF(m: Machine, value: Supplier)
    requires Sized(m) && m.opcode.destinationOperandString == Some("AF")
    ensures var e := StackStep(m, Pop, value);
            var v := Supplied(m.opcode, value);
            !e.thrown && IsFlagByte(e.after.regs.f) && AF(e.after.regs) == v % 0x10000 - v % 16 &&
            e.after.regs.sp == (m.regs.sp + 2) % 0x10000 && e.after.opcode.destinationValue == v &&
            e.after.mem == m.mem
  {
    AFRoundTrip(m.regs, Supplied(m.opcode, value));
  }

  /**
   * POP into BC, DE or HL loads the pair with the value modulo 2^16 and
   * moves SP two up; a destination with no setter (or none at all) throws
   * after only destinationValue has been recorded.
   */
  lemma {:induction false} PopIntoPair(m: Machine, value: Supplier)
    requires Sized(m)
    ensures var e := StackStep(m, Pop, value);
            var ds := m.opcode.destinationOperandString;
            var v := Supplied(m.opcode, value);
            (ds.Some? && ds.value in {"BC", "DE", "HL"} ==>
               !e.thrown && Get(e.after.regs, ds.value) == Some(v % 0x10000) &&
               e.after.regs.sp == (m.regs.sp + 2) % 0x10000) &&
            (ds.None? || ds.value !in SetterNames ==>
               e.thrown && e.after == m.(opcode := m.opcode.(destinationValue := v)))
  {
    var ds := m.opcode.destinationOperandString;
    var v := Supplied(m.opcode, value);
    assert StackStep(m, Pop, value) == PopStep(m, v);
    if ds.Some? && ds.value in SetterNames {
      SetThenGet(m.regs, ds.value, v);
    }
  }

  /**
   * INC/DEC [HL] style results go to memory as a little-endian word at
   * destinationValue: the word read back there is the result modulo 2^16,
   * and no other cell and no register changes.
   */
  lemma {:induction false} WideResultReadsBack(m: Machine, result: int)
    requires Sized(m) && m.opcode.destinationType == Some(N16)
    ensures var e := AluApplied(m, result);
            var addr := m.opcode.destinationValue;
            !e.thrown && e.after.regs == m.regs && e.after.opcode == m.opcode &&
            WordAt(e.after.mem, addr) == result % 0x10000 &&
            forall a :: 0 <= a < Size && a != Wrap(addr) && a != Wrap(addr + 1) ==> e.after.mem[a] == m.mem[a]
  {
    var addr := m.opcode.destinationValue;
    var m1 := Store(m.mem, addr, result % 256);
    assert m1 == Store(m.mem, addr, result);
    assert Store(m1, addr + 1, (result / 256) % 256) == Store(m1, addr + 1, result / 256);
    StoreWordThenRead(m.mem, addr, result);
  }

  /** Stepping HL up and then down restores it modulo 2^16, and the registers when H and L hold bytes. */
  lemma {:induction false} HLStepsCancel(r: Regs)
    ensures var r1 := WithHL(r, (HL(r) + 1) % 0x10000);
            var r2 := WithHL(r1, (HL(r1) - 1) % 0x10000);
            HL(r1) == (HL(r) + 1) % 0x10000 && HL(r2) == HL(r) % 0x10000 &&
            (0 <= r.h < 256 && 0 <= r.l < 256 ==> r2 == r)
  {
    var hl := HL(r);
    var r1 := WithHL(r, (hl + 1) % 0x10000);
    assert HL(r1) == (hl + 1) % 0x10000 by {
      PairRoundTrip(r, (hl + 1) % 0x10000);
      ModOfMod(hl + 1, 0x10000, 1);
    }
    var d := (HL(r1) - 1) % 0x10000;
    assert d == hl % 0x10000 by {
      ModCancel(hl, 1, 0x10000);
    }
    assert WithHL(r1, d) == WithHL(r, d);
    assert HL(WithHL(r, d)) == hl % 0x10000 by {
      PairRoundTrip(r, d);
      ModOfMod(hl, 0x10000, 1);
    }
    if 0 <= r.h < 256 && 0 <= r.l < 256 {
      assert WithHL(r, d) == r by {
        HLOfBytes(r);
      }
    }
  }

  /** When H and L hold bytes, storing HL back into HL changes nothing. */
  lemma {:induction false} HLOfBytes(r: Regs)
    requires 0 <= r.h < 256 && 0 <= r.l < 256
    ensures WithHL(r, HL(r) % 0x10000) == r
  {
    var hl := HL(r);
    PairOfByte(r.h, r.l);
    DivUnique(hl, 0x10000, 0, hl);
    DivUnique(hl, 256, r.h, r.l);
  }

  /** HL+ then HL- (the post-increment and post-decrement steps) restore HL. */
  lemma {:induction false} PostIncThenPostDec(m: Machine, wide: bool, x: Option<Supplier>, y: Option<Supplier>)
    requires Sized(m)
    ensures var up := AluStep(m, PostInc, wide, x, y);
            var down := AluStep(up.after, PostDec, wide, x, y);
            !up.thrown && !down.thrown &&
            HL(up.after.regs) == (HL(m.regs) + 1) % 0x10000 &&
            HL(down.after.regs) == HL(m.regs) % 0x10000 &&
            (0 <= m.regs.h < 256 && 0 <= m.regs.l < 256 ==> down.after == m)
  {
    var up := AluStep(m, PostInc, wide, x, y);
    assert up == Effect(m.(regs := WithHL(m.regs, (HL(m.regs) + 1) % 0x10000)), false);
    var down := AluStep(up.after, PostDec, wide, x, y);
    assert down == Effect(up.after.(regs := WithHL(up.after.regs, (HL(up.after.regs) - 1) % 0x10000)), false);
    HLStepsCancel(m.regs);
  }

  /**
   * ReadImmediate8bit hands on the byte at PC (0xFF00 above it for a
   * high-RAM operand) and advances PC by one; nothing else changes.
   */
  lemma {:induction false} ImmediateRead(m: Machine, into: Slot, highRam: bool)
    requires Sized(m)
    ensures var e := ReadImmediateStep(m, into, highRam);
            var b := ByteAt(m.mem, m.regs.pc);
            !e.thrown && e.after.regs == m.regs.(pc := m.regs.pc + 1) && e.after.mem == m.mem &&
            e.after.opcode == WithSlot(m.opcode, into, if highRam then 0xFF00 + b else b)
  {
    Pow2Table();
    OrAbove(ByteAt(m.mem, m.regs.pc), 0xFF, 8);
  }

  /**
   * A byte written by WriteMemory8Bit and read back at the same address by
   * ReadMemory8Bit is the byte written, `data & 0xFF`.
   */
  lemma {:induction false} WriteThenRead(m: Machine, address: Supplier, data: Supplier, into: Slot)
    requires Sized(m)
    ensures var w := Stepped(m, WriteMemory8(address, data));
            var r := Stepped(w.after, ReadMemory8(into, address));
            !w.thrown && !r.thrown && SlotValue(r.after.opcode, into) == Supplied(m.opcode, data) % 256
  {
    var a := Supplied(m.opcode, address);
    ModOfMod(a, 0x10000, 1);
    assert Wrap(a % 0x10000) == Wrap(a);
  }

  /**
   * As written, the same write and read hand on a negative value for every
   * byte from 0x80 up: `data & 0xFF` minus 256.
   */
  lemma {:induction false} WriteThenReadAsWritten(m: Machine, address: Supplier, data: Supplier, into: Slot)
    requires Sized(m) && Supplied(m.opcode, data) % 256 >= 0x80
    ensures var w := Stepped(m, WriteMemory8(address, data));
            var r := ReadMemoryStepAsWritten(w.after, into, Some(Supplied(w.after.opcode, address)));
            SlotValue(r.after.opcode, into) == Supplied(m.opcode, data) % 256 - 256 &&
            SlotValue(r.after.opcode, into) < 0
  {
    var a := Supplied(m.opcode, address);
    ModOfMod(a, 0x10000, 1);
    assert Wrap(a % 0x10000) == Wrap(a);
  }

  /**
   * LD into a register operand stores the source masked to the register's
   * width (16 bits for a two-letter name, 8 otherwise); LD into anything
   * else stores the source's low byte at destinationValue.
   */
  lemma {:induction false} LoadMasksToWidth(m: Machine)
    requires Sized(m) && m.opcode.sourceType != Some(R8) && m.opcode.sourceType != Some(R16)
    ensures var e := LoadStep(m);
            var ds := m.opcode.destinationOperandString;
            var sv := m.opcode.sourceValue;
            (ds.Some? && ds.value in SingleNames && |ds.value| == 1 &&
             m.opcode.destinationOperand.Some? && m.opcode.destinationOperand.value.immediate ==>
               !e.thrown && Get(e.after.regs, ds.value) == Some(sv % 256) && e.after.mem == m.mem) &&
            (ds.Some? && ds.value in {"BC", "DE", "HL", "SP", "PC"} &&
             m.opcode.destinationOperand.Some? && m.opcode.destinationOperand.value.immediate ==>
               !e.thrown && Get(e.after.regs, ds.value) == Some(sv % 0x10000) && e.after.mem == m.mem) &&
            (!NamesRegister(ds) ==>
               !e.thrown && e.after == m.(mem := Store(m.mem, m.opcode.destinationValue, sv % 256)))
  {
    var ds := m.opcode.destinationOperandString;
    var sv := m.opcode.sourceValue;
    if ds.Some? && ds.value in SetterNames {
      var v := if |ds.value| > 1 then sv % 0x10000 else sv % 256;
      SetThenGet(m.regs, ds.value, v);
      if ds.value in {"BC", "DE", "HL"} {
        ModOfMod(sv, 0x10000, 1);
      }
    }
  }

  /**
   * ApplyResult masks to the register's width before storing, or stores
   * the low byte at the address the target register holds.
   */
  lemma {:induction false} AppliedResultWidths(m: Machine, result: Supplier, resultType: DataType, target: string)
    requires Sized(m)
    ensures var e := ApplyResultStep(m, result, resultType, target);
            var v := Supplied(m.opcode, result);
            (resultType == R8 && target in SingleNames ==>
               !e.thrown && Get(e.after.regs, target) == Some(v % 256)) &&
            (resultType == R16 && target in SetterNames - {"AF"} ==>
               !e.thrown && Get(e.after.regs, target) == Some(v % 0x10000)) &&
            (resultType == MEMORY && target in GetterNames ==>
               !e.thrown && e.after.regs == m.regs &&
               ByteAt(e.after.mem, Get(m.regs, target).value) == v % 256) &&
            ((resultType == R8 || resultType == R16) && target !in SetterNames ==> e.thrown && e.after == m)
  {
    var v := Supplied(m.opcode, result);
    if target in SetterNames {
      SetThenGet(m.regs, target, v % 256);
      SetThenGet(m.regs, target, v % 0x10000);
      ModOfMod(v, 0x10000, 1);
    }
  }

  /**
   * A conditional instruction: CheckCC kills the remaining operations
   * exactly when its condition fails, and CalculateCycles then charges the
   * first cycle count for a taken branch and the second otherwise.
   */
  lemma {:induction false} BranchCycles(m: Machine, condition: Condition)
    requires m.opcode.info.Some? && |m.opcode.info.value.cycles| >= 2 && !m.opcode.killRemainingOps
    ensures var checked := CheckStep(m, condition).after;
            var e := CyclesStep(checked);
            var cycles := m.opcode.info.value.cycles;
            checked.opcode.killRemainingOps == Kills(condition, m.regs) &&
            !e.thrown && e.after.opcode.realCycles == (if Kills(condition, m.regs) then cycles[1] else cycles[0])
  {
  }

  /** FlipOperands undoes itself. */
  lemma {:induction false} SwapTwice(m: Machine)
    ensures SwapStep(SwapStep(m).after).after == m
  {
  }

  /**
   * execute on a queue of one operation that does not throw leaves no
   * operations remaining; on a longer queue it leaves the flag as the
   * operation left it.
   */
  lemma {:induction false} ExecuteDrains(m: Machine, queue: seq<MicroOp>)
    requires Sized(m) && |queue| > 0
    ensures var e := Executed(m, queue);
            e.thrown == Stepped(m, queue[0]).thrown &&
            (|queue| == 1 && !e.thrown ==> !e.after.opcode.operationsRemaining) &&
            (|queue| > 1 ==> e == Stepped(m, queue[0]))
  {
  }
}
