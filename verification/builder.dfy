/**
 * The opcode builder: from the descriptor of one instruction it fills a
 * fresh Opcode with the micro-operations that carry it out and the cycle
 * count they stand for.
 *
 * The operands are decoded first (destination, then source, then the extra
 * operand of LD HL,SP+e8), then the mnemonic adds its operation, then one
 * HandleFlags is queued, and an HL+/HL- operand adds the post-increment or
 * post-decrement of HL.  The builder keeps one field of its own between
 * builds, checkIncDec, which the operand decoder sets and the post step
 * clears.
 *
 * Each stage is specified as a function on a Draft (the opcode's fields,
 * its queue and the builder's flag); the methods of class OpcodeBuilder
 * fill a real Opcode and are proved to agree with those functions.
 */
module Builder {
  import opened Wrappers
  import opened Memory
  import opened Registers
  import opened Descriptors
  import opened Cpu
  import opened MicroOps
  import opened Pipeline
  import FlagCalculator

  /** What is being built: the opcode's fields, its queue, and the builder's checkIncDec. */
  datatype Draft = Draft(state: OpcodeState, ops: seq<MicroOp>, checkIncDec: bool)

  /** A stage's result, and whether the stage threw (the draft is then as the exception left it). */
  datatype Outcome = Outcome(draft: Draft, thrown: bool)

  // ------------------------------------------------------------- names

  predicate IsBranch(mnemonic: string) {
    mnemonic in {"CALL", "JP", "JR", "RET"}
  }

  predicate IsRegister8(name: string) {
    name in {"A", "B", "C", "D", "E", "H", "L"}
  }

  predicate IsPair(name: string) {
    name in {"AF", "BC", "DE", "HL"}
  }

  predicate IsRegister16(name: string) {
    IsPair(name) || name == "SP" || name == "PC"
  }

  /** The bit-number operands "0" to "9". */
  predicate IsDigit(name: string) {
    |name| == 1 && '0' <= name[0] <= '9'
  }

  function DigitValue(name: string): (v: int)
    requires IsDigit(name)
    ensures 0 <= v <= 9
  {
    name[0] as int - '0' as int
  }

  /** The mnemonics that queue an AluOperation. */
  function AluKindOf(mnemonic: string): (k: Option<AluKind>)
    ensures k.Some? ==> k.value != PostInc && k.value != PostDec
  {
    match mnemonic
    case "ADC" => Some(Adc)
    case "ADD" => Some(Add)
    case "CP" => Some(Cp)
    case "DEC" => Some(Dec)
    case "INC" => Some(Inc)
    case "SBC" => Some(Sbc)
    case "SUB" => Some(Sub)
    case _ => None
  }

  /** The mnemonics that queue a BitwiseOperation. */
  function LogicKindOf(mnemonic: string): Option<LogicKind> {
    match mnemonic
    case "AND" => Some(LogicAnd)
    case "CPL" => Some(LogicCpl)
    case "OR" => Some(LogicOr)
    case "XOR" => Some(LogicXor)
    case _ => None
  }

  /** The mnemonics that queue a BitFlagOperation. */
  function BitFlagKindOf(mnemonic: string): Option<BitFlagKind> {
    match mnemonic
    case "RES" => Some(ResBit)
    case "SET" => Some(SetBit)
    case _ => None
  }

  /** The shift and rotate mnemonics: their operation is built but never queued. */
  predicate IsShift(mnemonic: string) {
    mnemonic in {"RL", "RLA", "RLC", "RLCA", "RR", "RRA", "RRC", "RRCA", "SLA", "SRA", "SRL", "SWAP"}
  }

  /** Every mnemonic the builder has a case for. */
  predicate Known(mnemonic: string) {
    AluKindOf(mnemonic).Some? || mnemonic == "LD" || mnemonic == "LDH" ||
    LogicKindOf(mnemonic).Some? || BitFlagKindOf(mnemonic).Some? ||
    mnemonic == "BIT" || IsShift(mnemonic) || mnemonic == "CCF" || mnemonic == "SCF"
  }

  /** The ALU steps the post-increment/decrement stage queues. */
  predicate IsPostStep(op: MicroOp) {
    op.Alu? && (op.alu == PostInc || op.alu == PostDec)
  }

  // ---------------------------------------------------- fixed sequences

  /** a16: low byte into the destination, high byte into the source, merged into the destination. */
  const AddressRead: seq<MicroOp> :=
    [ReadImmediate8(Destination, false), ReadImmediate8(Source, false),
     MergeOperands(Field(Destination), Field(Source), Destination)]

  /** n16: low byte into the source, high byte into the extra value, flipped into the source. */
  const WordRead: seq<MicroOp> :=
    [ReadImmediate8(Source, false), ReadImmediate8(Extra, false),
     FlipBytes(Field(Source), Field(Extra), Source)]

  /** e8: the offset byte into the source, then a padding cycle. */
  const OffsetRead: seq<MicroOp> := [ReadImmediate8(Source, false), EmptyCycle]

  /** The third operand of LD HL,SP+e8: a byte into the extra value, then a padding cycle. */
  const ExtraRead: seq<MicroOp> := [ReadImmediate8(Extra, false), EmptyCycle]

  /** LD (a16),SP: the low byte of the source at the address, the high byte one above. */
  const StackPointerStore: seq<MicroOp> :=
    [WriteMemory8(Field(Destination), LowByteOf(Source)),
     WriteMemory8(NextAddress(Destination), HighByteOf(Source))]

  // ------------------------------------------------------------ stages

  /** addOp on a draft. */
  function Queued(d: Draft, op: MicroOp): Draft {
    d.(state := d.state.(operationsRemaining := true), ops := d.ops + [op])
  }

  /** addOp of each operation in turn. */
  function QueuedAll(d: Draft, ops: seq<MicroOp>): Draft {
    if ops == [] then d else d.(state := d.state.(operationsRemaining := true), ops := d.ops + ops)
  }

  /**
   * A stage before HandleFlags: it keeps the queue so far and the
   * unimplemented mark, and appends neither a HandleFlags nor a post step.
   */
  predicate Grows(d: Draft, d': Draft) {
    |d.ops| <= |d'.ops| && d'.ops[..|d.ops|] == d.ops &&
    d'.state.unimplError == d.state.unimplError &&
    forall i :: |d.ops| <= i < |d'.ops| ==> !d'.ops[i].HandleFlags? && !IsPostStep(d'.ops[i])
  }

  function WithDestinationType(d: Draft, t: DataType): Draft {
    d.(state := d.state.(destinationType := Some(t)))
  }

  function WithSourceType(d: Draft, t: DataType): Draft {
    d.(state := d.state.(sourceType := Some(t)))
  }

  function WithCc(d: Draft, cc: string): Draft {
    d.(state := d.state.(cc := Some(cc)))
  }

  /** The checkIncDec mark an HL+/HL- style pair operand sets. */
  function Marked(d: Draft, operand: Operand): Draft {
    if IsPair(operand.name) && (operand.increment || operand.decrement) then d.(checkIncDec := true) else d
  }

  /** The cases the operand decoder's switch tells apart. */
  datatype NameCase =
    | ByteAddress | WordAddress | ByteImmediate | WordImmediate | Offset
    | Register8Name | Register16Name | DigitName | ConditionName | OtherName

  /** The case of an operand name. */
  function Classify(name: string): (c: NameCase)
    ensures c == Register8Name <==> IsRegister8(name)
    ensures c == Register16Name <==> IsRegister16(name)
    ensures c == DigitName <==> IsDigit(name)
  {
    if name == "a8" then ByteAddress
    else if name == "a16" then WordAddress
    else if name == "n8" then ByteImmediate
    else if name == "n16" then WordImmediate
    else if name == "e8" then Offset
    else if IsRegister8(name) then Register8Name
    else if IsRegister16(name) then Register16Name
    else if IsDigit(name) then DigitName
    else if name == "Z" || name == "NZ" || name == "NC" then ConditionName
    else OtherName
  }

  /** Under CALL/JP/JR/RET the operands "A", "B" and "C" stand for the carry condition. */
  predicate CarryCondition(mnemonic: string, name: string) {
    (name == "A" || name == "B" || name == "C") && IsBranch(mnemonic)
  }

  /**
   * handleDestinationOperand.  Under CALL/JP/JR/RET an "A", "B" or "C"
   * operand is the carry condition "C" and reads no register; otherwise
   * an 8-bit register name is read into the destination value.
   */
  function DestinationDraft(d: Draft, mnemonic: string, operand: Operand): Draft {
    var name := operand.name;
    DestinationCase(d.(state := d.state.(destinationOperandString := Some(name), destinationOperand := Some(operand))),
                    mnemonic, operand)
  }

  /** The switch of handleDestinationOperand, once the operand is recorded. */
  function DestinationCase(d: Draft, mnemonic: string, operand: Operand): Draft {
    var name := operand.name;
    match Classify(name)
    case ByteAddress => Queued(WithDestinationType(d, A8), ReadImmediate8(Destination, true))
    case WordAddress => QueuedAll(WithDestinationType(d, N16), AddressRead)
    case Register8Name =>
      if CarryCondition(mnemonic, name) then WithCc(d, "C")
      else Queued(WithDestinationType(d, if operand.immediate then R8 else A8), ReadRegister8(Destination, name))
    case Register16Name =>
      Queued(WithDestinationType(Marked(d, operand), if operand.immediate then R16 else N16),
             ReadRegister16(Destination, name))
    case DigitName => d.(state := d.state.(destinationValue := DigitValue(name)))
    case ConditionName => WithCc(d, name)
    case _ => d
  }

  /**
   * handleSourceOperand.  An a16 source is read into the destination, as
   * for an a16 destination; under INC/DEC an 8-bit register source is read
   * into the destination value.
   */
  function SourceDraft(d: Draft, mnemonic: string, operand: Operand): Draft {
    var name := operand.name;
    SourceCase(d.(state := d.state.(sourceOperandString := Some(name), sourceOperand := Some(operand))),
               mnemonic, operand)
  }

  /** The switch of handleSourceOperand, once the operand is recorded. */
  function SourceCase(d: Draft, mnemonic: string, operand: Operand): Draft {
    var name := operand.name;
    match Classify(name)
    case ByteImmediate => Queued(WithSourceType(d, A8), ReadImmediate8(Source, false))
    case ByteAddress => Queued(WithSourceType(d, A8), ReadImmediate8(Source, true))
    case WordImmediate => QueuedAll(WithSourceType(d, N16), WordRead)
    case WordAddress => QueuedAll(WithDestinationType(d, N16), AddressRead)
    case Offset => QueuedAll(WithSourceType(d, E8), OffsetRead)
    case Register8Name =>
      Queued(WithSourceType(d, R8),
             ReadRegister8(if mnemonic == "INC" || mnemonic == "DEC" then Destination else Source, name))
    case Register16Name => Queued(WithSourceType(Marked(d, operand), R16), ReadRegister16(Source, name))
    case _ => d
  }

  /** buildMicroOpsFromOperands: destination, source, then the extra operand. */
  function OperandsDraft(d: Draft, info: OpcodeInfo): Draft {
    var operands := info.operands;
    var d1 := if |operands| > 0 then DestinationDraft(d, info.mnemonic, operands[0]) else d;
    var d2 := if |operands| > 1 then SourceDraft(d1, info.mnemonic, operands[1]) else d1;
    if |operands| > 2 then QueuedAll(d2, ExtraRead) else d2
  }

  /**
   * `new AluOperation(kind, opcode, getDestinationValue, getSourceValue)`:
   * the constructor fixes the width from the destination type, so a draft
   * without one throws.
   */
  function AluQueued(d: Draft, kind: AluKind): Outcome {
    var t := d.state.destinationType;
    if t.None? then Outcome(d, true)
    else Outcome(Queued(d, Alu(kind, t.value == R16 || t.value == N16, Some(Field(Destination)), Some(Field(Source)))), false)
  }

  /**
   * buildOpsFromMnemonics.  LD (a16),SP (opcode 0x08) stores the source
   * as two byte writes; BIT, CCF and SCF queue nothing (the flags do the
   * work), nor do the shifts; any other unknown mnemonic marks the opcode
   * unimplemented.
   */
  function MnemonicDraft(d: Draft, info: OpcodeInfo): (r: Outcome)
    ensures |d.ops| <= |r.draft.ops| && r.draft.ops[..|d.ops|] == d.ops
    ensures forall i :: |d.ops| <= i < |r.draft.ops| ==> !r.draft.ops[i].HandleFlags? && !IsPostStep(r.draft.ops[i])
    ensures r.draft.checkIncDec == d.checkIncDec
    ensures r.draft.state.unimplError <==> d.state.unimplError || (!r.thrown && !Known(info.mnemonic))
  {
    var m := info.mnemonic;
    if AluKindOf(m).Some? then AluQueued(d, AluKindOf(m).value)
    else if m == "LD" || m == "LDH" then
      Outcome(if info.opcode == 0x08 then QueuedAll(d, StackPointerStore) else Queued(d, Load), false)
    else if LogicKindOf(m).Some? then
      Outcome(Queued(d, Bitwise(LogicKindOf(m).value, Some(Field(Source)))), false)
    else if BitFlagKindOf(m).Some? then
      Outcome(Queued(d, BitFlag(BitFlagKindOf(m).value, Some(Field(Destination)), Some(Field(Source)))), false)
    else if m == "BIT" || IsShift(m) || m == "CCF" || m == "SCF" then
      Outcome(d, false)
    else
      Outcome(d.(state := d.state.(unimplError := true)), false)
  }

  /** One operand's post step: POST_INC for a "+" operand, POST_DEC for a "-" one. */
  function PostQueued(d: Draft, operand: Operand): (r: Outcome)
  ensures r.draft.checkIncDec == d.checkIncDec && r.draft.state.unimplError == d.state.unimplError
  ensures |d.ops| <= |r.draft.ops| && r.draft.ops[..|d.ops|] == d.ops
  ensures forall i :: |d.ops| <= i < |r.draft.ops| ==> IsPostStep(r.draft.ops[i])
  ensures !r.thrown ==> |r.draft.ops| == |d.ops| + (if operand.increment || operand.decrement then 1 else 0)
{
    if operand.increment then AluQueued(d, PostInc)
    else if operand.decrement then AluQueued(d, PostDec)
    else Outcome(d, false)
  }

  /** How many of the first two operands carry a "+" or "-" mark. */
  function MarkCount(operands: seq<Operand>): (n: nat)
    ensures n <= 2
  {
    (if |operands| > 0 && (operands[0].increment || operands[0].decrement) then 1 else 0) +
    (if |operands| > 1 && (operands[1].increment || operands[1].decrement) then 1 else 0)
  }

  /**
   * handlePostIncDec: clear checkIncDec, then one post step for the first
   * operand and one for the second.  Reading the first operand of an
   * empty operand list throws.
   */
  function PostIncDecDraft(d: Draft, operands: seq<Operand>): (r: Outcome)
    ensures !r.draft.checkIncDec
    ensures |d.ops| <= |r.draft.ops| && r.draft.ops[..|d.ops|] == d.ops
    ensures forall i :: |d.ops| <= i < |r.draft.ops| ==> IsPostStep(r.draft.ops[i])
    ensures r.draft.state.unimplError == d.state.unimplError
    ensures |operands| == 0 ==> r.thrown
    ensures !r.thrown ==> |r.draft.ops| == |d.ops| + MarkCount(operands)
  {
    var d := d.(checkIncDec := false);
    if |operands| == 0 then Outcome(d, true)
    else
      var first := PostQueued(d, operands[0]);
      if first.thrown || |operands| == 1 then first
      else PostQueued(first.draft, operands[1])
  }

  /** The cycles of a queue: getCycles summed over it. */
  function SumCycles(ops: seq<MicroOp>): (n: nat)
    ensures n <= 2 * |ops|
  {
    if ops == [] then 0 else SumCycles(ops[..|ops| - 1]) + Cycles(ops[|ops| - 1])
  }

  /** The opcode as build finds it: fetchedAt and the descriptor set, nothing queued. */
  function Start(checkIncDec: bool, info: Option<OpcodeInfo>, fetchedAt: int): Draft {
    Draft(Blank.(fetchedAt := fetchedAt, info := info), [], checkIncDec)
  }

  /** The operand and mnemonic stages together, on a found descriptor. */
  function BodyOutcome(checkIncDec: bool, info: OpcodeInfo, fetchedAt: int): Outcome {
    MnemonicDraft(OperandsDraft(Start(checkIncDec, Some(info), fetchedAt), info), info)
  }

  /**
   * build on a table: a descriptor the table lacks throws at the first
   * operand access; otherwise operands, mnemonic, HandleFlags, the post
   * step when checkIncDec is set, and cyclesConsumed is one more than the
   * queue's cycles.
   */
  function Built(checkIncDec: bool, table: map<int, OpcodeInfo>, fetchedAt: int, opcode: int): Outcome {
    match Lookup(table, opcode)
    case None => Outcome(Start(checkIncDec, None, fetchedAt), true)
    case Some(info) =>
      var body := BodyOutcome(checkIncDec, info, fetchedAt);
      if body.thrown then body else Finished(body.draft, info)
  }

  /** What build does once the operands and the mnemonic are handled: flags, post steps, cycles. */
  function Finished(body: Draft, info: OpcodeInfo): Outcome {
    var flagged := Queued(body, HandleFlags(info, Field(Destination), Field(Source)));
    var post := if flagged.checkIncDec then PostIncDecDraft(flagged, info.operands) else Outcome(flagged, false);
    if post.thrown then post
    else Outcome(post.draft.(state := post.draft.state.(cyclesConsumed := 1 + SumCycles(post.draft.ops))), false)
  }

  lemma GrowsTrans(d1: Draft, d2: Draft, d3: Draft)
    requires Grows(d1, d2) && Grows(d2, d3)
    ensures Grows(d1, d3)
  {
    assert d3.ops[..|d1.ops|] == d3.ops[..|d2.ops|][..|d1.ops|];
  }

  // -------------------------------------------------------------- class

  class OpcodeBuilder {
    var checkIncDec: bool
    const unprefixed: map<int, OpcodeInfo>
    const cbprefixed: map<int, OpcodeInfo>

    /** The builder over the two instruction tables; checkIncDec starts false. */
    constructor(unprefixed: map<int, OpcodeInfo>, cbprefixed: map<int, OpcodeInfo>)
      ensures this.unprefixed == unprefixed && this.cbprefixed == cbprefixed && !checkIncDec
    {
      this.unprefixed := unprefixed;
      this.cbprefixed := cbprefixed;
      checkIncDec := false;
    }

    /** The opcode being built, as a draft. */
    function Current(o: Opcode): Draft
      reads this, o
    {
      Draft(o.State(), o.microOps, checkIncDec)
    }

    /**
     * build: a new Opcode for the opcode byte, looked up in the CB-prefixed
     * table or the unprefixed one.
     */
    method Build(fetchedAt: int, opcode: int, isPrefixed: bool) returns (o: Opcode, thrown: bool)
      modifies this
      ensures fresh(o)
      ensures Outcome(Current(o), thrown) ==
              Built(old(checkIncDec), if isPrefixed then cbprefixed else unprefixed, fetchedAt, opcode)
    {
      o := new Opcode();
      o.SetFetchedAt(fetchedAt);
      var info := Lookup(if isPrefixed then cbprefixed else unprefixed, opcode);
      o.SetOpcodeInfo(info);
      if info.None? {
        // buildMicroOpsFromOperands reads the operands of the missing descriptor
        return o, true;
      }
      assert Current(o) == Start(checkIncDec, info, fetchedAt);
      BuildFromOperands(o, info.value);
      thrown := BuildFromMnemonic(o, info.value);
      if thrown {
        return;
      }
      thrown := Finish(o, info.value);
    }

    /** The end of build: queue the flag step, the post steps when armed, and count the cycles. */
    method Finish(o: Opcode, info: OpcodeInfo) returns (thrown: bool)
      modifies this, o
      ensures Outcome(Current(o), thrown) == Finished(old(Current(o)), info)
    {
      o.AddOp(HandleFlags(info, Field(Destination), Field(Source)));
      if checkIncDec {
        thrown := HandlePostIncDec(o, info);
        if thrown {
          return;
        }
      } else {
        thrown := false;
      }
      ghost var post := Current(o);
      var cycles := CalculateCycles(o);
      o.SetCyclesConsumed(1 + cycles);
      assert Current(o) == post.(state := post.state.(cyclesConsumed := 1 + SumCycles(post.ops)));
    }

    /** buildMicroOpsFromOperands. */
    method BuildFromOperands(o: Opcode, info: OpcodeInfo)
      modifies this, o
      ensures Current(o) == OperandsDraft(old(Current(o)), info)
    {
      var operands := info.operands;
      if |operands| > 0 {
        HandleDestinationOperand(o, info.mnemonic, operands[0]);
      }
      if |operands| > 1 {
        HandleSourceOperand(o, info.mnemonic, operands[1]);
      }
      if |operands| > 2 {
        o.AddOp(ReadImmediate8(Extra, false));
        o.AddOp(EmptyCycle);
      }
    }

    /** handleDestinationOperand. */
    method HandleDestinationOperand(o: Opcode, mnemonic: string, operand: Operand)
      modifies this, o
      ensures Current(o) == DestinationDraft(old(Current(o)), mnemonic, operand)
    {
      var name := operand.name;
      o.SetDestinationOperandString(Some(name));
      o.SetDestinationOperand(Some(operand));
      DecodeDestination(o, mnemonic, operand);
    }

    /** The switch of handleDestinationOperand. */
    method DecodeDestination(o: Opcode, mnemonic: string, operand: Operand)
      modifies this, o
      ensures Current(o) == DestinationCase(old(Current(o)), mnemonic, operand)
    {
      var name := operand.name;
      match Classify(name)
      case ByteAddress =>
        o.SetDestinationType(Some(A8));
        o.AddOp(ReadImmediate8(Destination, true));
      case WordAddress =>
        o.SetDestinationType(Some(N16));
        AddThree(o, ReadImmediate8(Destination, false), ReadImmediate8(Source, false), MergeOperands(Field(Destination), Field(Source), Destination));
      case Register8Name =>
        if CarryCondition(mnemonic, name) {
          o.SetCc(Some("C"));
        } else {
          o.SetDestinationType(Some(if operand.immediate then R8 else A8));
          o.AddOp(ReadRegister8(Destination, name));
        }
      case Register16Name =>
        if IsPair(name) && (operand.increment || operand.decrement) {
          checkIncDec := true;
        }
        o.SetDestinationType(Some(if operand.immediate then R16 else N16));
        o.AddOp(ReadRegister16(Destination, name));
      case DigitName =>
        o.SetDestinationValue(DigitValue(name));
      case ConditionName =>
        o.SetCc(Some(name));
      case _ =>
    }

    /** handleSourceOperand. */
    method HandleSourceOperand(o: Opcode, mnemonic: string, operand: Operand)
      modifies this, o
      ensures Current(o) == SourceDraft(old(Current(o)), mnemonic, operand)
    {
      var name := operand.name;
      o.SetSourceOperandString(Some(name));
      o.SetSourceOperand(Some(operand));
      DecodeSource(o, mnemonic, operand);
    }

    /** Three addOp calls in a row. */
    method AddThree(o: Opcode, x: MicroOp, y: MicroOp, z: MicroOp)
      modifies o
      ensures o.microOps == old(o.microOps) + [x, y, z]
      ensures o.State() == old(o.State()).(operationsRemaining := true)
    {
      o.AddOp(x);
      o.AddOp(y);
      o.AddOp(z);
    }

    /** The switch of handleSourceOperand. */
    method DecodeSource(o: Opcode, mnemonic: string, operand: Operand)
      modifies this, o
      ensures Current(o) == SourceCase(old(Current(o)), mnemonic, operand)
    {
      var name := operand.name;
      match Classify(name)
      case ByteImmediate =>
        o.SetSourceType(Some(A8));
        o.AddOp(ReadImmediate8(Source, false));
      case ByteAddress =>
        o.SetSourceType(Some(A8));
        o.AddOp(ReadImmediate8(Source, true));
      case WordImmediate =>
        o.SetSourceType(Some(N16));
        AddThree(o, ReadImmediate8(Source, false), ReadImmediate8(Extra, false), FlipBytes(Field(Source), Field(Extra), Source));
      case WordAddress =>
        o.SetDestinationType(Some(N16));
        AddThree(o, ReadImmediate8(Destination, false), ReadImmediate8(Source, false), MergeOperands(Field(Destination), Field(Source), Destination));
      case Offset =>
        o.SetSourceType(Some(E8));
        o.AddOp(ReadImmediate8(Source, false));
        o.AddOp(EmptyCycle);
      case Register8Name =>
        o.SetSourceType(Some(R8));
        if mnemonic == "INC" || mnemonic == "DEC" {
          o.AddOp(ReadRegister8(Destination, name));
        } else {
          o.AddOp(ReadRegister8(Source, name));
        }
      case Register16Name =>
        if IsPair(name) && (operand.increment || operand.decrement) {
          checkIncDec := true;
        }
        o.SetSourceType(Some(R16));
        o.AddOp(ReadRegister16(Source, name));
      case _ =>
    }

    /** `new AluOperation(kind, opcode, ...)` queued; throws when the destination type is null. */
    method QueueAlu(o: Opcode, kind: AluKind) returns (thrown: bool)
      modifies o
      ensures Outcome(Current(o), thrown) == AluQueued(old(Current(o)), kind)
    {
      if o.destinationType.None? {
        return true;
      }
      var t := o.destinationType.value;
      o.AddOp(Alu(kind, t == R16 || t == N16, Some(Field(Destination)), Some(Field(Source))));
      thrown := false;
    }

    /** buildOpsFromMnemonics. */
    method BuildFromMnemonic(o: Opcode, info: OpcodeInfo) returns (thrown: bool)
      modifies o
      ensures Outcome(Current(o), thrown) == MnemonicDraft(old(Current(o)), info)
    {
      var m := info.mnemonic;
      thrown := false;
      if AluKindOf(m).Some? {
        thrown := QueueAlu(o, AluKindOf(m).value);
      } else if m == "LD" || m == "LDH" {
        if info.opcode == 0x08 {
          o.AddOp(WriteMemory8(Field(Destination), LowByteOf(Source)));
          o.AddOp(WriteMemory8(NextAddress(Destination), HighByteOf(Source)));
        } else {
          o.AddOp(Load);
        }
      } else if LogicKindOf(m).Some? {
        o.AddOp(Bitwise(LogicKindOf(m).value, Some(Field(Source))));
      } else if BitFlagKindOf(m).Some? {
        o.AddOp(BitFlag(BitFlagKindOf(m).value, Some(Field(Destination)), Some(Field(Source))));
      } else if m == "BIT" || IsShift(m) || m == "CCF" || m == "SCF" {
      } else {
        o.SetUnimplError(true);
      }
    }

    /** One operand's post step. */
    method QueuePost(o: Opcode, operand: Operand) returns (thrown: bool)
      modifies o
      ensures Outcome(Current(o), thrown) == PostQueued(old(Current(o)), operand)
    {
      thrown := false;
      if operand.increment {
        thrown := QueueAlu(o, PostInc);
      } else if operand.decrement {
        thrown := QueueAlu(o, PostDec);
      }
    }

    /** handlePostIncDec. */
    method HandlePostIncDec(o: Opcode, info: OpcodeInfo) returns (thrown: bool)
      modifies this, o
      ensures Outcome(Current(o), thrown) == PostIncDecDraft(old(Current(o)), info.operands)
    {
      var operands := info.operands;
      checkIncDec := false;
      if |operands| == 0 {
        return true;
      }
      thrown := QueuePost(o, operands[0]);
      if thrown || |operands| == 1 {
        return;
      }
      thrown := QueuePost(o, operands[1]);
    }

    /** calculateCycles: getCycles summed over the queue. */
    method CalculateCycles(o: Opcode) returns (cycles: int)
      ensures cycles == SumCycles(o.microOps)
    {
      var ops := o.microOps;
      cycles := 0;
      var i := 0;
      while i < |ops|
        invariant 0 <= i <= |ops|
        invariant cycles == SumCycles(ops[..i])
      {
        assert ops[..i + 1][..i] == ops[..i];
        cycles := cycles + Cycles(ops[i]);
        i := i + 1;
      }
      assert ops[..i] == ops;
    }
  }

  // --------------------------------------------------------- execution

  /** The operations of a queue run one after another, stopping at the first that throws. */
  function RunInOrder(m: Machine, ops: seq<MicroOp>): (e: Effect)
    requires Sized(m)
    ensures Sized(e.after)
    decreases |ops|
  {
    if ops == [] then Effect(m, false)
    else
      var e := Stepped(m, ops[0]);
      if e.thrown then e else RunInOrder(e.after, ops[1..])
  }

  // ----------------------------------------------------------- lemmas

  /** Running two queues back to back is running the first, then (if it did not throw) the second. */
  lemma {:induction false} RunInOrderAppend(m: Machine, a: seq<MicroOp>, b: seq<MicroOp>)
    requires Sized(m)
    ensures var e := RunInOrder(m, a);
            RunInOrder(m, a + b) == if e.thrown then e else RunInOrder(e.after, b)
    decreases |a|
  {
    if a == [] {
      assert a + b == b;
    } else {
      assert (a + b)[0] == a[0];
      assert (a + b)[1..] == a[1..] + b;
      var e := Stepped(m, a[0]);
      if !e.thrown {
        RunInOrderAppend(e.after, a[1..], b);
      }
    }
  }

  /** The cycles of two queues back to back add up. */
  lemma {:induction false} SumCyclesAppend(a: seq<MicroOp>, b: seq<MicroOp>)
    ensures SumCycles(a + b) == SumCycles(a) + SumCycles(b)
    decreases |b|
  {
    if b == [] {
      assert a + b == a;
    } else {
      var b' := b[..|b| - 1];
      assert (a + b)[..|a + b| - 1] == a + b';
      assert (a + b)[|a + b| - 1] == b[|b| - 1];
      SumCyclesAppend(a, b');
    }
  }

  /** Appending operations that are neither HandleFlags nor a post step is a growing stage. */
  lemma QueuedAllGrows(d: Draft, ops: seq<MicroOp>)
    requires forall i :: 0 <= i < |ops| ==> !ops[i].HandleFlags? && !IsPostStep(ops[i])
    ensures Grows(d, QueuedAll(d, ops))
  {
    if ops != [] {
      var r := QueuedAll(d, ops);
      assert r.ops[..|d.ops|] == d.ops;
      assert forall i :: |d.ops| <= i < |r.ops| ==> r.ops[i] == ops[i - |d.ops|];
    }
  }

  lemma QueuedGrows(d: Draft, op: MicroOp)
    requires !op.HandleFlags? && !IsPostStep(op)
    ensures Grows(d, Queued(d, op))
  {
    assert Queued(d, op) == QueuedAll(d, [op]);
    QueuedAllGrows(d, [op]);
  }

  /**
   * Decoding the destination operand only appends reads (never the flag
   * step or a post step) and leaves the unimplemented mark alone.
   */
  lemma {:induction false} DestinationGrows(d: Draft, mnemonic: string, operand: Operand)
    ensures Grows(d, DestinationDraft(d, mnemonic, operand))
  {
    var name := operand.name;
    var d1 := d.(state := d.state.(destinationOperandString := Some(name), destinationOperand := Some(operand)));
    assert Grows(d, d1) by { assert d1.ops[..|d.ops|] == d.ops; }
    var c := Classify(name);
    if c.Register8Name? || c.Register16Name? {
      DestinationRegisterGrows(d1, mnemonic, operand);
    } else {
      DestinationOtherGrows(d1, mnemonic, operand);
    }
    GrowsTrans(d, d1, DestinationCase(d1, mnemonic, operand));
  }

  /** A register destination appends one register read, or nothing for the carry condition. */
  lemma {:induction false} DestinationRegisterGrows(d: Draft, mnemonic: string, operand: Operand)
    requires Classify(operand.name).Register8Name? || Classify(operand.name).Register16Name?
    ensures Grows(d, DestinationCase(d, mnemonic, operand))
  {
    var name := operand.name;
    if Classify(name).Register8Name? {
      if !CarryCondition(mnemonic, name) {
        QueuedGrows(WithDestinationType(d, if operand.immediate then R8 else A8), ReadRegister8(Destination, name));
      } else {
        assert DestinationCase(d, mnemonic, operand).ops[..|d.ops|] == d.ops;
      }
    } else {
      QueuedGrows(WithDestinationType(Marked(d, operand), if operand.immediate then R16 else N16),
                  ReadRegister16(Destination, name));
    }
  }

  /** Any other destination appends an immediate read or nothing. */
  lemma {:induction false} DestinationOtherGrows(d: Draft, mnemonic: string, operand: Operand)
    requires !Classify(operand.name).Register8Name? && !Classify(operand.name).Register16Name?
    ensures Grows(d, DestinationCase(d, mnemonic, operand))
  {
    var name := operand.name;
    match Classify(name) {
      case ByteAddress => QueuedGrows(WithDestinationType(d, A8), ReadImmediate8(Destination, true));
      case WordAddress => QueuedAllGrows(WithDestinationType(d, N16), AddressRead);
      case DigitName => assert DestinationCase(d, mnemonic, operand).ops == d.ops;
      case ConditionName => assert DestinationCase(d, mnemonic, operand).ops == d.ops;
      case ByteImmediate => assert DestinationCase(d, mnemonic, operand).ops == d.ops;
      case WordImmediate => assert DestinationCase(d, mnemonic, operand).ops == d.ops;
      case Offset => assert DestinationCase(d, mnemonic, operand).ops == d.ops;
      case OtherName => assert DestinationCase(d, mnemonic, operand).ops == d.ops;
    }
  }

  /** Decoding the source operand only appends reads, like the destination. */
  lemma {:induction false} SourceGrows(d: Draft, mnemonic: string, operand: Operand)
    ensures Grows(d, SourceDraft(d, mnemonic, operand))
  {
    var name := operand.name;
    var d1 := d.(state := d.state.(sourceOperandString := Some(name), sourceOperand := Some(operand)));
    assert Grows(d, d1) by { assert d1.ops[..|d.ops|] == d.ops; }
    var c := Classify(name);
    if c.Register8Name? || c.Register16Name? {
      SourceRegisterGrows(d1, mnemonic, operand);
    } else {
      SourceOtherGrows(d1, mnemonic, operand);
    }
    GrowsTrans(d, d1, SourceCase(d1, mnemonic, operand));
  }

  /** A register source appends one register read. */
  lemma {:induction false} SourceRegisterGrows(d: Draft, mnemonic: string, operand: Operand)
    requires Classify(operand.name).Register8Name? || Classify(operand.name).Register16Name?
    ensures Grows(d, SourceCase(d, mnemonic, operand))
  {
    var name := operand.name;
    if Classify(name).Register8Name? {
      QueuedGrows(WithSourceType(d, R8),
                  ReadRegister8(if mnemonic == "INC" || mnemonic == "DEC" then Destination else Source, name));
    } else {
      QueuedGrows(WithSourceType(Marked(d, operand), R16), ReadRegister16(Source, name));
    }
  }

  /** Any other source appends immediate reads or nothing. */
  lemma {:induction false} SourceOtherGrows(d: Draft, mnemonic: string, operand: Operand)
    requires !Classify(operand.name).Register8Name? && !Classify(operand.name).Register16Name?
    ensures Grows(d, SourceCase(d, mnemonic, operand))
  {
    var name := operand.name;
    match Classify(name) {
      case ByteImmediate => QueuedGrows(WithSourceType(d, A8), ReadImmediate8(Source, false));
      case ByteAddress => QueuedGrows(WithSourceType(d, A8), ReadImmediate8(Source, true));
      case WordImmediate => QueuedAllGrows(WithSourceType(d, N16), WordRead);
      case WordAddress => QueuedAllGrows(WithDestinationType(d, N16), AddressRead);
      case Offset => QueuedAllGrows(WithSourceType(d, E8), OffsetRead);
      case DigitName => assert SourceCase(d, mnemonic, operand).ops == d.ops;
      case ConditionName => assert SourceCase(d, mnemonic, operand).ops == d.ops;
      case OtherName => assert SourceCase(d, mnemonic, operand).ops == d.ops;
    }
  }

  /** All of buildMicroOpsFromOperands only appends reads. */
  lemma {:induction false} OperandsGrow(d: Draft, info: OpcodeInfo)
    ensures Grows(d, OperandsDraft(d, info))
  {
    var operands := info.operands;
    var d1 := if |operands| > 0 then DestinationDraft(d, info.mnemonic, operands[0]) else d;
    var d2 := if |operands| > 1 then SourceDraft(d1, info.mnemonic, operands[1]) else d1;
    var d3 := if |operands| > 2 then QueuedAll(d2, ExtraRead) else d2;
    assert Grows(d, d) by { assert d.ops[..|d.ops|] == d.ops; }
    if |operands| > 0 { DestinationGrows(d, info.mnemonic, operands[0]); }
    if |operands| > 1 { SourceGrows(d1, info.mnemonic, operands[1]); }
    assert Grows(d1, d1) by { assert d1.ops[..|d1.ops|] == d1.ops; }
    GrowsTrans(d, d1, d2);
    if |operands| > 2 { QueuedAllGrows(d2, ExtraRead); }
    assert Grows(d2, d2) by { assert d2.ops[..|d2.ops|] == d2.ops; }
    GrowsTrans(d, d2, d3);
  }

  /** The queue of a built opcode splits at position k into reads and the mnemonic's work, the flag step, and post steps. */
  predicate FlagsSplit(ops: seq<MicroOp>, info: OpcodeInfo, k: int) {
    0 <= k < |ops| && ops[k] == HandleFlags(info, Field(Destination), Field(Source)) &&
    (forall i :: 0 <= i < k ==> !ops[i].HandleFlags? && !IsPostStep(ops[i])) &&
    (forall i :: k < i < |ops| ==> IsPostStep(ops[i]))
  }

  /** Neither a HandleFlags nor a post step. */
  predicate BodyOps(ops: seq<MicroOp>) {
    forall i :: 0 <= i < |ops| ==> !ops[i].HandleFlags? && !IsPostStep(ops[i])
  }

  /** The operand and mnemonic stages queue neither the flag step nor a post step. */
  lemma {:induction false} BodyIsClean(checkIncDec: bool, info: OpcodeInfo, fetchedAt: int)
    ensures BodyOps(BodyOutcome(checkIncDec, info, fetchedAt).draft.ops)
  {
    var start := Start(checkIncDec, Some(info), fetchedAt);
    var operands := OperandsDraft(start, info);
    OperandsGrow(start, info);
    var body := MnemonicDraft(operands, info).draft;
    forall i | 0 <= i < |body.ops|
      ensures !body.ops[i].HandleFlags? && !IsPostStep(body.ops[i])
    {
      if i < |operands.ops| {
        assert body.ops[..|operands.ops|] == operands.ops;
        assert body.ops[i] == operands.ops[i];
      }
    }
  }

  /**
   * After a clean body: the flag step, then (with checkIncDec set) the post
   * steps; the queue splits at the flag step, checkIncDec ends clear, and
   * nothing after the body costs a cycle.
   */
  lemma {:induction false} TailAfterBody(body: Draft, info: OpcodeInfo)
    requires BodyOps(body.ops)
    ensures var flagged := Queued(body, HandleFlags(info, Field(Destination), Field(Source)));
            var post := if flagged.checkIncDec then PostIncDecDraft(flagged, info.operands) else Outcome(flagged, false);
            !post.thrown ==>
              FlagsSplit(post.draft.ops, info, |body.ops|) &&
              |post.draft.ops| == |body.ops| + 1 + (if body.checkIncDec then MarkCount(info.operands) else 0) &&
              !post.draft.checkIncDec &&
              SumCycles(post.draft.ops) == SumCycles(body.ops)
  {
    var flagged := Queued(body, HandleFlags(info, Field(Destination), Field(Source)));
    var post := if flagged.checkIncDec then PostIncDecDraft(flagged, info.operands) else Outcome(flagged, false);
    if !post.thrown {
      var ops := post.draft.ops;
      var k := |body.ops|;
      assert |flagged.ops| == k + 1;
      if flagged.checkIncDec {
        assert |ops| == k + 1 + MarkCount(info.operands);
      } else {
        assert ops == flagged.ops;
      }
      assert ops[..k + 1] == body.ops + [HandleFlags(info, Field(Destination), Field(Source))];
      SplitAtFlag(body.ops, ops, info);
    }
  }

  /**
   * A queue made of a clean body, the flag step and post steps splits at
   * the flag step and costs what the body costs.
   */
  lemma {:induction false} SplitAtFlag(body: seq<MicroOp>, ops: seq<MicroOp>, info: OpcodeInfo)
    requires BodyOps(body) && |body| < |ops|
    requires ops[..|body| + 1] == body + [HandleFlags(info, Field(Destination), Field(Source))]
    requires forall i :: |body| + 1 <= i < |ops| ==> IsPostStep(ops[i])
    ensures FlagsSplit(ops, info, |body|)
    ensures SumCycles(ops) == SumCycles(body)
  {
    var k := |body|;
    assert ops[k] == ops[..k + 1][k];
    forall i | 0 <= i < k
      ensures !ops[i].HandleFlags? && !IsPostStep(ops[i])
    {
      assert ops[i] == ops[..k + 1][i] == body[i];
    }
    var tail := ops[k + 1..];
    forall i | 0 <= i < |tail|
      ensures IsPostStep(tail[i])
    {
      assert tail[i] == ops[k + 1 + i];
    }
    assert ops == body + ([ops[k]] + tail) by {
      assert ops == ops[..k + 1] + tail;
    }
    FlagAndPostStepsAreFree(body, ops[k], tail);
  }

  /** A flag step followed by post steps adds no cycles to a queue. */
  lemma {:induction false} FlagAndPostStepsAreFree(ops: seq<MicroOp>, flags: MicroOp, tail: seq<MicroOp>)
    requires flags.HandleFlags?
    requires forall i :: 0 <= i < |tail| ==> IsPostStep(tail[i])
    ensures SumCycles(ops + ([flags] + tail)) == SumCycles(ops)
  {
    SumCyclesAppend(ops, [flags] + tail);
    SumCyclesAppend([flags], tail);
    PostStepsCostNothing(tail);
    assert SumCycles([flags]) == 0 by { assert [flags][..0] == []; }
  }

  /**
   * A build that does not throw queues exactly one HandleFlags, after
   * every operand and mnemonic operation; only POST_INC/POST_DEC follow
   * it, one per marked operand among the first two when checkIncDec was
   * set, and checkIncDec ends clear.  The flag step and the post steps
   * cost nothing, so cyclesConsumed is one more than the cycles of what
   * comes before the flag step.
   */
  lemma {:induction false} FlagsQueuedOnce(checkIncDec: bool, table: map<int, OpcodeInfo>, fetchedAt: int, opcode: int)
    requires !Built(checkIncDec, table, fetchedAt, opcode).thrown
    ensures opcode in table
    ensures var info := table[opcode];
            var body := BodyOutcome(checkIncDec, info, fetchedAt).draft;
            var r := Built(checkIncDec, table, fetchedAt, opcode).draft;
            FlagsSplit(r.ops, info, |body.ops|) &&
            |r.ops| == |body.ops| + 1 + (if body.checkIncDec then MarkCount(info.operands) else 0) &&
            !r.checkIncDec &&
            r.state.cyclesConsumed == 1 + SumCycles(body.ops)
  {
    var info := table[opcode];
    var body := BodyOutcome(checkIncDec, info, fetchedAt);
    assert !body.thrown && Built(checkIncDec, table, fetchedAt, opcode) == Finished(body.draft, info);
    BodyIsClean(checkIncDec, info, fetchedAt);
    FinishedAfterBody(body.draft, info);
  }

  /** TailAfterBody, read off the end of build. */
  lemma {:induction false} FinishedAfterBody(body: Draft, info: OpcodeInfo)
    requires BodyOps(body.ops)
    ensures var r := Finished(body, info);
            !r.thrown ==>
              FlagsSplit(r.draft.ops, info, |body.ops|) &&
              |r.draft.ops| == |body.ops| + 1 + (if body.checkIncDec then MarkCount(info.operands) else 0) &&
              !r.draft.checkIncDec &&
              r.draft.state.cyclesConsumed == 1 + SumCycles(body.ops)
  {
    TailAfterBody(body, info);
  }

  /** POST_INC and POST_DEC take no cycles. */
  lemma {:induction false} PostStepsCostNothing(ops: seq<MicroOp>)
    requires forall i :: 0 <= i < |ops| ==> IsPostStep(ops[i])
    ensures SumCycles(ops) == 0
    decreases |ops|
  {
    if ops != [] {
      PostStepsCostNothing(ops[..|ops| - 1]);
    }
  }

  /**
   * A build that does not throw marks the opcode unimplemented exactly
   * when the builder has no case for its mnemonic.
   */
  lemma {:induction false} UnimplementedIffUnknown(checkIncDec: bool, table: map<int, OpcodeInfo>, fetchedAt: int, opcode: int)
    requires !Built(checkIncDec, table, fetchedAt, opcode).thrown
    ensures opcode in table
    ensures Built(checkIncDec, table, fetchedAt, opcode).draft.state.unimplError <==> !Known(table[opcode].mnemonic)
  {
    var info := table[opcode];
    OperandsGrow(Start(checkIncDec, Some(info), fetchedAt), info);
  }

  /**
   * An ALU mnemonic throws exactly when the operands left no destination
   * type; otherwise the one operation it queues is 16 bits wide exactly
   * for an R16 or N16 destination.
   */
  lemma {:induction false} AluNeedsDestinationType(d: Draft, info: OpcodeInfo)
    requires AluKindOf(info.mnemonic).Some?
    ensures var r := MnemonicDraft(d, info);
            (r.thrown <==> d.state.destinationType.None?) &&
            (!r.thrown ==> |r.draft.ops| == |d.ops| + 1 && r.draft.ops[|d.ops|].Alu? &&
                           (r.draft.ops[|d.ops|].wide <==> d.state.destinationType in {Some(R16), Some(N16)}))
  {
  }

  /**
   * Under CALL/JP/JR/RET the operand "C" is the carry condition and reads
   * nothing; under any other mnemonic it is register C, read into the
   * destination value.
   */
  lemma {:induction false} OperandCIsConditionOnlyForBranches(d: Draft, mnemonic: string, operand: Operand)
    requires operand.name == "C"
    ensures var r := DestinationDraft(d, mnemonic, operand);
            (IsBranch(mnemonic) ==> r.state.cc == Some("C") && r.ops == d.ops &&
                                    r.state.destinationType == d.state.destinationType) &&
            (!IsBranch(mnemonic) ==> r.state.cc == d.state.cc &&
                                     r.ops == d.ops + [ReadRegister8(Destination, "C")])
  {
    assert Classify("C") == Register8Name;
  }

  /** The shift and rotate mnemonics change nothing in the draft: their operation is never queued. */
  lemma {:induction false} ShiftsQueueNothing(d: Draft, info: OpcodeInfo)
    requires IsShift(info.mnemonic)
    ensures MnemonicDraft(d, info) == Outcome(d, false)
  {
    assert AluKindOf(info.mnemonic).None? && LogicKindOf(info.mnemonic).None? && BitFlagKindOf(info.mnemonic).None?;
  }

  /**
   * An a16 operand queues read-low, read-high, merge: run, they leave the
   * little-endian word at PC in the destination value (the high byte in
   * the source value), move PC two on, and cost two cycles.
   */
  lemma {:induction false} AddressReadIsWord(m: Machine)
    requires Sized(m)
    ensures SumCycles(AddressRead) == 2
    ensures var e := RunInOrder(m, AddressRead);
            !e.thrown && e.after.mem == m.mem && e.after.cpu == m.cpu &&
            e.after.regs == m.regs.(pc := m.regs.pc + 2) &&
            e.after.opcode == m.opcode.(destinationValue := WordAt(m.mem, m.regs.pc),
                                        sourceValue := ByteAt(m.mem, m.regs.pc + 1))
  {
    var lo, hi := ByteAt(m.mem, m.regs.pc), ByteAt(m.mem, m.regs.pc + 1);
    ImmediateRead(m, Destination, false);
    var m1 := Stepped(m, AddressRead[0]).after;
    ImmediateRead(m1, Source, false);
    var m2 := Stepped(m1, AddressRead[1]).after;
    assert m2.regs.pc == m.regs.pc + 2;
    MergeLittleEndian(lo, hi);
    var m3 := Stepped(m2, AddressRead[2]).after;
    assert m3.opcode.destinationValue == WordAt(m.mem, m.regs.pc);
    assert AddressRead[1..][1..][1..] == [];
    assert RunInOrder(m, AddressRead) == RunInOrder(m1, AddressRead[1..]);
    assert SumCycles(AddressRead[..2]) == 2;
  }

  /**
   * An n16 operand queues read, read, FlipBytes: run, they leave the
   * little-endian word at PC in the source value (the high byte in the
   * extra value), move PC two on, and cost two cycles.
   */
  lemma {:induction false} WordReadIsWord(m: Machine)
    requires Sized(m)
    ensures SumCycles(WordRead) == 2
    ensures var e := RunInOrder(m, WordRead);
            !e.thrown && e.after.mem == m.mem && e.after.cpu == m.cpu &&
            e.after.regs == m.regs.(pc := m.regs.pc + 2) &&
            e.after.opcode == m.opcode.(sourceValue := WordAt(m.mem, m.regs.pc),
                                        extraValue := ByteAt(m.mem, m.regs.pc + 1))
  {
    assert SumCycles(WordRead) == 2 by {
      assert SumCycles(WordRead[..2]) == 2;
    }
    var m1 := Stepped(m, WordRead[0]).after;
    var m2 := Stepped(m1, WordRead[1]).after;
    WordReadBytes(m);
    assert RunInOrder(m, WordRead) == Stepped(m2, WordRead[2]) by {
      assert WordRead[1..][1..][1..] == [];
      assert RunInOrder(m, WordRead) == RunInOrder(m1, WordRead[1..]);
    }
    var lo, hi := ByteAt(m.mem, m.regs.pc), ByteAt(m.mem, m.regs.pc + 1);
    assert Stepped(m2, WordRead[2]) == FlipStep(m2, Field(Source), Field(Extra), Source);
    FlippedIsWord(m.mem, m.regs.pc);
  }

  /** FlipBytes of the byte at an address and the byte above it is the little-endian word there. */
  lemma {:induction false} FlippedIsWord(mem: seq<Byte>, address: int)
    requires |mem| == Size
    ensures Flipped(ByteAt(mem, address), ByteAt(mem, address + 1)) == WordAt(mem, address)
  {
    MergeLittleEndian(ByteAt(mem, address), ByteAt(mem, address + 1));
  }

  /** The two reads of an n16 operand: the byte at PC into the source, the next into the extra value. */
  lemma {:induction false} WordReadBytes(m: Machine)
    requires Sized(m)
    ensures var e1 := Stepped(m, WordRead[0]);
            var e2 := Stepped(e1.after, WordRead[1]);
            !e1.thrown && !e2.thrown && e2.after.mem == m.mem && e2.after.cpu == m.cpu &&
            e2.after.regs == m.regs.(pc := m.regs.pc + 2) &&
            e2.after.opcode == m.opcode.(sourceValue := ByteAt(m.mem, m.regs.pc),
                                         extraValue := ByteAt(m.mem, m.regs.pc + 1))
  {
    ImmediateRead(m, Source, false);
    ImmediateRead(Stepped(m, WordRead[0]).after, Extra, false);
  }

  /** An e8 operand queues the offset read and a padding cycle: the byte at PC into the source, PC one on, two cycles. */
  lemma {:induction false} OffsetReadIsByte(m: Machine)
    requires Sized(m)
    ensures SumCycles(OffsetRead) == 2
    ensures var e := RunInOrder(m, OffsetRead);
            !e.thrown && e.after.mem == m.mem && e.after.cpu == m.cpu &&
            e.after.regs == m.regs.(pc := m.regs.pc + 1) &&
            e.after.opcode == m.opcode.(sourceValue := ByteAt(m.mem, m.regs.pc))
  {
    ImmediateRead(m, Source, false);
    var m1 := Stepped(m, OffsetRead[0]).after;
    assert OffsetRead[1..][1..] == [];
    assert RunInOrder(m, OffsetRead) == RunInOrder(m1, OffsetRead[1..]);
    assert SumCycles(OffsetRead[..1]) == 1;
  }

  /**
   * The two writes of LD (a16),SP store a 16-bit source value
   * little-endian at the destination address and change nothing else;
   * they cost four cycles.
   */
  lemma {:induction false} StackPointerStoreWritesWord(m: Machine)
    requires Sized(m) && 0 <= m.opcode.sourceValue < 0x10000
    ensures SumCycles(StackPointerStore) == 4
    ensures var e := RunInOrder(m, StackPointerStore);
            !e.thrown && e.after == m.(mem := e.after.mem) &&
            WordAt(e.after.mem, m.opcode.destinationValue) == m.opcode.sourceValue &&
            OnlyWordChanged(m.mem, e.after.mem, m.opcode.destinationValue)
  {
    var dv, sv := m.opcode.destinationValue, m.opcode.sourceValue;
    StackPointerStoreCycles();
    RunTwoWrites(m, StackPointerStore);
    var m1 := WriteLowByte(m);
    var m2 := WriteHighByte(m1, dv, sv);
    assert RunInOrder(m, StackPointerStore) == Effect(m2, false);
    assert m2.mem == Store(Store(m.mem, dv, sv), dv + 1, sv / 256);
    StoredWordReadsBack(m.mem, dv, sv);
    StoreWordFrame(m.mem, dv, sv);
  }

  /** A 16-bit value stored little-endian reads back whole. */
  lemma {:induction false} StoredWordReadsBack(mem: seq<Byte>, address: int, v: int)
    requires |mem| == Size && 0 <= v < 0x10000
    ensures WordAt(Store(Store(mem, address, v), address + 1, v / 256), address) == v
  {
    StoreWordThenRead(mem, address, v);
  }

  /** Every cell but the two of the word at address is as it was. */
  predicate OnlyWordChanged(mem: seq<Byte>, mem': seq<Byte>, address: int)
    requires |mem| == |mem'| == Size
  {
    forall a :: (0 <= a < Size && a != Wrap(address) && a != Wrap(address + 1)) ==> mem'[a] == mem[a]
  }

  /** Storing a word changes only its two cells. */
  lemma {:induction false} StoreWordFrame(mem: seq<Byte>, address: int, v: int)
    requires |mem| == Size
    ensures OnlyWordChanged(mem, Store(Store(mem, address, v), address + 1, v / 256), address)
  {
  }

  /** The first write of LD (a16),SP stores the low byte of the source value at the destination address. */
  lemma {:induction false} WriteLowByte(m: Machine) returns (m1: Machine)
    requires Sized(m)
    ensures m1 == WriteMemoryStep(m, Field(Destination), LowByteOf(Source)).after
    ensures m1 == m.(mem := Store(m.mem, m.opcode.destinationValue, m.opcode.sourceValue))
  {
    m1 := WriteMemoryStep(m, Field(Destination), LowByteOf(Source)).after;
  }

  /** The second write stores the high byte one address on. */
  lemma {:induction false} WriteHighByte(m1: Machine, dv: int, sv: int) returns (m2: Machine)
    requires Sized(m1) && 0 <= sv < 0x10000
    requires m1.opcode.destinationValue == dv && m1.opcode.sourceValue == sv
    ensures m2 == WriteMemoryStep(m1, NextAddress(Destination), HighByteOf(Source)).after
    ensures m2 == m1.(mem := Store(m1.mem, dv + 1, sv / 256))
  {
    UshrHighByte(sv);
    assert Wrap((dv + 1) % 0x10000) == Wrap(dv + 1);
    m2 := WriteMemoryStep(m1, NextAddress(Destination), HighByteOf(Source)).after;
  }

  /** Two writes run back to back, neither throwing. */
  lemma {:induction false} RunTwoWrites(m: Machine, ops: seq<MicroOp>)
    requires Sized(m) && |ops| == 2 && ops[0].WriteMemory8? && ops[1].WriteMemory8?
    ensures var e1 := WriteMemoryStep(m, ops[0].address, ops[0].data);
            var e2 := WriteMemoryStep(e1.after, ops[1].address, ops[1].data);
            RunInOrder(m, ops) == e2 && !e1.thrown && !e2.thrown
  {
    var e1 := WriteMemoryStep(m, ops[0].address, ops[0].data);
    var e2 := WriteMemoryStep(e1.after, ops[1].address, ops[1].data);
    assert ops[1..][1..] == [];
    assert RunInOrder(e1.after, ops[1..]) == e2;
  }

  /** The two writes cost two cycles each. */
  lemma {:induction false} StackPointerStoreCycles()
    ensures SumCycles(StackPointerStore) == 4
  {
    assert SumCycles(StackPointerStore[..1]) == 2;
  }

  /** The descriptor of LD (a16),SP, opcode 0x08, as the instruction table gives it. */
  const LoadAddressSp: OpcodeInfo :=
    OpcodeInfo(0x08, "LD", 3, [20],
               [Operand("a16", 2, false, false, false), Operand("SP", 0, true, false, false)],
               false, FlagSpec("-", "-", "-", "-"), false, false)

  /** The queue the builder makes for LD (a16),SP. */
  const LoadAddressSpQueue: seq<MicroOp> :=
    AddressRead + [ReadRegister16(Source, "SP")] + StackPointerStore +
    [HandleFlags(LoadAddressSp, Field(Destination), Field(Source))]

  /**
   * LD (a16),SP builds the address read, the SP read, the two writes and
   * the flag step, and is charged 1 + 2 + 4 = 7 cycles, where the
   * instruction takes 5 machine cycles on the hardware: each byte write
   * counts two.
   */
  lemma {:induction false} LoadAddressSpBuild(checkIncDec: bool, fetchedAt: int)
    ensures var r := Built(checkIncDec, map[0x08 := LoadAddressSp], fetchedAt, 0x08);
            !r.thrown && r.draft.ops == LoadAddressSpQueue && r.draft.state.cyclesConsumed == 7
  {
    var info := LoadAddressSp;
    var body := LoadAddressSpBody(checkIncDec, fetchedAt);
    var flagged := Queued(body.draft, HandleFlags(info, Field(Destination), Field(Source)));
    assert flagged.ops == LoadAddressSpQueue;
    if flagged.checkIncDec {
      var post := PostIncDecDraft(flagged, info.operands);
      assert post == Outcome(flagged.(checkIncDec := false), false);
    }
    LoadAddressSpCycles();
  }

  /** The operand and mnemonic stages of LD (a16),SP. */
  lemma {:induction false} LoadAddressSpBody(checkIncDec: bool, fetchedAt: int) returns (body: Outcome)
    ensures body == BodyOutcome(checkIncDec, LoadAddressSp, fetchedAt)
    ensures !body.thrown && body.draft.checkIncDec == checkIncDec
    ensures body.draft.ops == AddressRead + [ReadRegister16(Source, "SP")] + StackPointerStore
  {
    var info := LoadAddressSp;
    var start := Start(checkIncDec, Some(info), fetchedAt);
    assert Classify("a16") == WordAddress;
    var d1 := DestinationDraft(start, "LD", info.operands[0]);
    assert d1.ops == AddressRead && d1.checkIncDec == checkIncDec;
    assert Classify("SP") == Register16Name && !IsPair("SP");
    var d2 := SourceDraft(d1, "LD", info.operands[1]);
    assert d2.ops == AddressRead + [ReadRegister16(Source, "SP")] && d2.checkIncDec == checkIncDec;
    assert OperandsDraft(start, info) == d2;
    assert AluKindOf("LD").None?;
    body := MnemonicDraft(d2, info);
    assert body == Outcome(QueuedAll(d2, StackPointerStore), false);
  }

  /** 1 + 2 + 0 + 2 + 2 + 0. */
  lemma {:induction false} LoadAddressSpCycles()
    ensures SumCycles(LoadAddressSpQueue) == 6
  {
    var read := [ReadRegister16(Source, "SP")];
    var flags := [HandleFlags(LoadAddressSp, Field(Destination), Field(Source))];
    assert LoadAddressSpQueue == ((AddressRead + read) + StackPointerStore) + flags;
    SumCyclesAppend((AddressRead + read) + StackPointerStore, flags);
    SumCyclesAppend(AddressRead + read, StackPointerStore);
    SumCyclesAppend(AddressRead, read);
    AddressReadCycles();
    assert SumCycles(read) == 0 by { assert read[..0] == []; }
    assert SumCycles(flags) == 0 by { assert flags[..0] == []; }
    assert SumCycles(StackPointerStore) == 4 by {
      assert StackPointerStore[..1] == [StackPointerStore[0]];
      assert StackPointerStore[..1][..0] == [];
    }
  }

  lemma AddressReadCycles()
    ensures SumCycles(AddressRead) == 2
  {
    assert AddressRead[..2][..1][..0] == [];
  }

  /** The flag step of an LD instruction cannot throw, and touches neither memory nor PC. */
  lemma {:induction false} LoadFlagStep(m: Machine, info: OpcodeInfo, x: Supplier, y: Supplier)
    requires Sized(m) && info.mnemonic == "LD"
    ensures var e := HandleFlagsStep(m, info, x, y);
            !e.thrown && e.after.mem == m.mem && e.after.regs.pc == m.regs.pc
  {
    FlagCalculator.Entries();
    var outcome := FlagCalculator.Calculate(m.regs, "LD", Supplied(m.opcode, x), Supplied(m.opcode, y), info.operands);
    assert outcome.Calculated? && outcome.regs == m.regs;
  }

  /**
   * Run to the end, the LD (a16),SP queue stores SP little-endian at the
   * address that follows the opcode and leaves PC two on.
   */
  lemma {:induction false} LoadAddressSpStoresSp(m: Machine)
    requires Sized(m)
    ensures var e := RunInOrder(m, LoadAddressSpQueue);
            !e.thrown && WordAt(e.after.mem, WordAt(m.mem, m.regs.pc)) == m.regs.sp % 0x10000 &&
            e.after.regs.pc == m.regs.pc + 2
  {
    var fetches := AddressRead + [ReadRegister16(Source, "SP")];
    var stores := StackPointerStore + [HandleFlags(LoadAddressSp, Field(Destination), Field(Source))];
    assert LoadAddressSpQueue == fetches + stores;
    RunInOrderAppend(m, fetches, stores);
    var m2 := LoadAddressSpReads(m);
    LoadAddressSpWrites(m2);
  }

  /** The reads of LD (a16),SP: the address at PC into the destination value, SP into the source value. */
  lemma {:induction false} LoadAddressSpReads(m: Machine) returns (m2: Machine)
    requires Sized(m)
    ensures var e := RunInOrder(m, AddressRead + [ReadRegister16(Source, "SP")]);
            !e.thrown && e.after == m2
    ensures Sized(m2) && m2.regs.pc == m.regs.pc + 2 &&
            m2.opcode.destinationValue == WordAt(m.mem, m.regs.pc) &&
            m2.opcode.sourceValue == m.regs.sp % 0x10000
  {
    var read := [ReadRegister16(Source, "SP")];
    RunInOrderAppend(m, AddressRead, read);
    AddressReadIsWord(m);
    var m1 := RunInOrder(m, AddressRead).after;
    RunSingle(m1, read[0]);
    m2 := RunInOrder(m1, read).after;
  }

  /** The writes and the flag step of LD (a16),SP: the source word lands at the destination address. */
  lemma {:induction false} LoadAddressSpWrites(m2: Machine)
    requires Sized(m2) && 0 <= m2.opcode.sourceValue < 0x10000
    ensures var e := RunInOrder(m2, StackPointerStore + [HandleFlags(LoadAddressSp, Field(Destination), Field(Source))]);
            !e.thrown && WordAt(e.after.mem, m2.opcode.destinationValue) == m2.opcode.sourceValue &&
            e.after.regs.pc == m2.regs.pc
  {
    var flags := [HandleFlags(LoadAddressSp, Field(Destination), Field(Source))];
    RunInOrderAppend(m2, StackPointerStore, flags);
    StackPointerStoreWritesWord(m2);
    var m3 := RunInOrder(m2, StackPointerStore).after;
    RunSingle(m3, flags[0]);
    LoadFlagStep(m3, LoadAddressSp, Field(Destination), Field(Source));
  }

  /** A queue of one ReadRegister16 or one HandleFlags runs as that step. */
  lemma RunSingle(m: Machine, op: MicroOp)
    requires Sized(m) && (op.ReadRegister16? || op.HandleFlags?)
    ensures op.ReadRegister16? ==> RunInOrder(m, [op]) == ReadRegisterStep(m, op.register16Into, op.register16, 0x10000)
    ensures op.HandleFlags? ==> RunInOrder(m, [op]) == HandleFlagsStep(m, op.info, op.flagX, op.flagY)
  {
    assert [op][1..] == [];
  }
}
