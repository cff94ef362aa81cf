# MochaBoy CPU core in Dafny

MochaBoy is a Game Boy (DMG) emulator written in Java. This project models its
CPU's integer machinery:

- The register file (`Registers`), with the eight 8-bit registers paired as
  AF/BC/DE/HL and F kept as a high-nibble flag byte.
- The 64 KiB memory with little-endian word reads, the memory map of I/O
  registers, and the SP-based stack.
- The newer micro-operation pipeline (`opcode/`):
  - `OpcodeBuilder` decodes an instruction descriptor into a FIFO queue of
    micro-operations held by `opcode/Opcode`.
  - Each micro-operation is a small transformer of registers, memory and the
    opcode's operand fields.
  - `opcode/FlagCalculator` computes Z/N/H/C and applies them according to
    the descriptor's "Z/N/H/C/0/1/-" flag strings.
- The timer, the interrupt controller, the PPU's scanline mode machine and the
  frame buffer.
- The CPU's fetch (including the CB prefix) and its IME, halt and T-state
  bookkeeping.
- The older generation: the legacy `FlagCalculator`, `OpcodeHandler` (ADC,
  ADD, processFlags, applyResult, the run-loop iteration) and the legacy
  static `Opcode` table (opcodes 0x00–0x07).

## How the model is built

- Java `int`s are Dafny `int`s. Bitwise `&`, `|`, `^` and `~` are the
  two's-complement operations on unbounded integers, defined by recursion in
  module `Bits`. `x & 0xFF` is `x % 256`, `>> n` is division by `2^n`, and a
  bit test is `(v / 2^k) % 2 == 1`. Every such equivalence is proved there.
- Memory cells are `Byte`s (0..255). `Memory.SignedRead` models the signed
  Java `byte` that `readByte` actually returns. Most callers mask it, or
  keep only its low byte, or test bits the sign does not reach, so the sign
  changes nothing there. Four places use it unmasked and behave differently
  for cells from 0x80 up:
  - the 8-bit memory read micro-operations;
  - `Stack.pop`;
  - `Timer.incTima`;
  - the PPU's LY reads in `step` and `incrementLY`.

  Each of these is a row under Findings. The rest of the model runs on the
  corrected, unsigned reading, and each as-written variant is modelled and
  compared with it in a lemma.
- Objects whose fields the Java code updates in place become classes:
  `Registers`, `Memory`, `Stack`, `Opcode`, `OpcodeBuilder`, `Timer`,
  `InterruptController`, `Ppu`, `FrameBuffer` and `Cpu`. Each class exposes
  its state as a value (`Value()`, `Contents()`, `State()`, `Snapshot()`).
  Its methods are proved against pure functions of that value, and the
  lemmas are stated about those functions.
- A Java exception (unknown register name, missing flag calculator,
  `ArrayIndexOutOfBounds` on an operand list) is an `Option`/`None`, a
  `thrown` flag or an error constructor. It is never excluded by a
  precondition.
- Some calls have no body in the source. The model assumes the following
  for each:
  - `Memory.writeByte(address, v)` stores `v & 0xFF` at `address & 0xFFFF`
    and changes no other cell (`Memory.Store`).
  - `Memory.readUnsignedByte(address)`, called at OpcodeHandler.java:86,
    returns the cell as 0..255. That is why `Handler.AddOffsetToSp` moves
    SP up by 255 for the byte 0xFF, where a signed read would move it down
    by one.
  - `Registers.isValidRegister(cpu, name)` stores nothing. It holds exactly
    for the names `getByName` accepts (`Registers.IsValidRegister`).
  - `Opcode.setKillRemainingOps(b)` and `Opcode.setRealCycles(n)` store the
    value passed in a field of their own and change nothing else.
  - `Opcode.isTaken()` stores nothing and reads as "not killed". It decides
    which entry of the cycle array CalculateCycles.java:22 charges
    (`Pipeline.BranchCycles`).
  - `CPU.setHalt(b)` and `CPU.setPendingImeEnable(b)` store the value
    passed and change nothing else.
  - `Memory.getMemoryMap()`, called by the PPU (PPU.java:19, 34, 50), the
    timer (Timer.java:18) and the interrupt controller (Interrupt.java:20),
    returns the name-to-address table of
    MemoryMap.java (`MemoryMap.Lookup`).
  - `Memory.getMemoryArray()`, called at Timer.java:26, returns the live
    backing array, so `incDiv` writes the cell directly and bypasses
    `writeByte` (`Timers.DivTicked`, `Timers.Timer.IncDiv`).

## Model

All source paths are relative to the repository root.

| member | source | states |
|---|---|---|
| Registers.FlagConstants | src/main/java/org/mochaboy/Registers.java:14-17 | Z, N, H and C are the masks 0x80, 0x40, 0x20 and 0x10 |
| Registers.HighByte | src/main/java/org/mochaboy/Registers.java:156-158 | the high byte a pair setter stores is in 0..255 |
| Registers.LowByte | src/main/java/org/mochaboy/Registers.java:156-158 | the low byte a pair setter stores is in 0..255 |
| Registers.HighNibble | src/main/java/org/mochaboy/Registers.java:97-99 | what setF keeps is a flag byte (0..255, low nibble clear) that agrees with the argument on bits 7..4 |
| Registers.HighNibbleBits | src/main/java/org/mochaboy/Registers.java:97-99 | bit j of `v & 0xF0` is bit j of v for 4 <= j < 8 and 0 otherwise |
| Registers.OrFlagBits | src/main/java/org/mochaboy/Registers.java:185-187 | `F \| flag` has exactly F's bits plus the flag's bit, and is still a flag byte if F was one |
| Registers.AndNotFlagBits | src/main/java/org/mochaboy/Registers.java:193-195 | `F & ~flag` has exactly F's bits minus the flag's bit, and is still a flag byte if F was one |
| Registers.CondFlagBits | src/main/java/org/mochaboy/Registers.java:189-191 | both arms of setFlag(flag, cond) give a flag byte whose flag bit is cond and whose other high bits are F's |
| Registers.FlagSetIsBit | src/main/java/org/mochaboy/Registers.java:181-183 | isFlagSet(flag) is exactly the flag's bit of F |
| Registers.WithFlag | src/main/java/org/mochaboy/Registers.java:185-187 | setFlag(flag) changes only F, sets the flag, keeps every other flag, and keeps F a flag byte |
| Registers.WithFlagIf | src/main/java/org/mochaboy/Registers.java:189-191 | setFlag(flag, cond) changes only F, makes the flag read cond, keeps every other flag, and always leaves a flag byte |
| Registers.WithoutFlag | src/main/java/org/mochaboy/Registers.java:193-195 | clearFlag(flag) changes only F, clears the flag and keeps every other flag |
| Registers.Get | src/main/java/org/mochaboy/Registers.java:19-35 | getByName succeeds exactly for the fourteen names in the getter table; any other name is the NullPointerException |
| Registers.Set | src/main/java/org/mochaboy/Registers.java:36-49 | setByName succeeds exactly for the thirteen names in the setter table, which has no "F" |
| Registers.PairOfByte | src/main/java/org/mochaboy/Registers.java:152-154 | `(hi << 8) \| lo` with lo a byte is hi * 256 + lo |
| Registers.SplitJoin | src/main/java/org/mochaboy/Registers.java:152-159 | joining the high and low bytes of v gives v mod 2^16 |
| Registers.PairRoundTrip | src/main/java/org/mochaboy/Registers.java:152-177 | setBC/setDE/setHL(v) followed by the getter gives v & 0xFFFF, so v itself for 0 <= v <= 0xFFFF |
| Registers.AFRoundTrip | src/main/java/org/mochaboy/Registers.java:143-150 | setAF(v) followed by getAF gives v & 0xFFF0, and F is a flag byte |
| Registers.HighNibbleKeepsFlags | src/main/java/org/mochaboy/Registers.java:97-99 | after setF(v) each flag reads as the corresponding bit of v |
| Registers.FlagRoundTrip | src/main/java/org/mochaboy/Registers.java:189-191 | setFlag(flag, cond) then isFlagSet(flag) is cond, and F & 0x0F is 0 afterwards |
| Registers.LowNibbleZero | src/main/java/org/mochaboy/Registers.java:190 | every flag byte has F & 0x0F == 0 |
| Registers.SetThenGet | src/main/java/org/mochaboy/Registers.java:197-204 | setByName(n, v) writes what getByName(n) reads: v for single registers, v & 0xFFFF for BC/DE/HL, v & 0xFFF0 for AF |
| Registers.SetFrame | src/main/java/org/mochaboy/Registers.java:37-45 | writing one single register by name leaves every other single register unchanged |
| Registers.SetKeepsFlagByte | src/main/java/org/mochaboy/Registers.java:36-49 | no setter can break the flag-byte form of F |
| Registers.FReadOnlyByName | src/main/java/org/mochaboy/Registers.java:26 | "F" can be read by name but not written by name |
| Registers.Registers.constructor | src/main/java/org/mochaboy/Registers.java:12-13 | every register starts at Java's default 0 |
| Registers.Registers.SetA | src/main/java/org/mochaboy/Registers.java:57-59 | A becomes the unmasked argument; nothing else changes |
| Registers.Registers.SetB | src/main/java/org/mochaboy/Registers.java:65-67 | B becomes the unmasked argument; nothing else changes |
| Registers.Registers.SetC | src/main/java/org/mochaboy/Registers.java:73-75 | C becomes the unmasked argument; nothing else changes |
| Registers.Registers.SetD | src/main/java/org/mochaboy/Registers.java:81-83 | D becomes the unmasked argument; nothing else changes |
| Registers.Registers.SetE | src/main/java/org/mochaboy/Registers.java:89-91 | E becomes the unmasked argument; nothing else changes |
| Registers.Registers.SetF | src/main/java/org/mochaboy/Registers.java:97-99 | F becomes `v & 0xF0`; nothing else changes |
| Registers.Registers.SetH | src/main/java/org/mochaboy/Registers.java:106-108 | H becomes the unmasked argument; nothing else changes |
| Registers.Registers.SetL | src/main/java/org/mochaboy/Registers.java:114-116 | L becomes the unmasked argument; nothing else changes |
| Registers.Registers.SetSP | src/main/java/org/mochaboy/Registers.java:122-124 | SP becomes the unmasked argument; nothing else changes |
| Registers.Registers.SetPC | src/main/java/org/mochaboy/Registers.java:130-132 | PC becomes the unmasked argument; nothing else changes |
| Registers.Registers.IncrementPC | src/main/java/org/mochaboy/Registers.java:134-140 | PC grows by n without wrapping; nothing else changes |
| Registers.Registers.SetAF | src/main/java/org/mochaboy/Registers.java:147-150 | A and F become the high byte and the masked high nibble of the low byte |
| Registers.Registers.SetBC | src/main/java/org/mochaboy/Registers.java:156-159 | B and C become the high and low byte of v |
| Registers.Registers.SetDE | src/main/java/org/mochaboy/Registers.java:165-168 | D and E become the high and low byte of v |
| Registers.Registers.SetHL | src/main/java/org/mochaboy/Registers.java:174-177 | H and L become the high and low byte of v |
| Registers.Registers.SetFlag | src/main/java/org/mochaboy/Registers.java:185-187 | the state becomes WithFlag of the old state |
| Registers.Registers.SetFlagIf | src/main/java/org/mochaboy/Registers.java:189-191 | the state becomes WithFlagIf of the old state |
| Registers.Registers.ClearFlag | src/main/java/org/mochaboy/Registers.java:193-195 | the state becomes WithoutFlag of the old state |
| Registers.Registers.SetByName | src/main/java/org/mochaboy/Registers.java:202-204 | succeeds exactly for the setter names and then writes Set's result; an unknown name changes nothing |
| Memory.Wrap | src/main/java/org/mochaboy/Memory.java:28-30 | `address & 0xFFFF` is always a valid index, 0..0xFFFF |
| Memory.WordAt | src/main/java/org/mochaboy/Memory.java:36-40 | readWord is the byte at a + 1 times 256 plus the byte at a, and lies in 0..0xFFFF |
| Memory.Store | src/main/java/org/mochaboy/Memory.java:28-30 | a write stores v & 0xFF at `address & 0xFFFF` and changes no other cell |
| Memory.StoreOverwrites | src/main/java/org/mochaboy/Memory.java:28-30 | a second write to the same address replaces the first |
| Memory.Overlay | src/main/java/org/mochaboy/Memory.java:49 | an arraycopy from 0 replaces the first \|data\| cells and keeps the rest |
| Memory.AddressesWrap | src/main/java/org/mochaboy/Memory.java:28-30 | readByte(a) == readByte(a & 0xFFFF) == readByte(a + 0x10000) |
| Memory.WordWrapsAtTop | src/main/java/org/mochaboy/Memory.java:36-40 | readWord(0xFFFF) takes its high byte from address 0x0000 |
| Memory.StoreWordThenRead | src/main/java/org/mochaboy/Memory.java:36-40 | storing the low and high byte of v at a and a + 1 and then reading the word at a gives v & 0xFFFF |
| Memory.WordSplit | src/main/java/org/mochaboy/Memory.java:36-40 | high byte times 256 plus low byte is the word mod 2^16 |
| Memory.SignedRead | src/main/java/org/mochaboy/Memory.java:28-30 | the Java `byte` that readByte returns lies in -128..127 |
| Memory.Memory.constructor | src/main/java/org/mochaboy/Memory.java:11-15 | a fresh array of 0x10000 cells. When both images fit, it holds zeros, then the cartridge, then the boot ROM on top. A cartridge over 0x10000 bytes throws before anything is copied; a boot ROM over 0x10000 bytes throws after the cartridge copy |
| Memory.Memory.ReadWord | src/main/java/org/mochaboy/Memory.java:36-40 | readWord on the object is the little-endian pair of readByte values |
| Memory.Memory.Length | src/main/java/org/mochaboy/Memory.java:63-65 | getMemoryLength is 0x10000 |
| Memory.Memory.WriteByte | src/main/java/org/mochaboy/Memory.java:28-30 | the cells become Store of the old cells |
| Memory.Memory.Init | src/main/java/org/mochaboy/Memory.java:17-22 | the cartridge is copied first and the boot ROM over it; an image larger than memory throws before copying it, which leaves the earlier copy in place |
| Memory.Memory.Copy | src/main/java/org/mochaboy/Memory.java:59-61 | the cells become Overlay of the old cells with the data |
| Memory.BootRomOnTop | src/main/java/org/mochaboy/Memory.java:17-22 | after init, boot ROM bytes win where they overlap the cartridge, the cartridge shows above the boot ROM, and cells past both keep their value |
| MemoryMap.Lookup | src/main/java/org/mochaboy/MemoryMap.java:14-37 | a name is found exactly when it is one of the mapped names, and then with its own address |
| MemoryMap.LookupIn | src/main/java/org/mochaboy/MemoryMap.java:35-37 | lookup in an entry list succeeds iff the name occurs, with the paired address |
| MemoryMap.AddressesDistinctHighPage | src/main/java/org/mochaboy/MemoryMap.java:14-33 | every mapped address is in 0xFF00..0xFFFF, and no two names or addresses coincide |
| MemoryMap.RegisterBlocks | src/main/java/org/mochaboy/MemoryMap.java:16-32 | DIV, TIMA, TMA and TAC are consecutive from 0xFF04, and the LCD registers rise from 0xFF40 to 0xFF4B |
| Stack.Down | src/main/java/org/mochaboy/Stack.java:18 | `(sp - 1) & 0xFFFF` is in 0..0xFFFF |
| Stack.Up | src/main/java/org/mochaboy/Stack.java:40 | `(sp + 1) & 0xFFFF` is in 0..0xFFFF |
| Stack.PushedMemory | src/main/java/org/mochaboy/Stack.java:14-28 | push's memory is still 0x10000 cells |
| Stack.PoppedValue | src/main/java/org/mochaboy/Stack.java:30-53 | the corrected pop (see Findings) returns the little-endian word at SP, in 0..0xFFFF |
| Stack.PoppedValueAsWritten | src/main/java/org/mochaboy/Stack.java:30-53 | pop as written, on the two signed reads, still lies in 0..0xFFFF |
| Stack.PopAsWrittenForm | src/main/java/org/mochaboy/Stack.java:34-52 | pop as written equals the corrected word while the low byte is below 0x80; from 0x80 up it is 0xFF00 plus the low byte, whatever the high cell holds |
| Stack.SignedPairForm | src/main/java/org/mochaboy/Stack.java:52 | `((high << 8) \| low) & 0xFFFF` on two sign-extended bytes is high * 256 + low for a low byte below 0x80, and 0xFF00 + low otherwise |
| Stack.PushThenPopAsWritten | src/main/java/org/mochaboy/Stack.java:14-53 | as written, a push of v with low byte 0x80 or more pops back as 0xFF00 plus that byte, which differs from v & 0xFFFF unless v's high byte is 0xFF |
| Stack.PushAbcdPopsFfcd | src/test/java/StackTest.java:25-37 | push(0xABCD) then pop gives 0xFFCD as written and 0xABCD with the corrected pop |
| Stack.StepValues | src/main/java/org/mochaboy/Stack.java:18-40 | SP steps down from 0 to 0xFFFF and up from 0xFFFF to 0, and by one otherwise |
| Stack.DownTwiceUp | src/main/java/org/mochaboy/Stack.java:14-53 | two steps down and two steps up return to SP mod 2^16, and the two cells push writes are distinct |
| Stack.PushWritesTwoCells | src/main/java/org/mochaboy/Stack.java:14-28 | push writes the high byte at SP - 1, the low byte at SP - 2 and no other cell |
| Stack.PushThenPop | src/test/java/StackTest.java:25-37 | with the corrected pop, pop after push(v) returns v & 0xFFFF and restores SP mod 2^16 |
| Stack.Disjoint | src/main/java/org/mochaboy/Stack.java:14-53 | the cells pop reads at x are not the cells a push at x writes |
| Stack.PopFrame | src/main/java/org/mochaboy/Stack.java:30-53 | pop's value depends only on the two cells at SP and SP + 1 |
| Stack.LastInFirstOut | src/test/java/StackTest.java:40-55 | with the corrected pop, after pushing v and then w the first pop returns w, the second returns v, and SP is back where it was |
| Stack.PushWrapsAtZero | src/test/java/StackTest.java:70-77 | a push with SP = 0x0000 leaves SP = 0xFFFE |
| Stack.Stack.constructor | src/main/java/org/mochaboy/Stack.java:9-12 | the stack works on the CPU's registers and memory, and its debug list starts empty |
| Stack.Stack.Push | src/main/java/org/mochaboy/Stack.java:14-28 | SP moves down two (mod 2^16) and memory becomes PushedMemory; no other register changes; the debug list gains the low byte on top of the high byte |
| Stack.Stack.Pop | src/main/java/org/mochaboy/Stack.java:30-53 | throws (NoSuchElementException from the debug list) exactly when fewer than two records remain; then the registers are unchanged and the debug list is empty. Otherwise it returns the corrected PoppedValue at the old SP, moves SP up two (mod 2^16) and drops two records. Memory is unchanged in every case |
| Stack.Stack.Peek | src/main/java/org/mochaboy/Stack.java:55-58 | the word at SP, with no state change |
| MicroOps.Cycles | src/main/java/org/mochaboy/opcode/operations/WriteMemory8Bit.java:26-29 | getCycles is at most 2. Only the memory write costs 2. Stack operations, immediate and 8-bit memory reads, EmptyCycle and every interrupt operation except EI_QUICK cost 1. Every other operation costs 0 |
| MicroOps.AluResult | src/main/java/org/mochaboy/opcode/operations/AluOperation.java:41-63 | exactly CP and the HL post-increment/decrement return before computing a result |
| MicroOps.ModCancel | src/main/java/org/mochaboy/opcode/operations/AluOperation.java:86-94 | adding k and then subtracting k modulo m gives x mod m |
| MicroOps.AluInverses | src/main/java/org/mochaboy/opcode/operations/AluOperation.java:68-103 | adc/sbc/add are values of their width. SBC undoes ADC with the same carry, SUB undoes an 8-bit ADD, and DEC and INC undo each other at either width |
| MicroOps.OffsetAddDisplaces | src/main/java/org/mochaboy/opcode/operations/AluOperation.java:73-79 | for ADD SP,e8 and JR the unmasked sum moves x by a displacement in -128..127 that agrees with y modulo 256, and is y's two's-complement value for a byte y |
| Bits.SignExtend8 | src/main/java/org/mochaboy/opcode/operations/AluOperation.java:78 | `(y << 24) >> 24` lies in -128..127 and agrees with y modulo 256 |
| Bits.JavaRem | src/main/java/org/mochaboy/PPU.java:169 | Java's `%` with a positive divisor takes the dividend's sign, and a dividend smaller in size than the divisor comes back unchanged |
| MicroOps.UshrByte | src/main/java/org/mochaboy/opcode/operations/BitShiftOperation.java:38 | `>>>` on a byte is division by a power of two |
| MicroOps.OrAbove | src/main/java/org/mochaboy/opcode/operations/BitShiftOperation.java:30-42 | or-ing a bit in above a value that fits below it is addition |
| MicroOps.DoubleByte | src/main/java/org/mochaboy/opcode/operations/BitShiftOperation.java:30-45 | shifting a byte left moves bit 7 out and every other bit up one place |
| MicroOps.RlForm | src/main/java/org/mochaboy/opcode/operations/BitShiftOperation.java:28-31 | RL and RLA give ((v << 1) \| C) & 0xFF |
| MicroOps.RlcForm | src/main/java/org/mochaboy/opcode/operations/BitShiftOperation.java:32-35 | RLC and RLCA rotate left, so the new bit 0 is the old bit 7. SLA gives (v << 1) & 0xFF |
| MicroOps.RrForm | src/main/java/org/mochaboy/opcode/operations/BitShiftOperation.java:36-39 | RR and RRA give (v >>> 1) \| (C << 7) |
| MicroOps.RrcForm | src/main/java/org/mochaboy/opcode/operations/BitShiftOperation.java:40-43 | RRC and RRCA put the old bit 0 into bit 7 |
| MicroOps.SraForm | src/main/java/org/mochaboy/opcode/operations/BitShiftOperation.java:47-50 | SRA keeps bit 7 |
| MicroOps.SrlForm | src/main/java/org/mochaboy/opcode/operations/BitShiftOperation.java:51-53 | SRL clears bit 7 |
| MicroOps.SwapForm | src/main/java/org/mochaboy/opcode/operations/BitShiftOperation.java:54-58 | SWAP exchanges the two nibbles of a byte |
| MicroOps.SwapHighNibble | src/main/java/org/mochaboy/opcode/operations/BitShiftOperation.java:55-57 | `(v & 0xF0) >>> 4` is the high nibble of a byte |
| MicroOps.SwapLowNibble | src/main/java/org/mochaboy/opcode/operations/BitShiftOperation.java:56 | `v & 0xF` is the low nibble |
| MicroOps.ShiftsStayBytes | src/main/java/org/mochaboy/opcode/operations/BitShiftOperation.java:28-58 | every shift or rotate of a byte is a byte |
| MicroOps.RotateThroughCarryInverts | src/main/java/org/mochaboy/opcode/operations/BitShiftOperation.java:28-39 | RR, given the bit RL shifted out as carry, undoes RL, and RL undoes RR likewise |
| MicroOps.RotationsInvert | src/main/java/org/mochaboy/opcode/operations/BitShiftOperation.java:32-58 | RRC undoes RLC, and SWAP applied twice is the identity on bytes |
| MicroOps.LogicBits | src/main/java/org/mochaboy/opcode/operations/BitwiseOperation.java:27-32 | below bit 8 each result bit is AND, NOT, OR or XOR of the operand bits, every result is a byte, and CPL of a byte is 255 minus it |
| MicroOps.BitFlagBits | src/main/java/org/mochaboy/opcode/operations/BitFlagOperation.java:29-32 | for a bit index 0..30, RES clears exactly bit b and SET sets exactly bit b; every other bit is t's |
| MicroOps.MergeLittleEndian | src/main/java/org/mochaboy/opcode/operations/MergeOperands.java:22-24 | the merge is the little-endian word of the two bytes and always 16 bits. FlipBytes leaves its high input unmasked, and equals the merge when that input is a byte |
| MicroOps.MergeRoundTrip | src/main/java/org/mochaboy/opcode/operations/MergeOperands.java:22-24 | merging n & 0xFF with n >> 8 gives n for 0 <= n <= 0xFFFF |
| MicroOps.KillsUnlessConditionHolds | src/main/java/org/mochaboy/opcode/operations/CheckCC.java:20-41 | Z and NZ test bit 7 of F, C and NC test bit 4. Each condition kills the remaining operations exactly when its opposite would not |
| MicroOps.CycleChoice | src/main/java/org/mochaboy/opcode/operations/CalculateCycles.java:18-24 | a one-entry array gives that entry. A longer one gives entry 0 when taken and entry 1 when not. An empty array is the index exception |
| Pipeline.WithSlot | src/main/java/org/mochaboy/opcode/Opcode.java:77-95 | a value-field setter changes its own field and no other value field |
| Pipeline.Stepped | src/main/java/org/mochaboy/opcode/operations/MicroOperation.java:1-12 | every micro-operation keeps memory at 0x10000 cells |
| Pipeline.Opcode.Snapshot | src/main/java/org/mochaboy/opcode/Opcode.java:10-31 | the opcode's view of the machine always has a full-size memory |
| Pipeline.Opcode.constructor | src/main/java/org/mochaboy/opcode/Opcode.java:34-36 | a new Opcode has an empty queue, null references, zero numbers and every switch off |
| Pipeline.Opcode.AddOp | src/main/java/org/mochaboy/opcode/Opcode.java:44-47 | addOp appends to the end of the queue (FIFO) and marks operations as remaining; no other field changes |
| Pipeline.Opcode.SetDestinationOperandString | src/main/java/org/mochaboy/opcode/Opcode.java:53-55 | only that field changes |
| Pipeline.Opcode.SetSourceOperandString | src/main/java/org/mochaboy/opcode/Opcode.java:61-63 | only that field changes |
| Pipeline.Opcode.SetDestinationOperand | src/main/java/org/mochaboy/opcode/Opcode.java:113-115 | only that field changes |
| Pipeline.Opcode.SetSourceOperand | src/main/java/org/mochaboy/opcode/Opcode.java:121-123 | only that field changes |
| Pipeline.Opcode.SetCc | src/main/java/org/mochaboy/opcode/Opcode.java:137-139 | only that field changes |
| Pipeline.Opcode.SetOpcodeInfo | src/main/java/org/mochaboy/opcode/Opcode.java:145-147 | only that field changes |
| Pipeline.Opcode.SetFetchedAt | src/main/java/org/mochaboy/opcode/Opcode.java:153-155 | only that field changes |
| Pipeline.Opcode.SetUnimplError | src/main/java/org/mochaboy/opcode/Opcode.java:161-163 | only that field changes |
| Pipeline.Opcode.SetCyclesConsumed | src/main/java/org/mochaboy/opcode/Opcode.java:169-171 | only that field changes |
| Pipeline.Opcode.SetSourceType | src/main/java/org/mochaboy/opcode/Opcode.java:185-187 | only that field changes |
| Pipeline.Opcode.SetDestinationType | src/main/java/org/mochaboy/opcode/Opcode.java:193-195 | only that field changes |
| Pipeline.Opcode.SetDestinationValue | src/main/java/org/mochaboy/opcode/Opcode.java:85-87 | only that field changes |
| Pipeline.Opcode.Execute | src/main/java/org/mochaboy/opcode/Opcode.java:38-42 | execute pops the head of the queue and runs it. It clears operationsRemaining once the queue is empty. Popping an empty queue throws and changes nothing |
| Pipeline.Opcode.Run | src/main/java/org/mochaboy/opcode/operations/MicroOperation.java:1-12 | each queued operation's execute changes the machine exactly as Stepped says |
| Pipeline.Opcode.RunComputation | src/main/java/org/mochaboy/opcode/operations/AluOperation.java:35-66 | the ALU, ApplyResult, shift, bitwise, RES/SET and HandleFlags operations change the machine exactly as Stepped says |
| Pipeline.Opcode.RunStateChange | src/main/java/org/mochaboy/opcode/operations/StackOperation.java:21-56 | the stack, load, memory-write, interrupt, CheckCC and CalculateCycles operations change the machine exactly as Stepped says |
| Pipeline.Opcode.RunTransfer | src/main/java/org/mochaboy/opcode/operations/MergeOperands.java:20-27 | the merge, flip, register-read and EmptyCycle operations change the machine exactly as Stepped says |
| Pipeline.Opcode.RunRead | src/main/java/org/mochaboy/opcode/operations/ReadImmediate8bit.java:22-30 | the immediate, 8-bit and 16-bit memory reads change the machine exactly as Stepped says |
| Pipeline.Opcode.Accept | src/main/java/org/mochaboy/opcode/Opcode.java:77-95 | a consumer sets one value field and leaves the other fields alone |
| Pipeline.Opcode.RunAlu | src/main/java/org/mochaboy/opcode/operations/AluOperation.java:35-66 | CP changes nothing. POST_INC/POST_DEC set HL to (HL ± 1) & 0xFFFF and skip applyResult. ADD with no descriptor throws. Every other kind computes its result and applies it |
| Pipeline.Opcode.ApplyAluResult | src/main/java/org/mochaboy/opcode/operations/AluOperation.java:115-128 | an N16 destination receives the result & 0xFF at the address and (result >> 8) & 0xFF at address + 1. Otherwise a valid register destination receives it by name. Anything else drops it |
| Pipeline.Opcode.RunApplyResult | src/main/java/org/mochaboy/opcode/operations/ApplyResult.java:22-37 | R8 stores result & 0xFF and R16 stores result & 0xFFFF by name. MEMORY writes at the address the target register holds. An unknown name throws |
| Pipeline.Opcode.RunShift | src/main/java/org/mochaboy/opcode/operations/BitShiftOperation.java:23-62 | shifts the target (0 when there is none) with the carry flag and places the byte |
| Pipeline.Opcode.StoreShifted | src/main/java/org/mochaboy/opcode/operations/BitShiftOperation.java:64-76 | no destination operand means A, a non-immediate destination means [HL], and otherwise the named register |
| Pipeline.Opcode.RunBitwise | src/main/java/org/mochaboy/opcode/operations/BitwiseOperation.java:22-40 | A becomes A op source (a missing source counts as 0), masked to 8 bits; nothing else changes |
| Pipeline.Opcode.RunBitFlag | src/main/java/org/mochaboy/opcode/operations/BitFlagOperation.java:22-34 | RES/SET compute t with bit b cleared or set (missing suppliers count as 0), and no field, register or memory cell changes |
| Pipeline.Opcode.RunStack | src/main/java/org/mochaboy/opcode/operations/StackOperation.java:21-56 | POP, PUSH_HIGH and PUSH_LOW change the machine as StackStep says |
| Pipeline.Opcode.RunPop | src/main/java/org/mochaboy/opcode/operations/StackOperation.java:26-35 | POP records the value as destinationValue, loads the pair (setAF for AF) and moves SP up two mod 2^16. A missing setter throws after the record |
| Pipeline.Opcode.RunPushByte | src/main/java/org/mochaboy/opcode/operations/StackOperation.java:37-53 | SP moves down one mod 2^16 and the byte is stored there |
| Pipeline.Opcode.RunLoad | src/main/java/org/mochaboy/opcode/operations/Load.java:16-42 | the source is a register for R8/R16 sources and sourceValue otherwise. An immediate register destination gets it masked to 16 or 8 bits by name length. Anything else gets its low byte written at destinationValue |
| Pipeline.Opcode.RunCheckCC | src/main/java/org/mochaboy/opcode/operations/CheckCC.java:17-43 | only killRemainingOps can change, and it is set exactly when the condition fails |
| Pipeline.Opcode.RunCalculateCycles | src/main/java/org/mochaboy/opcode/operations/CalculateCycles.java:16-27 | realCycles becomes the chosen entry. A missing descriptor or an out-of-range index throws and changes nothing |
| Pipeline.Opcode.RunMerge | src/main/java/org/mochaboy/opcode/operations/MergeOperands.java:20-27 | the merged word goes into the chosen value field |
| Pipeline.Opcode.RunFlipBytes | src/main/java/org/mochaboy/opcode/operations/FlipBytes.java:21-28 | `(high << 8) \| (low & 0xFF)` goes into the chosen value field |
| Pipeline.Opcode.RunFlipOperands | src/main/java/org/mochaboy/opcode/operations/FlipOperands.java:14-21 | the destination and source values swap |
| Pipeline.Opcode.RunReadImmediate | src/main/java/org/mochaboy/opcode/operations/ReadImmediate8bit.java:22-30 | the byte at PC (or-ed with 0xFF00 for high RAM) goes to the consumer and PC moves on by one |
| Pipeline.Opcode.RunWriteMemory | src/main/java/org/mochaboy/opcode/operations/WriteMemory8Bit.java:18-24 | data & 0xFF is written at address & 0xFFFF |
| Pipeline.Opcode.RunInterrupt | src/main/java/org/mochaboy/opcode/operations/InterruptOperation.java:15-32 | DI clears IME, EI sets the pending enable, EI_QUICK sets IME and HALT sets halt |
| Pipeline.Opcode.RunReadRegister | src/main/java/org/mochaboy/opcode/operations/ReadRegister8Bit.java:18-23 | the named register masked to 8 (or 16) bits goes to the consumer; an unknown name throws |
| Pipeline.Opcode.RunReadMemory | src/main/java/org/mochaboy/opcode/operations/ReadMemory8Bit.java:19-26 | the byte at the supplied address goes to the consumer |
| Pipeline.Opcode.RunReadMemoryAt | src/main/java/org/mochaboy/opcode/operations/ReadMemory8Bits.java:18-24 | the byte at the address held in the named register goes to the consumer; an unknown name throws |
| Pipeline.Opcode.RunReadWord | src/main/java/org/mochaboy/opcode/operations/ReadMemory16Bit.java:19-24 | the little-endian word at the supplied address goes to the consumer |
| Pipeline.Opcode.RunHandleFlags | src/main/java/org/mochaboy/opcode/operations/HandleFlags.java:26-32 | processFlags runs on the two supplied values; a missing calculator throws |
| Pipeline.UshrHighByte | src/main/java/org/mochaboy/opcode/operations/StackOperation.java:39 | `(v >>> 8) & 0xFF` is the high byte of v, whatever its sign |
| Pipeline.PushHalvesArePush | src/main/java/org/mochaboy/opcode/operations/StackOperation.java:37-53 | PUSH_HIGH then PUSH_LOW (into anything but AF) store exactly what Stack.push stores and leave SP two lower. The corrected pop there gives the value back mod 2^16 |
| Pipeline.PopIntoAF | src/main/java/org/mochaboy/opcode/operations/StackOperation.java:26-35 | POP AF leaves F a flag byte, AF reads back as v & 0xFFF0, SP is two up and destinationValue is v |
| Pipeline.PopIntoPair | src/main/java/org/mochaboy/opcode/operations/StackOperation.java:26-35 | POP into BC/DE/HL loads v & 0xFFFF and moves SP two up. A destination with no setter throws after only destinationValue was recorded |
| Pipeline.WideResultReadsBack | src/main/java/org/mochaboy/opcode/operations/AluOperation.java:115-122 | an N16 result reads back as a word equal to result & 0xFFFF. No register, opcode field or other cell changes |
| Pipeline.HLStepsCancel | src/main/java/org/mochaboy/opcode/operations/AluOperation.java:51-62 | stepping HL up then down restores HL mod 2^16, and restores every register when H and L hold bytes |
| Pipeline.HLOfBytes | src/main/java/org/mochaboy/opcode/operations/AluOperation.java:51-62 | when H and L hold bytes, storing HL back into HL changes nothing |
| Pipeline.PostIncThenPostDec | src/main/java/org/mochaboy/opcode/operations/AluOperation.java:51-62 | POST_INC then POST_DEC never throw and restore HL, and restore the whole machine when H and L hold bytes |
| Pipeline.ImmediateRead | src/main/java/org/mochaboy/opcode/operations/ReadImmediate8bit.java:22-30 | the byte at PC (with 0xFF00 for high RAM) goes to the field, PC grows by one, and nothing else changes |
| Pipeline.WriteThenRead | src/main/java/org/mochaboy/opcode/operations/WriteMemory8Bit.java:18-24 | a byte written by WriteMemory8Bit and read back at the same address by ReadMemory8Bit is data & 0xFF |
| Pipeline.WriteThenReadAsWritten | src/main/java/org/mochaboy/opcode/operations/ReadMemory8Bit.java:23 | with the signed read the source performs, the same round trip hands on data & 0xFF minus 256 for every byte from 0x80 up |
| Pipeline.LoadMasksToWidth | src/main/java/org/mochaboy/opcode/operations/Load.java:33-39 | LD into a one-letter register stores source & 0xFF. LD into BC/DE/HL/SP/PC stores source & 0xFFFF. Anything else writes the low byte at destinationValue |
| Pipeline.AppliedResultWidths | src/main/java/org/mochaboy/opcode/operations/ApplyResult.java:22-37 | R8 reads back as v & 0xFF and R16 as v & 0xFFFF. MEMORY stores the low byte at the target register's address and changes no register. An R8/R16 name with no setter throws and changes nothing |
| Pipeline.BranchCycles | src/main/java/org/mochaboy/opcode/operations/CalculateCycles.java:16-27 | CheckCC kills exactly when the condition fails, and CalculateCycles then charges entry 0 for a taken branch and entry 1 otherwise |
| Pipeline.SwapTwice | src/main/java/org/mochaboy/opcode/operations/FlipOperands.java:14-21 | FlipOperands undoes itself |
| Pipeline.ExecuteDrains | src/main/java/org/mochaboy/opcode/Opcode.java:38-42 | execute throws exactly when its operation does. Running the last operation without a throw leaves no operations remaining, and a longer queue keeps the flag |
| Descriptors.CheckFlagsByChar | src/main/java/org/mochaboy/Flags.java:44-57 | only the letters Z, N, H and C can answer true |
| Descriptors.CheckFlagsByCharReadsBit | src/main/java/org/mochaboy/Flags.java:44-57 | CheckFlagsByChar(ch) holds exactly when ch is the letter of a flag whose bit is set in F |
| FlagCalculator.Entries | src/main/java/org/mochaboy/opcode/FlagCalculator.java:15-20 | the table has the SUB, SBC, CP, ADD, LD and BIT calculators under their mnemonics |
| FlagCalculator.PopEntry | src/main/java/org/mochaboy/opcode/FlagCalculator.java:233 | the table has POP's calculator under "POP" |
| FlagCalculator.Calculate | src/main/java/org/mochaboy/opcode/FlagCalculator.java:283-287 | calculateFlags throws exactly for a mnemonic with no registered calculator |
| FlagCalculator.Run | src/main/java/org/mochaboy/opcode/FlagCalculator.java:22-275 | only ADD (with fewer than two operands) and DEC/INC (with none) fail on the operand array. Only POP's calculator changes a register, and it writes the popped flag bits |
| FlagCalculator.Applied | src/main/java/org/mochaboy/opcode/FlagCalculator.java:300-314 | a Z/H/C switch sets its flag to the condition for its own letter, clears it for "0", sets it for "1" and otherwise leaves it. No other flag or register changes, and F stays a flag byte |
| FlagCalculator.AppliedSubtract | src/main/java/org/mochaboy/opcode/FlagCalculator.java:317-327 | the N switch falls through, so the letter "N" leaves N clear. "0", "1" and any other letter behave as in the other switches. Nothing else changes |
| FlagCalculator.FlagsAppliedOutcome | src/main/java/org/mochaboy/opcode/FlagCalculator.java:297-356 | after applyFlags each flag is what its letter dictates, except that N ends clear under "N". Only F changes and it stays a flag byte |
| FlagCalculator.XorHalfCarryIsBorrow | src/main/java/org/mochaboy/opcode/FlagCalculator.java:86 | the `x ^ y ^ result` bit-4 test is exactly a borrow out of the low nibble: x & 0xF < (y & 0xF) + carry |
| FlagCalculator.SubFlags | src/main/java/org/mochaboy/opcode/FlagCalculator.java:91-97 | SUB: Z iff the 8-bit difference is zero, H iff the low nibble borrows, C iff y exceeds register A |
| FlagCalculator.SbcFlags | src/main/java/org/mochaboy/opcode/FlagCalculator.java:82-89 | SBC: as SUB with the carry flag subtracted too; C iff y + carry exceeds register A |
| FlagCalculator.CpFlags | src/main/java/org/mochaboy/opcode/FlagCalculator.java:213-219 | CP: SUB's Z and H, but C iff y > x, whatever A holds |
| FlagCalculator.Bit12IsCarry | src/main/java/org/mochaboy/opcode/FlagCalculator.java:42 | bit 12 of the sum of the two 12-bit halves is the carry out of bit 11 |
| FlagCalculator.WideAddFlags | src/main/java/org/mochaboy/opcode/FlagCalculator.java:35-44 | ADD with a 16-bit second operand: H is the carry out of bit 11, C the carry out of bit 15, and Z is never set |
| FlagCalculator.StackOffsetFlags | src/main/java/org/mochaboy/opcode/FlagCalculator.java:251-257 | LD HL, SP+e8 computes the same H and C as ADD SP, e8: the carries out of bits 3 and 7 of SP's low byte plus the e8 byte |
| FlagCalculator.LoadOffsetConditions | src/main/java/org/mochaboy/opcode/FlagCalculator.java:251-257 | the three-operand LD branch gives H iff the low nibbles carry and C iff the low bytes carry; Z and N stay false |
| FlagCalculator.XorCarryBit | src/main/java/org/mochaboy/opcode/FlagCalculator.java:255-256 | bit k of `a ^ b ^ ((a + b) mod 2^n)` is the carry into bit k of a + b |
| FlagCalculator.BitTestFlags | src/main/java/org/mochaboy/opcode/FlagCalculator.java:107-111 | BIT u3: Z is set iff bit u3 of the operand is clear; nothing else is computed |
| FlagCalculator.PopCopiesFlagBits | src/main/java/org/mochaboy/opcode/FlagCalculator.java:233-247 | POP's calculator copies bits 7..4 of the popped value into Z, N, H and C, changes no other register and returns all-false conditions |
| FlagCalculator.PoppedFlagBits | src/main/java/org/mochaboy/opcode/FlagCalculator.java:235-245 | the four setFlag calls leave exactly bits 7..4 of the value in F |
| FlagCalculator.PopAFEndsWithFlagsClear | src/main/java/org/mochaboy/opcode/FlagCalculator.java:278-281 | POP AF (flag letters Z N H C) ends with every flag clear, whatever was popped, because applyFlags overwrites the copied bits with all-false conditions |
| FlagCalculator.ApplyFlags | src/main/java/org/mochaboy/opcode/FlagCalculator.java:297-356 | the registers become FlagsApplied of the old registers |
| FlagCalculator.ApplySwitch | src/main/java/org/mochaboy/opcode/FlagCalculator.java:300-314 | the registers become Applied of the old registers for that flag |
| FlagCalculator.ApplySubtractSwitch | src/main/java/org/mochaboy/opcode/FlagCalculator.java:317-327 | the registers become AppliedSubtract of the old registers |
| FlagCalculator.CalculateFlags | src/main/java/org/mochaboy/opcode/FlagCalculator.java:283-287 | throws, changing nothing, exactly when Calculate says so; otherwise returns its conditions, with POP's writes to F made |
| FlagCalculator.ProcessFlags | src/main/java/org/mochaboy/opcode/FlagCalculator.java:278-281 | throws, changing nothing, exactly for an unknown mnemonic; otherwise the registers become FlagsProcessed of the old ones |
| Builder.DigitValue | src/main/java/org/mochaboy/opcode/OpcodeBuilder.java:160-161 | a bit-number operand "0".."9" parses to a value from 0 to 9 |
| Builder.AluKindOf | src/main/java/org/mochaboy/opcode/OpcodeBuilder.java:256-278 | the mnemonic switch never queues POST_INC or POST_DEC; only handlePostIncDec does |
| Builder.Classify | src/main/java/org/mochaboy/opcode/OpcodeBuilder.java:90-168 | the operand switch classes a name as an 8-bit register, a 16-bit register or a bit number exactly when it is one of those names |
| Builder.MnemonicDraft | src/main/java/org/mochaboy/opcode/OpcodeBuilder.java:252-384 | buildOpsFromMnemonics keeps the queue so far and appends neither a HandleFlags nor a post step. It marks the opcode unimplemented exactly when it does not throw and has no case for the mnemonic |
| Builder.PostQueued | src/main/java/org/mochaboy/opcode/OpcodeBuilder.java:389-407 | one post step is queued for a "+" or "-" operand and none otherwise; nothing else changes |
| Builder.MarkCount | src/main/java/org/mochaboy/opcode/OpcodeBuilder.java:386-409 | at most two post steps are ever queued |
| Builder.PostIncDecDraft | src/main/java/org/mochaboy/opcode/OpcodeBuilder.java:386-409 | handlePostIncDec clears checkIncDec and appends only post steps, one per marked operand among the first two. An empty operand list throws |
| Builder.SumCycles | src/main/java/org/mochaboy/opcode/OpcodeBuilder.java:411-417 | no micro-operation costs more than two cycles |
| Builder.OpcodeBuilder.constructor | src/main/java/org/mochaboy/opcode/OpcodeBuilder.java:13-17 | a new builder holds the two instruction tables and has checkIncDec clear |
| Builder.OpcodeBuilder.Build | src/main/java/org/mochaboy/opcode/OpcodeBuilder.java:19-45 | build leaves the opcode and the builder as Built says for the table the prefix selects, and returns a fresh Opcode |
| Builder.OpcodeBuilder.Finish | src/main/java/org/mochaboy/opcode/OpcodeBuilder.java:32-42 | the HandleFlags step, the post steps when checkIncDec is set, then cyclesConsumed = 1 + the queue's cycles |
| Builder.OpcodeBuilder.BuildFromOperands | src/main/java/org/mochaboy/opcode/OpcodeBuilder.java:58-85 | the destination, then the source, then the third operand's read and padding cycle are handled in turn |
| Builder.OpcodeBuilder.HandleDestinationOperand | src/main/java/org/mochaboy/opcode/OpcodeBuilder.java:87-170 | the destination operand is recorded and decoded as DestinationDraft says |
| Builder.OpcodeBuilder.DecodeDestination | src/main/java/org/mochaboy/opcode/OpcodeBuilder.java:90-168 | each case of the destination switch sets the type, cc or value and queues the reads it names |
| Builder.OpcodeBuilder.HandleSourceOperand | src/main/java/org/mochaboy/opcode/OpcodeBuilder.java:172-250 | the source operand is recorded and decoded as SourceDraft says |
| Builder.OpcodeBuilder.AddThree | src/main/java/org/mochaboy/opcode/OpcodeBuilder.java:104-110 | three addOp calls append the three operations in order and only mark operations as remaining |
| Builder.OpcodeBuilder.DecodeSource | src/main/java/org/mochaboy/opcode/OpcodeBuilder.java:175-249 | each case of the source switch sets the type and queues the reads it names |
| Builder.OpcodeBuilder.QueueAlu | src/main/java/org/mochaboy/opcode/OpcodeBuilder.java:256-278 | an AluOperation is queued, or the constructor throws when the destination type is null |
| Builder.OpcodeBuilder.BuildFromMnemonic | src/main/java/org/mochaboy/opcode/OpcodeBuilder.java:252-384 | the mnemonic switch changes the opcode as MnemonicDraft says |
| Builder.OpcodeBuilder.QueuePost | src/main/java/org/mochaboy/opcode/OpcodeBuilder.java:389-397 | one operand's post step is queued as PostQueued says |
| Builder.OpcodeBuilder.HandlePostIncDec | src/main/java/org/mochaboy/opcode/OpcodeBuilder.java:386-409 | handlePostIncDec changes the opcode and the builder as PostIncDecDraft says |
| Builder.OpcodeBuilder.CalculateCycles | src/main/java/org/mochaboy/opcode/OpcodeBuilder.java:411-417 | the loop returns the sum of getCycles over the queue |
| Builder.RunInOrder | src/main/java/org/mochaboy/opcode/Opcode.java:38-42 | running a queue in order keeps memory at 0x10000 cells |
| Builder.RunInOrderAppend | src/main/java/org/mochaboy/opcode/Opcode.java:38-42 | running a + b is running a, then b from where a left off unless a threw |
| Builder.SumCyclesAppend | src/main/java/org/mochaboy/opcode/OpcodeBuilder.java:411-417 | the cycles of two queues back to back add up |
| Builder.OperandsGrow | src/main/java/org/mochaboy/opcode/OpcodeBuilder.java:58-85 | buildMicroOpsFromOperands only appends operand reads: never the flag step, never a post step, and the unimplemented mark is untouched |
| Builder.BodyIsClean | src/main/java/org/mochaboy/opcode/OpcodeBuilder.java:29-30 | the operand and mnemonic stages queue neither the flag step nor a post step |
| Builder.FlagsQueuedOnce | src/main/java/org/mochaboy/opcode/OpcodeBuilder.java:19-45 | a build that does not throw queues exactly one HandleFlags, after every operand and mnemonic operation. Only the post steps follow it, one per marked operand when checkIncDec was set. checkIncDec ends clear, and cyclesConsumed is 1 + the cycles before the flag step |
| Builder.PostStepsCostNothing | src/main/java/org/mochaboy/opcode/OpcodeBuilder.java:386-409 | POST_INC and POST_DEC add no cycles |
| Builder.UnimplementedIffUnknown | src/main/java/org/mochaboy/opcode/OpcodeBuilder.java:380-382 | a build that does not throw marks the opcode unimplemented exactly when the builder has no case for the mnemonic |
| Builder.AluNeedsDestinationType | src/main/java/org/mochaboy/opcode/OpcodeBuilder.java:256-278 | an ALU mnemonic throws exactly when the operands left no destination type. Otherwise it queues one operation, 16 bits wide exactly for an R16 or N16 destination |
| Builder.OperandCIsConditionOnlyForBranches | src/main/java/org/mochaboy/opcode/OpcodeBuilder.java:112-138 | under CALL/JP/JR/RET the operand "C" sets the carry condition and reads nothing; under any other mnemonic it queues a read of register C |
| Builder.ShiftsQueueNothing | src/main/java/org/mochaboy/opcode/OpcodeBuilder.java:330-365 | the shift and rotate mnemonics leave the opcode as it was: the operation is constructed but never queued |
| Builder.AddressReadIsWord | src/main/java/org/mochaboy/opcode/OpcodeBuilder.java:98-111 | the a16 reads and merge leave the little-endian word at PC in destinationValue and move PC on by two, at a cost of two cycles |
| Builder.WordReadIsWord | src/main/java/org/mochaboy/opcode/OpcodeBuilder.java:189-202 | the n16 reads and FlipBytes leave the little-endian word at PC in sourceValue and move PC on by two, at a cost of two cycles |
| Builder.FlippedIsWord | src/main/java/org/mochaboy/opcode/OpcodeBuilder.java:199-201 | FlipBytes of the bytes at an address and the address after it is the little-endian word there |
| Builder.OffsetReadIsByte | src/main/java/org/mochaboy/opcode/OpcodeBuilder.java:218-222 | the e8 read leaves the byte at PC in sourceValue and moves PC on by one, at a cost of two cycles |
| Builder.StackPointerStoreWritesWord | src/main/java/org/mochaboy/opcode/OpcodeBuilder.java:284-298 | the two writes of LD (a16),SP store a 16-bit source little-endian at the address, change nothing else and cost four cycles |
| Builder.StoredWordReadsBack | src/main/java/org/mochaboy/opcode/OpcodeBuilder.java:284-298 | a 16-bit value stored as low byte then high byte reads back whole |
| Builder.StoreWordFrame | src/main/java/org/mochaboy/opcode/OpcodeBuilder.java:284-298 | storing a word changes only its two cells |
| Builder.LoadAddressSpBuild | src/main/java/org/mochaboy/opcode/OpcodeBuilder.java:284-298 | LD (a16),SP builds address read, SP read, two writes and the flag step, charged 1 + 2 + 4 = 7 cycles |
| Builder.LoadAddressSpStoresSp | src/main/java/org/mochaboy/opcode/OpcodeBuilder.java:284-298 | run to the end, LD (a16),SP leaves SP mod 2^16 as the little-endian word at the address that followed the opcode, and PC two on |
| Cpu.Lookup | src/main/java/org/mochaboy/CPU.java:64-67 | the table lookup finds a descriptor exactly when the table has the key, and it is that key's entry |
| Cpu.FetchLandsOnOpcode | src/main/java/org/mochaboy/CPU.java:56-70 | fetch moves PC by one exactly when the byte at PC is 0xCB and otherwise leaves it. The descriptor comes from the CB table after a move and from the unprefixed table otherwise, keyed by the byte PC then rests on. No other register changes |
| Cpu.Cpu.constructor | src/main/java/org/mochaboy/CPU.java:21-28 | a new CPU shares the memory, has all-zero registers with a stack over them and memory, and clears every counter and switch |
| Cpu.Cpu.Fetch | src/main/java/org/mochaboy/CPU.java:56-70 | fetch returns the descriptor and leaves the registers as FetchLandsOnOpcode describes |
| Cpu.Cpu.IncrementTStateCounter | src/main/java/org/mochaboy/CPU.java:92-94 | the counter grows by the argument; no other field changes |
| Cpu.Cpu.SetTStateCounter | src/main/java/org/mochaboy/CPU.java:88-90 | only the counter changes |
| Cpu.Cpu.SetIME | src/main/java/org/mochaboy/CPU.java:104-106 | only IME changes |
| Cpu.Cpu.SetPendingInterruptSwitch | src/main/java/org/mochaboy/CPU.java:112-115 | the switch is stored and IME is switched on, whatever the argument |
| Cpu.Cpu.SetLowPowerMode | src/main/java/org/mochaboy/CPU.java:121-123 | only that field changes |
| Cpu.Cpu.SetStopMode | src/main/java/org/mochaboy/CPU.java:129-131 | only that field changes |
| Cpu.Cpu.SetDidJump | src/main/java/org/mochaboy/CPU.java:137-139 | only that field changes |
| Cpu.Cpu.SetHalt | src/main/java/org/mochaboy/opcode/operations/InterruptOperation.java:27-29 | only the halt switch changes |
| Cpu.Cpu.SetPendingImeEnable | src/main/java/org/mochaboy/opcode/operations/InterruptOperation.java:21-23 | only the pending-enable switch changes |
| Cpu.Cpu.StopCpu | src/main/java/org/mochaboy/CPU.java:51-53 | only running changes, to false |
| Timers.TacFrequencyIsPowerOfFour | src/main/java/org/mochaboy/registers/Timer.java:64-82 | each TAC divider is a power of four between 4 and 256, with selector 1 the fastest and 0 the slowest |
| Timers.TacEnabledOnBytes | src/main/java/org/mochaboy/registers/Timer.java:60-62 | on a register byte the timer counts as enabled exactly when TAC >= 4, that is when any of bits 2..7 is set |
| Timers.DivTicked | src/main/java/org/mochaboy/registers/Timer.java:22-27 | a DIV tick keeps memory at 0x10000 cells |
| Timers.TimaTicked | src/main/java/org/mochaboy/registers/Timer.java:33-41 | the corrected TIMA tick (see Findings) keeps memory at 0x10000 cells |
| Timers.TimaCountsUp | src/main/java/org/mochaboy/registers/Timer.java:33-41 | below 0xFF, the corrected incTima adds one to TIMA and changes nothing else |
| Timers.TimaOverflow | src/main/java/org/mochaboy/registers/Timer.java:33-41 | at 0xFF, the corrected incTima leaves TIMA 0 because the TMA reload is overwritten. It sets the TIMER bit of IF, keeps the other IF bits and changes no other cell |
| Timers.TimaTickedAsWritten | src/main/java/org/mochaboy/registers/Timer.java:33-45 | the as-written TIMA tick keeps memory at 0x10000 cells |
| Timers.TimaAsWrittenOnlyCounts | src/main/java/org/mochaboy/registers/Timer.java:33-45 | as written, incTima only sets TIMA to (TIMA + 1) mod 256: no TMA reload and no interrupt request from any cell value |
| Timers.TimaOverflowLostAsWritten | src/main/java/org/mochaboy/registers/Timer.java:33-45 | from TIMA = 0xFF, as written TIMA wraps to 0 and IF is unchanged, whereas the corrected tick sets the TIMER bit |
| Timers.Timer.constructor | src/main/java/org/mochaboy/registers/Timer.java:15-20 | the timer keeps the memory and the interrupt controller it is given |
| Timers.Timer.IncDiv | src/main/java/org/mochaboy/registers/Timer.java:22-27 | DIV becomes (DIV + 1) mod 256; nothing else changes |
| Timers.Timer.ResetDiv | src/main/java/org/mochaboy/registers/Timer.java:29-31 | DIV becomes 0; nothing else changes |
| Timers.Timer.ResetTima | src/main/java/org/mochaboy/registers/Timer.java:47-49 | TIMA becomes value & 0xFF; nothing else changes |
| Timers.Timer.IncTima | src/main/java/org/mochaboy/registers/Timer.java:33-41 | memory becomes the corrected TimaTicked of the old memory, and an overflow also clears the CPU's halt |
| Interrupts.VectorsByOrdinal | src/main/java/org/mochaboy/registers/Interrupt.java:25-31 | the vectors are 0x40 + 8 × the interrupt's bit, five distinct bits |
| Interrupts.RaiseSetsOneBit | src/main/java/org/mochaboy/registers/Interrupt.java:34-36 | on a byte, `IF \| (1 << bit)` is a byte with the interrupt's bit set and every other bit as before |
| Interrupts.RaiseIdempotent | src/main/java/org/mochaboy/registers/Interrupt.java:36 | raising the same interrupt twice is raising it once |
| Interrupts.Requested | src/main/java/org/mochaboy/registers/Interrupt.java:33-39 | a request keeps memory at 0x10000 cells |
| Interrupts.RequestTouchesOnlyIF | src/main/java/org/mochaboy/registers/Interrupt.java:33-39 | a request changes only IF, where it sets the interrupt's bit and keeps the others. A repeated request changes nothing |
| Interrupts.InterruptController.constructor | src/main/java/org/mochaboy/registers/Interrupt.java:17-23 | the controller keeps the CPU and memory it is given |
| Interrupts.InterruptController.SetInterrupt | src/main/java/org/mochaboy/registers/Interrupt.java:33-39 | memory becomes Requested of the old memory, and the CPU's halt switch is cleared |
| Interrupts.InterruptController.HandleInterrupt | src/main/java/org/mochaboy/registers/Interrupt.java:41-45 | PC is pushed (SP two lower, its two bytes written, the stack's debug list gaining them) and PC becomes the vector. IME is switched off and IF is left as it was |
| Video.ClearLowTwo | src/main/java/org/mochaboy/PPU.java:220 | on a byte, `& 0xFC` clears exactly the two low bits |
| Video.StatKeepsUpperBits | src/main/java/org/mochaboy/PPU.java:215-226 | on a byte, `(STAT & 0xFC) \| ordinal` is a byte that keeps bits 7..2 and holds the mode's ordinal in bits 1..0 |
| Video.ModeStat | src/main/java/org/mochaboy/PPU.java:215-226 | the STAT byte setPpuMode leaves keeps bits 7..2. Its bits 1..0 hold the ordinal, or 0 with the LCD off |
| Video.ModeSet | src/main/java/org/mochaboy/PPU.java:215-226 | setPpuMode keeps memory at 0x10000 cells |
| Video.ModeSetWritesStat | src/main/java/org/mochaboy/PPU.java:215-226 | setPpuMode records the mode and changes only STAT, to the byte ModeStat describes |
| Video.StatByteWritten | src/main/java/org/mochaboy/PPU.java:220-225 | the one or two Java writes to STAT produce the byte ModeStat describes |
| Video.StatWrites | src/main/java/org/mochaboy/PPU.java:221-225 | of the two writes to STAT only the last one is visible |
| Video.StatModeCleared | src/main/java/org/mochaboy/PPU.java:224 | with the LCD off the second write clears the mode bits again |
| Video.VBlankTriggered | src/main/java/org/mochaboy/PPU.java:159-163 | the V-blank trigger keeps memory at 0x10000 cells |
| Video.VBlankTriggerIsRequest | src/main/java/org/mochaboy/PPU.java:159-163 | `IF \| 0x01` at 0xFF0F is the same as requesting the VBLANK interrupt through the interrupt controller |
| Video.LyIncremented | src/main/java/org/mochaboy/PPU.java:165-172 | the corrected incrementLY (see Findings) keeps memory at 0x10000 cells |
| Video.Enter | src/main/java/org/mochaboy/PPU.java:56-75 | a mode switch keeps memory at 0x10000 cells |
| Video.SelectMode | src/main/java/org/mochaboy/PPU.java:54-76 | the corrected mode selection keeps memory at 0x10000 cells |
| Video.EndScanline | src/main/java/org/mochaboy/PPU.java:79-86 | the corrected end-of-scanline part keeps memory at 0x10000 cells |
| Video.Stepped | src/main/java/org/mochaboy/PPU.java:42-87 | the corrected step keeps memory at 0x10000 cells |
| Video.Initialised | src/main/java/org/mochaboy/PPU.java:30-40 | init keeps memory at 0x10000 cells |
| Video.LcdEnableBit | src/main/java/org/mochaboy/PPU.java:44 | `lcdc & 0x80` tests bit 7 |
| Video.LcdOffStep | src/main/java/org/mochaboy/PPU.java:43-49 | with LCDC bit 7 clear, step sets LY to 0 and the mode to H-blank with STAT's mode bits cleared. It keeps the counter and writes nothing else |
| Video.VBlankEntry | src/main/java/org/mochaboy/PPU.java:54-59 | in the corrected step, from LY >= 144, IF bit 0 is set exactly when the mode was not already V-blank. The mode becomes V-blank unless the scanline also ends and LY wraps below 144 |
| Video.EndScanlineFrame | src/main/java/org/mochaboy/PPU.java:79-86 | in the corrected step, at the end of a scanline the counter drops by 456, LY advances mod 154, and the mode resets to OAM scan when the new LY is below 144. Only LY and STAT are written; below 456 nothing changes |
| Video.ModeByCounter | src/main/java/org/mochaboy/PPU.java:60-86 | in the corrected step below LY 144, the advanced counter c picks OAM scan for c < 80, drawing for c < 252 and H-blank for c < 456; c >= 456 ends the scanline. IF is untouched |
| Video.StepKeepsLyBelow154 | src/main/java/org/mochaboy/PPU.java:165-172 | the corrected step keeps LY within 0..153 |
| Video.SelectModeFrame | src/main/java/org/mochaboy/PPU.java:54-76 | mode selection writes only STAT and IF and keeps the counter |
| Video.StepKeepsStatInSync | src/main/java/org/mochaboy/PPU.java:42-87 | once STAT's mode bits agree with the mode, every step keeps them in agreement |
| Video.SelectKeepsStatInSync | src/main/java/org/mochaboy/PPU.java:54-76 | mode selection with the LCD on keeps STAT in agreement with the mode |
| Video.EndKeepsStatInSync | src/main/java/org/mochaboy/PPU.java:79-86 | the end of a scanline with the LCD on keeps STAT in agreement with the mode |
| Video.StepKeepsCounterInScanline | src/main/java/org/mochaboy/PPU.java:52-80 | a counter within one scanline stays within one scanline when a step adds at most 456 cycles |
| Video.InitLeavesStatModeClear | src/main/java/org/mochaboy/PPU.java:30-40 | init leaves mode OAM scan, the LCD on, LY 0, LCDC 0x91, BGP 0xFC and OBP0/OBP1 0xFF. Because lcdEnabled is still false when the mode is written, STAT's mode bits read 0 |
| Video.LyIncrementedAsWritten | src/main/java/org/mochaboy/PPU.java:165-172 | the as-written incrementLY keeps memory at 0x10000 cells |
| Video.SelectModeAsWritten | src/main/java/org/mochaboy/PPU.java:51-76 | the as-written mode selection keeps memory at 0x10000 cells |
| Video.EndScanlineAsWritten | src/main/java/org/mochaboy/PPU.java:79-86 | the as-written end of a scanline keeps memory at 0x10000 cells |
| Video.SteppedAsWritten | src/main/java/org/mochaboy/PPU.java:42-87 | the as-written step keeps memory at 0x10000 cells |
| Video.LyAsWrittenCycles256 | src/main/java/org/mochaboy/PPU.java:165-172 | as written, incrementLY sets LY to (LY + 1) mod 256 and returns a value below 144 from every cell; from 153 it writes 154 where the corrected version writes 0 |
| Video.StepAsWrittenNeverEntersVBlank | src/main/java/org/mochaboy/PPU.java:42-87 | as written, step never writes IF and leaves the mode V-blank only if it already was |
| Video.VBlankLostAsWritten | src/main/java/org/mochaboy/PPU.java:51-59 | from LY = 0x90 with the LCD on and the mode not V-blank, the corrected step sets IF bit 0 while the as-written step leaves IF unchanged |
| Video.Ppu.constructor | src/main/java/org/mochaboy/PPU.java:15-21 | a new PPU starts with the counter at 0 and runs init |
| Video.Ppu.Init | src/main/java/org/mochaboy/PPU.java:30-40 | the PPU and memory become Initialised of the old state |
| Video.Ppu.SetPpuMode | src/main/java/org/mochaboy/PPU.java:215-226 | the PPU and memory become ModeSet of the old state |
| Video.Ppu.TriggerVBlankInterrupt | src/main/java/org/mochaboy/PPU.java:159-163 | memory becomes VBlankTriggered of the old memory |
| Video.Ppu.IncrementLY | src/main/java/org/mochaboy/PPU.java:165-172 | the corrected incrementLY: LY becomes (LY + 1) mod 154, which is also returned and is below 154 |
| Video.Ppu.Step | src/main/java/org/mochaboy/PPU.java:42-87 | the PPU and memory become the corrected Stepped of the old state |
| Display.IndexInRange | src/main/java/org/mochaboy/FrameBuffer.java:14-17 | an in-bounds pixel's row-major index lies within the array |
| Display.IndexInjective | src/main/java/org/mochaboy/FrameBuffer.java:14-17 | distinct in-bounds pixels have distinct cells |
| Display.Painted | src/main/java/org/mochaboy/FrameBuffer.java:14-17 | setPixel keeps the buffer's size |
| Display.PaintThenRead | src/main/java/org/mochaboy/FrameBuffer.java:14-26 | after setPixel the painted point reads the new colour when it is in bounds, and every other point reads as before (0 out of bounds) |
| Display.PaintChangesOneCell | src/main/java/org/mochaboy/FrameBuffer.java:14-17 | an in-bounds write changes only the cell at y * width + x; an out-of-bounds write changes nothing |
| Display.FrameBuffer.constructor | src/main/java/org/mochaboy/FrameBuffer.java:8-12 | a new buffer has width * height pixels, all 0 |
| Display.FrameBuffer.SetPixel | src/main/java/org/mochaboy/FrameBuffer.java:14-17 | the pixels become Painted of the old pixels |
| Display.FrameBuffer.GetPixels | src/main/java/org/mochaboy/FrameBuffer.java:19-21 | getPixels returns a fresh array with the buffer's current contents |
| LegacyFlags.Calculate | src/main/java/org/mochaboy/FlagCalculator.java:105-109 | calculateFlags throws exactly for a mnemonic with no calculator (only ADD, ADC, DEC, INC, AND, BIT and CP have one) |
| LegacyFlags.Entries | src/main/java/org/mochaboy/FlagCalculator.java:12-17 | the table holds the ADD, ADC, DEC, INC, AND, BIT and CP calculators under their mnemonics |
| LegacyFlags.HighNibbleValue | src/main/java/org/mochaboy/FlagCalculator.java:63 | `x & 0xF0` is the high nibble of x's low byte, kept in place |
| LegacyFlags.ByteAddFlags | src/main/java/org/mochaboy/FlagCalculator.java:41-44 | ADD of two bytes: Z iff the sum wraps to zero, H iff the low nibbles carry, C iff the sum does not fit a byte. The second generation's calculator agrees |
| LegacyFlags.WideAddFlags | src/main/java/org/mochaboy/FlagCalculator.java:32-40 | ADD with a 16-bit second operand: H is the carry out of bit 11, C the carry out of bit 15, and Z is never set |
| LegacyFlags.OffsetAddFlags | src/main/java/org/mochaboy/FlagCalculator.java:25-30 | ADD SP, e8: C is the carry out of the low byte, but H is the 12-bit test, so x = 0x0F, y = 0x01 sets no H where the second generation does |
| LegacyFlags.AdcFoldsCarry | src/main/java/org/mochaboy/FlagCalculator.java:49-56 | ADC adds the carry flag in. Both generations' ADC calculators agree, and with C clear it computes what byte ADD computes |
| LegacyFlags.AddIsAdcWithoutCarry | src/main/java/org/mochaboy/FlagCalculator.java:41-56 | with C clear, ADD of a byte operand computes the conditions ADC does |
| LegacyFlags.IncDecOnlyForRegisters | src/main/java/org/mochaboy/FlagCalculator.java:58-75 | INC and DEC leave every condition false unless the operand is an 8-bit register or HL. Then INC's Z and H are those of adding y and DEC's are those of CP; N is never computed |
| LegacyFlags.CompareFlags | src/main/java/org/mochaboy/FlagCalculator.java:93-99 | CP: Z iff x and y agree mod 256 and C iff y > x. H also holds when only the high nibble is smaller, as for x = 0x0F, y = 0x10 |
| LegacyFlags.DifferenceWrapsToZero | src/main/java/org/mochaboy/FlagCalculator.java:95 | x - y is 0 mod 256 exactly when x and y agree mod 256 |
| LegacyFlags.BitTestFlags | src/main/java/org/mochaboy/FlagCalculator.java:85-89 | BIT u3: Z iff bit u3 of the operand is clear, nothing else computed; the second generation agrees |
| Handler.Switched | src/main/java/org/mochaboy/OpcodeHandler.java:111-133 | a processFlags switch changes only F and keeps it a flag byte |
| Handler.SwitchedFlags | src/main/java/org/mochaboy/OpcodeHandler.java:111-133 | the own letter stores the condition in the target flag, "0" clears the flag and "1" sets it; any other letter changes nothing. No other flag changes |
| Handler.ProcessFlagsOutcome | src/main/java/org/mochaboy/OpcodeHandler.java:103-134 | after processFlags, Z and C follow their letters. An "H" letter writes the half-carry condition into N and leaves H alone, and N's own letter decides N only when H's letter is not "H". Only F changes |
| Handler.ProcessedMiddleFlags | src/main/java/org/mochaboy/OpcodeHandler.java:117-127 | the N switch, then the H switch whose "H" case writes into N, have the effect ProcessFlagsOutcome states |
| Handler.Switch | src/main/java/org/mochaboy/OpcodeHandler.java:111-133 | the registers become Switched of the old registers |
| Handler.ProcessFlags | src/main/java/org/mochaboy/OpcodeHandler.java:103-134 | processFlags throws, changing nothing, exactly when the instruction has fewer than two operands. Otherwise the registers become FlagsProcessed of the old ones |
| Handler.Masked | src/main/java/org/mochaboy/OpcodeHandler.java:145-150 | the masked result is always a 16-bit value |
| Handler.ApplyResult | src/main/java/org/mochaboy/OpcodeHandler.java:145-150 | applyResult throws exactly for a name with no setter; otherwise it stores the masked result by name |
| Handler.ApplyResultReadsBack | src/main/java/org/mochaboy/OpcodeHandler.java:141-150 | after applyResult, getByName gives the result mod 256 for a one-letter register and mod 65536 for SP, PC, BC, DE and HL. "n8" counts as 8-bit but has no setter |
| Handler.CarryIn | src/main/java/org/mochaboy/OpcodeHandler.java:56 | the carry ADC adds is 0 or 1 |
| Handler.SameLowByte | src/main/java/org/mochaboy/OpcodeHandler.java:57-62 | addends that agree mod 256 give the same low byte and the same low nibble |
| Handler.NinthBit | src/main/java/org/mochaboy/OpcodeHandler.java:62 | `s & 0x100` on a sum of two bytes and a carry tests whether it reached 256 |
| Handler.AdcAddsWithCarry | src/main/java/org/mochaboy/OpcodeHandler.java:38-66 | ADC leaves A as A + operand byte + carry mod 256. Z says the sum wrapped to zero, H that the nibbles carried, C that it reached 256, and N is cleared. Signed memory reads change none of this. PC moves past n8, and it throws exactly when the operand is missing or names no register |
| Handler.AdcOperandReads | src/main/java/org/mochaboy/OpcodeHandler.java:39-53 | ADC's operand read finds a value exactly where there is an operand byte. The value agrees with that byte mod 256, and only PC moves |
| Handler.AdcFromOperand | src/main/java/org/mochaboy/OpcodeHandler.java:55-65 | ADC of an operand standing for byte b computes the sum with b, and only F, A and PC change |
| Handler.AdcLowByteOnly | src/main/java/org/mochaboy/OpcodeHandler.java:55-62 | only the operand's low byte matters to ADC's sum and flags |
| Handler.AdcSumAdds | src/main/java/org/mochaboy/OpcodeHandler.java:55-62 | on bytes, ADC's Z, H and C are those of the true sum |
| Handler.AdcWrittenFacts | src/main/java/org/mochaboy/OpcodeHandler.java:60-65 | ADC's writes set each flag to its condition with N clear and A to the value; nothing else changes |
| Handler.AdcFlagsFacts | src/main/java/org/mochaboy/OpcodeHandler.java:60-63 | each flag ADC writes holds its condition, and only F changes |
| Handler.Adc | src/main/java/org/mochaboy/OpcodeHandler.java:38-66 | the registers and the throw become AdcHandled of the old state |
| Handler.ReadAdcOperand | src/main/java/org/mochaboy/OpcodeHandler.java:39-53 | the operand read returns the value and moves PC as AdcOperand says |
| Handler.StoreAdc | src/main/java/org/mochaboy/OpcodeHandler.java:55-65 | the registers become AdcApplied of the old registers |
| Handler.WriteAdcFlags | src/main/java/org/mochaboy/OpcodeHandler.java:60-63 | the registers become AdcFlags of the old registers |
| Handler.AddToA | src/main/java/org/mochaboy/OpcodeHandler.java:74-101 | ADD A, r / n8 / (HL) leaves A + the operand byte mod 256 in A, whether memory reads are signed or not. F is what processFlags makes of the conditions, and PC moves past n8 |
| Handler.AddOperandReads | src/main/java/org/mochaboy/OpcodeHandler.java:80-95 | ADD's operand read (all but e8) finds a value exactly where there is an operand byte. The value agrees with it mod 256, and only PC moves |
| Handler.StoredIntoA | src/main/java/org/mochaboy/OpcodeHandler.java:145-150 | storing a sum into A keeps its low byte and changes nothing else |
| Handler.AddOffsetToSp | src/main/java/org/mochaboy/OpcodeHandler.java:85-88 | ADD SP, e8 adds the offset as 0..255, so 0xFF moves SP up by 255 rather than down by one; PC moves past the byte |
| Handler.AddPairs | src/main/java/org/mochaboy/OpcodeHandler.java:74-101 | ADD of two register pairs leaves their sum mod 65536 in the first |
| Handler.AddHandledStores | src/main/java/org/mochaboy/OpcodeHandler.java:97-99 | once both operands are read, ADD is processFlags followed by applyResult |
| Handler.StoredPair | src/main/java/org/mochaboy/OpcodeHandler.java:145-150 | storing into BC, DE or HL keeps the sum mod 65536 |
| Handler.Add | src/main/java/org/mochaboy/OpcodeHandler.java:74-101 | the registers and the throw become AddHandled of the old state |
| Handler.ReadAddOperand | src/main/java/org/mochaboy/OpcodeHandler.java:80-95 | the operand read returns the value and moves PC as AddOperand says |
| Handler.Execute | src/main/java/org/mochaboy/OpcodeHandler.java:18-24 | only ADC and ADD have handlers, and any other mnemonic throws. The registers become Executed of the old state |
| Handler.RunIteration | src/main/java/org/mochaboy/CPU.java:33-39 | one pass of the run loop fetches, executes and then steps PC by one, or resets the jump switch after a jump |
| Handler.EndPass | src/main/java/org/mochaboy/CPU.java:37-39 | PC steps on by one, or the jump switch is reset |
| Handler.AdcImmediateAddsOpcodeByte | src/main/java/org/mochaboy/CPU.java:33-39 | in a pass over ADC A, n8, fetch leaves PC on the opcode, so ADC adds the opcode byte itself and PC ends two past where it started |
| LegacyOpcodes.ExecuteAdvances | src/main/java/org/mochaboy/Opcode.java:97-102 | exactly opcodes 0x00..0x07 have an entry. For them execute adds the entry's T-states and moves PC by its length. Any other opcode throws after the default handler moved PC by one, leaving memory and the counter alone |
| LegacyOpcodes.NopOnlyAdvances | src/main/java/org/mochaboy/Opcode.java:31-33 | NOP changes only PC (one byte on) and the counter (four T-states) |
| LegacyOpcodes.IncBCWraps | src/main/java/org/mochaboy/Opcode.java:44-45 | INC BC wraps BC mod 2^16 (0xFFFF becomes 0) and changes nothing else |
| LegacyOpcodes.IncBFlags | src/main/java/org/mochaboy/Opcode.java:47-58 | INC B leaves B + 1 mod 256 in B, with Z iff it is 0 and N clear. H is the old H or a low-nibble carry, never cleared. C and the other registers stay |
| LegacyOpcodes.IncBKeepsHalfCarry | src/main/java/org/mochaboy/Opcode.java:53-56 | a half-carry flag already set survives INC B |
| LegacyOpcodes.DecBFlags | src/main/java/org/mochaboy/Opcode.java:60-70 | DEC B leaves B - 1 mod 256 in B (0 becomes 255), with Z iff it is 0, N set and H iff the low nibble was 0. C and the other registers stay |
| LegacyOpcodes.TopBit | src/main/java/org/mochaboy/Opcode.java:80 | `(v & 0x80) >> 7` is bit 7 of v |
| LegacyOpcodes.RlcaRotates | src/main/java/org/mochaboy/Opcode.java:78-87 | RLCA moves bit 7 of A into C and rotates A left, clearing Z, N and H even when A ends 0. It agrees with the second generation's RLCA |
| LegacyOpcodes.LoadBReadsNextByte | src/main/java/org/mochaboy/Opcode.java:72-76 | LD B,n8 loads the byte after PC into B as 0..255 and changes nothing else |
| LegacyOpcodes.LoadBCReadsAtPc | src/main/java/org/mochaboy/Opcode.java:35-39 | LD BC,d16 loads the word at PC itself: C is the opcode byte when PC still points at the instruction, and B is the byte after it |
| LegacyOpcodes.WordIntoBC | src/main/java/org/mochaboy/Opcode.java:38 | setBC of a 16-bit value reads back as that value |
| LegacyOpcodes.WordSplits | src/main/java/org/mochaboy/Opcode.java:37-38 | the high and low bytes of hi * 256 + lo are hi and lo |
| LegacyOpcodes.StoreAWritesAtBC | src/main/java/org/mochaboy/Opcode.java:41-42 | LD [BC],A writes A's low byte at BC and leaves every other cell and every register alone |
| LegacyOpcodes.Instructions | src/main/java/org/mochaboy/Opcode.java:13-33 | the table has 256 slots, each holding its own handler: the eight implemented ones at 0x00..0x07 and the default everywhere else |
| LegacyOpcodes.Execute | src/main/java/org/mochaboy/Opcode.java:97-102 | the CPU's memory, registers and counter become Executed of the old ones |
| LegacyOpcodes.Run | src/main/java/org/mochaboy/Opcode.java:30-92 | one handler changes the CPU's state as Ran says |
| LegacyOpcodes.RunIncB | src/main/java/org/mochaboy/Opcode.java:47-58 | the registers become Incremented of the old registers |
| LegacyOpcodes.RunDecB | src/main/java/org/mochaboy/Opcode.java:60-70 | the registers become Decremented of the old registers |
| LegacyOpcodes.RunRlca | src/main/java/org/mochaboy/Opcode.java:78-87 | the registers become Rotated of the old registers |

## Left out

- The graphical front ends (JavaFX, Swing and LWJGL windows) and `MochaBoy.start`: these are user interface, not emulation logic.
- `CPU.run` as a thread, its `Thread.sleep` and its trace `printf`. Only the body of one loop iteration is modelled (`Handler.RunIteration`), so there is no concurrency, and `FrameBuffer`'s `synchronized` has no counterpart.
- Loading the boot ROM and the cartridge, and parsing the opcode JSON: these are I/O. The boot image, the cartridge bytes and the opcode tables are parameters.
- `Cartridge`'s title print, the messages `Stack.pop` prints when a popped record does not match the byte read, `getDebugStackContents`, `Interrupt.getInterruptsAsString`, `PPU.printVRAM` and `opcode/Opcode.toString`: these are console or string output.
- `PPU.drawScanline` and `getColor`: pixel rendering. `Video.Ppu.Step` models the mode and LY machine only, so it does not write the frame buffer when the drawing mode starts.
- `JumpOperation`: a stub whose CALL case does nothing.
- `Input`: a single constant write of 0xCF to JOYP.
- Each micro-operation's `getResult` accessor, and the `MicroOperation` value that `execute` returns: no modelled code reads them. (`getCycles` is modelled by `MicroOps.Cycles`, and `Builder.SumCycles` sums it over the queue.)
- `opcode/Opcode`'s `opcodeHex`, `extraOperandString` and `setOperationsRemaining`: no modelled code reads or calls them.
- Java's 32-bit `int` wrap-around. Register and counter values are unbounded integers. Registers store what they are given unmasked, so a value only wraps where the source masks it, and that masking is modelled.
- The opcode tables' string key `"0x%02X"` is modelled as the opcode byte itself. The format is one-to-one on 0..255, so lookups agree.
- The PPU's mode field is `null` until `init` runs. The model starts it at H-blank, and `init` overwrites it with OAM scan before anything reads it.
- Pipeline.ReadMemoryStep: the supplier of a `ReadMemory8Bit` address always produces a value here. The source's fallback to address 0 when the supplier yields `null` is not modelled.
- Display.FrameBuffer.constructor: requires `width * height >= 0`. For a negative product the source throws `NegativeArraySizeException`.
- Handler.Add: `OpcodeHandler.getFlagConditions` has no return statement, so the flag conditions that ADD passes to `processFlags` are a parameter.
- The old opcode table's block for 0x08 (`src/main/java/org/mochaboy/Opcode.java:89-93`) does not compile: a semicolon is missing after the empty handler. The model drops the whole block, both the side-table entry `("LD [a16] SP", 3, 20)` and the empty handler. So in the model, slot 0x08 keeps the default handler that steps PC by one, and execute then fails on the missing entry. With the semicolon added, execute(0x08) would instead add 20 T-states and move PC by 3.
- No behaviour is added where the source has none. The DAA calculator (`src/main/java/org/mochaboy/opcode/FlagCalculator.java:228-231`) is empty. RES and SET compute their result but write nothing back. The shift and rotate operations are built but never queued. Each of these is modelled as written.
- `OpcodeBuilder` queues RES and SET with `new BitFlagOperation(type, opcodeObject, destinationValue, sourceValue)` (`src/main/java/org/mochaboy/opcode/OpcodeBuilder.java:322-326`). No constructor of that shape exists: the only one takes six parameters and keeps the first three. The model reads the call as type RES or SET, bit index taken from the destination value, target taken from the source value.
- Build files and module descriptors.

## Findings

| source | as written | input that shows it | evidently intended | confidence | as-written member | corrected member |
|---|---|---|---|---|---|---|
| src/main/java/org/mochaboy/opcode/operations/ReadMemory8Bit.java:23 (also ReadMemory8Bits.java:21, via Memory.java:28-30) | `readByte` returns a signed Java `byte`, and the read micro-operation hands it to its consumer without `& 0xFF` | a cell holding 0xFF is read back as -1, and any cell from 0x80 to 0xFF comes back negative | the unsigned cell value 0..255, which is what readWord (it masks the low byte) and the consumers of the read value assume | not executed | Pipeline.WriteThenReadAsWritten | Pipeline.WriteThenRead |
| src/main/java/org/mochaboy/Stack.java:34 (with line 52) | pop reads the low byte signed and ORs it into `highByte << 8` before `& 0xFFFF`, so its sign fills bits 8..15 | push(0xABCD) then pop returns 0xFFCD; the test at src/test/java/StackTest.java:25-37 expects 0xABCD | the little-endian word at SP, as readWord computes it | not executed | Stack.PushAbcdPopsFfcd | Stack.PushThenPop |
| src/main/java/org/mochaboy/registers/Timer.java:35 (with line 44) | getTima returns the signed byte, so `tima == 0xFF` never holds | with TIMA = 0xFF, incTima writes 0 but leaves IF alone and does not wake a halted CPU | the TIMER interrupt request on overflow; the TMA reload is lost on both readings, because the final `(tima + 1) & 0xFF` write at line 40 overwrites what `resetTima(getTma())` stored at line 36 | not executed | Timers.TimaOverflowLostAsWritten | Timers.TimaOverflow |
| src/main/java/org/mochaboy/PPU.java:54 (with lines 51 and 168-169) | LY is read signed, so `ly >= 144` never holds and `(LY + 1) % 154` never wraps | with LY = 0x90 (reached from 0x8F) the next step sets no IF bit and does not enter V-blank; from 153, LY goes on to 154 and climbs to 0xFF before wrapping to 0 | V-blank from line 144, and LY cycling through 0..153 | not executed | Video.VBlankLostAsWritten | Video.VBlankEntry |
