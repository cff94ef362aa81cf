/**
 * The divider and timer registers: DIV ticks in the backing array, TIMA
 * counts up and, on overflow, requests the TIMER interrupt; TAC selects the
 * enable bit and the input clock divider.
 */
module Timers {
  import opened Bits
  import opened Memory
  import opened MemoryMap
  import opened Cpu
  import opened Interrupts

  /** getTacFreq: `TAC & 3` selects 256, 4, 16 or 64. */
  function TacFrequency(tac: int): int {
    match tac % 4
    case 0 => 256
    case 1 => 4
    case 2 => 16
    case 3 => 64
  }

  /** isTacEnabled: `(TAC >> 2) != 0`. */
  predicate TacEnabled(tac: int) {
    tac / 4 != 0
  }

  /**
   * Every divider is a power of four, 4^((s + 3) mod 4 + 1) for selector s:
   * selector 1 is the fastest clock and selector 0 the slowest.
   */
  lemma {:induction false} TacFrequencyIsPowerOfFour(tac: int)
    ensures TacFrequency(tac) == Pow2(2 * ((tac % 4 + 3) % 4) + 2)
    ensures 4 <= TacFrequency(tac) <= 256
  {
    assert Pow2(2) == 4 && Pow2(4) == 16 && Pow2(6) == 64 && Pow2(8) == 256 by {
      assert Pow2(1) == 2 && Pow2(3) == 8 && Pow2(5) == 32 && Pow2(7) == 128;
    }
  }

  /**
   * On a register byte the timer counts as enabled iff TAC >= 4, that is iff
   * any of bits 2..7 is set; bit 2 alone is not what is tested.
   */
  lemma {:induction false} TacEnabledOnBytes(tac: int)
    requires 0 <= tac < 256
    ensures TacEnabled(tac) <==> tac >= 4
    ensures TacEnabled(tac) <==> exists j :: 2 <= j < 8 && Bit(tac, j)
  {
    assert Pow2(2) == 4;
    if tac >= 4 {
      assert Pow2(8) == 256 by {
        assert Pow2(4) == 16;
      }
      HighestBitExists(tac, 7);
    } else {
      forall j | 2 <= j < 8 ensures !Bit(tac, j) {
        BitAbove(tac, 2, j);
      }
    }
  }

  /** Some bit of a byte at or above 4 lies in 2..j when the byte is below 2^(j + 1). */
  lemma {:induction false} HighestBitExists(tac: int, j: nat)
    requires 4 <= tac < 256 && 2 <= j < 8
    requires tac < Pow2(j + 1)
    ensures exists k :: 2 <= k <= j && Bit(tac, k)
    decreases j
  {
    if tac >= Pow2(j) {
      assert tac / Pow2(j) == 1 by {
        assert Pow2(j + 1) == 2 * Pow2(j);
        DivUnique(tac, Pow2(j), 1, tac - Pow2(j));
      }
      assert Bit(tac, j);
    } else {
      assert j > 2 by {
        assert Pow2(2) == 4;
      }
      HighestBitExists(tac, j - 1);
    }
  }

  /** incDiv on a snapshot: DIV := (DIV + 1) mod 256, written straight into the array. */
  function DivTicked(m: seq<Byte>): (m': seq<Byte>)
    requires |m| == Size
    ensures |m'| == Size
  {
    m[DIV := (m[DIV] as int + 1) % 256]
  }

  /**
   * incTima on a snapshot.  At 0xFF the TMA reload and the interrupt
   * request happen first, and then TIMA is overwritten with
   * `(0xFF + 1) & 0xFF`.
   */
  function TimaTicked(m: seq<Byte>): (m': seq<Byte>)
    requires |m| == Size
    ensures |m'| == Size
  {
    var tima := ByteAt(m, TIMA);
    var reloaded :=
      if tima == 0xFF then Requested(Store(m, TIMA, ByteAt(m, TMA)), Timer) else m;
    Store(reloaded, TIMA, (tima + 1) % 256)
  }

  /**
   * incTima as the source writes it: getTima hands back the signed Java
   * byte, so a TIMA of 0xFF reads as -1 and the overflow branch is never
   * taken; TIMA just steps on modulo 256.
   */
  function TimaTickedAsWritten(m: seq<Byte>): (m': seq<Byte>)
    requires |m| == Size
    ensures |m'| == Size
  {
    // `tima == 0xFF` is false for every value in -128..127, so the TMA
    // reload and the interrupt request of the overflow branch never run.
    Store(m, TIMA, (SignedRead(m, TIMA) + 1) % 256)
  }

  /**
   * As written, incTima never reloads TIMA from TMA and never requests the
   * TIMER interrupt: the only change is TIMA + 1 modulo 256.
   */
  lemma {:induction false} TimaAsWrittenOnlyCounts(m: seq<Byte>)
    requires |m| == Size
    ensures TimaTickedAsWritten(m) == m[TIMA := (m[TIMA] as int + 1) % 256]
  {
    assert Wrap(TIMA) == TIMA;
    var t := SignedRead(m, TIMA);
    assert (t + 1) % 256 == (m[TIMA] as int + 1) % 256 by {
      SignExtendPlusOne(m[TIMA]);
    }
  }

  /**
   * From TIMA = 0xFF, as written TIMA wraps to 0 and IF is left alone,
   * where the corrected tick sets the TIMER bit.
   */
  lemma {:induction false} TimaOverflowLostAsWritten(m: seq<Byte>)
    requires |m| == Size && ByteAt(m, TIMA) == 0xFF
    ensures TimaTickedAsWritten(m)[TIMA] == 0
    ensures TimaTickedAsWritten(m)[IF] == m[IF]
    ensures !Bit(m[IF], Ordinal(Timer)) ==> TimaTickedAsWritten(m)[IF] != TimaTicked(m)[IF]
  {
    assert Wrap(TIMA) == TIMA;
    TimaAsWrittenOnlyCounts(m);
    TimaOverflow(m);
  }

  /** Below 0xFF, incTima only adds one to TIMA. */
  lemma {:induction false} TimaCountsUp(m: seq<Byte>)
    requires |m| == Size && ByteAt(m, TIMA) < 0xFF
    ensures TimaTicked(m) == m[TIMA := m[TIMA] + 1]
  {
    assert Wrap(TIMA) == TIMA;
    assert TimaTicked(m)[TIMA] == m[TIMA] + 1;
  }

  /**
   * At 0xFF, incTima leaves TIMA = 0 (the TMA reload is overwritten), sets
   * the TIMER bit of IF, keeps the other IF bits, and changes no other cell.
   */
  lemma {:induction false} TimaOverflow(m: seq<Byte>)
    requires |m| == Size && ByteAt(m, TIMA) == 0xFF
    ensures TimaTicked(m)[TIMA] == 0
    ensures Bit(TimaTicked(m)[IF], Ordinal(Timer))
    ensures forall j: nat :: j != Ordinal(Timer) ==> Bit(TimaTicked(m)[IF], j) == Bit(m[IF], j)
    ensures forall a :: 0 <= a < Size && a != TIMA && a != IF ==> TimaTicked(m)[a] == m[a]
  {
    assert Wrap(TIMA) == TIMA && Wrap(IF) == IF;
    var m1 := Store(m, TIMA, ByteAt(m, TMA));
    assert m1[IF] == m[IF];
    RequestTouchesOnlyIF(m1, Timer);
    assert TimaTicked(m)[IF] == Requested(m1, Timer)[IF];
  }

  class Timer {
    const mem: Memory
    const interrupt: InterruptController

    /** The timer and the interrupt controller share the one memory. */
    ghost predicate Valid()
      reads this, mem, interrupt, interrupt.cpu, interrupt.cpu.regs, interrupt.cpu.mem,
            interrupt.cpu.stack, interrupt.mem
    {
      mem.Valid() && interrupt.Valid() && interrupt.mem == mem
    }

    constructor(mem: Memory, interrupt: InterruptController)
      ensures this.mem == mem && this.interrupt == interrupt
    {
      this.mem := mem;
      this.interrupt := interrupt;
    }

    function Tima(): int
      requires mem.Valid()
      reads this, mem, mem.cells
    {
      mem.ReadByte(TIMA)
    }

    function Tma(): int
      requires mem.Valid()
      reads this, mem, mem.cells
    {
      mem.ReadByte(TMA)
    }

    function Tac(): int
      requires mem.Valid()
      reads this, mem, mem.cells
    {
      mem.ReadByte(TAC)
    }

    function Div(): int
      requires mem.Valid()
      reads this, mem, mem.cells
    {
      mem.ReadByte(DIV)
    }

    function IsTacEnabled(): bool
      requires mem.Valid()
      reads this, mem, mem.cells
    {
      TacEnabled(Tac())
    }

    function TacFreq(): int
      requires mem.Valid()
      reads this, mem, mem.cells
    {
      TacFrequency(Tac())
    }

    method IncDiv()
      requires Valid()
      modifies mem.cells
      ensures mem.Contents() == DivTicked(old(mem.Contents()))
    {
      mem.cells[DIV] := (mem.cells[DIV] as int + 1) % 256;
    }

    method ResetDiv()
      requires Valid()
      modifies mem.cells
      ensures mem.Contents() == Store(old(mem.Contents()), DIV, 0)
    {
      mem.WriteByte(DIV, 0);
    }

    method ResetTima(v: int)
      requires Valid()
      modifies mem.cells
      ensures mem.Contents() == Store(old(mem.Contents()), TIMA, v % 256)
    {
      mem.WriteByte(TIMA, v % 256);
    }

    /** incTima: the new memory is TimaTicked; an overflow also wakes the CPU. */
    method IncTima()
      requires Valid()
      modifies mem.cells, interrupt.cpu
      ensures mem.Contents() == TimaTicked(old(mem.Contents()))
      ensures interrupt.cpu.State() ==
              if old(Tima()) == 0xFF then old(interrupt.cpu.State()).(halt := false)
              else old(interrupt.cpu.State())
    {
      var tima := Tima();
      if tima == 0xFF {
        ResetTima(Tma());
        interrupt.SetInterrupt(Timer);
      }
      mem.WriteByte(TIMA, (tima + 1) % 256);
    }
  }
}
