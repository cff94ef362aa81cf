/**
 * The hardware stack: 16-bit words pushed high byte first below SP, popped
 * low byte first, with SP wrapping modulo 0x10000.
 */
module Stack {
  import opened Registers
  import opened Memory
  import opened Bits

  /** `(sp - 1) & 0xFFFF` */
  function Down(sp: int): (r: int)
    ensures 0 <= r < 0x10000
  {
    (sp - 1) % 0x10000
  }

  /** `(sp + 1) & 0xFFFF` */
  function Up(sp: int): (r: int)
    ensures 0 <= r < 0x10000
  {
    (sp + 1) % 0x10000
  }

  /** The memory after push(v) with stack pointer sp. */
  function PushedMemory(m: seq<Byte>, sp: int, v: int): (m': seq<Byte>)
    requires |m| == Size
    ensures |m'| == Size
  {
    Store(Store(m, Down(sp), HighByte(v)), Down(Down(sp)), LowByte(v))
  }

  /**
   * The corrected pop (see Findings in README): `((mem[sp + 1] << 8) |
   * mem[sp]) & 0xFFFF` on the unsigned cells.
   */
  function PoppedValue(m: seq<Byte>, sp: int): (r: int)
    requires |m| == Size
    ensures 0 <= r < 0x10000
    ensures r == ByteAt(m, Up(sp)) * 256 + ByteAt(m, sp)
  {
    PairOfByte(ByteAt(m, Up(sp)), ByteAt(m, sp));
    Pair(ByteAt(m, Up(sp)), ByteAt(m, sp)) % 0x10000
  }

  /**
   * The value pop() returns as the source writes it: readByte hands back
   * both cells as signed Java bytes, and `((high << 8) | low) & 0xFFFF`
   * lets a low byte's sign reach the bits above it.
   */
  function PoppedValueAsWritten(m: seq<Byte>, sp: int): (r: int)
    requires |m| == Size
    ensures 0 <= r < 0x10000
  {
    var x := Or(SignedRead(m, Up(sp)) * 256, SignedRead(m, sp));
    Pow2Table();
    AndLowMask(x, 16);
    And(x, 0xFFFF)
  }

  // --------------------------------------------------------------- lemmas

  /** Down and Up on the 16-bit value of sp, without the modulus. */
  lemma StepValues(sp: int)
    ensures Down(sp) == if sp % 0x10000 == 0 then 0xFFFF else sp % 0x10000 - 1
    ensures Up(sp) == if sp % 0x10000 == 0xFFFF then 0 else sp % 0x10000 + 1
  {
    var s := sp % 0x10000;
    var q := sp / 0x10000;
    assert sp == q * 0x10000 + s;
    if s == 0 {
      DivUnique(sp - 1, 0x10000, q - 1, 0xFFFF);
    } else {
      DivUnique(sp - 1, 0x10000, q, s - 1);
    }
    if s == 0xFFFF {
      DivUnique(sp + 1, 0x10000, q + 1, 0);
    } else {
      DivUnique(sp + 1, 0x10000, q, s + 1);
    }
  }

  lemma {:induction false} DownTwiceUp(sp: int)
    ensures Up(Down(Down(sp))) == Down(sp)
    ensures Up(Up(Down(Down(sp)))) == sp % 0x10000
    ensures Down(sp) != Down(Down(sp))
  {
    var d1 := Down(sp);
    var d2 := Down(d1);
    StepValues(sp);
    StepValues(d1);
    StepValues(d2);
    StepValues(Up(d2));
  }

  /**
   * push writes the high byte at SP - 1 and the low byte at SP - 2 (mod
   * 0x10000) and no other cell.
   */
  lemma {:induction false} PushWritesTwoCells(m: seq<Byte>, sp: int, v: int)
    requires |m| == Size
    ensures PushedMemory(m, sp, v)[Down(sp)] == HighByte(v)
    ensures PushedMemory(m, sp, v)[Down(Down(sp))] == LowByte(v)
    ensures forall a :: 0 <= a < Size && a != Down(sp) && a != Down(Down(sp)) ==>
              PushedMemory(m, sp, v)[a] == m[a]
  {
    DownTwiceUp(sp);
  }

  /** pop after push(v) returns v & 0xFFFF, and SP is back where it was (mod 0x10000). */
  lemma {:induction false} PushThenPop(m: seq<Byte>, sp: int, v: int)
    requires |m| == Size
    ensures PoppedValue(PushedMemory(m, sp, v), Down(Down(sp))) == v % 0x10000
    ensures Up(Up(Down(Down(sp)))) == sp % 0x10000
  {
    var d1, d2 := Down(sp), Down(Down(sp));
    var m' := PushedMemory(m, sp, v);
    DownTwiceUp(sp);
    PushWritesTwoCells(m, sp, v);
    assert Wrap(d1) == d1 && Wrap(d2) == d2;
    assert ByteAt(m', Up(d2)) == HighByte(v) && ByteAt(m', d2) == LowByte(v);
    WordSplit(v);
  }

  /** The two cells pop reads at x lie above the two cells a push at x writes. */
  lemma Disjoint(x: int)
    requires 0 <= x < 0x10000
    ensures x != Down(x) && x != Down(Down(x))
    ensures Up(x) != Down(x) && Up(x) != Down(Down(x))
  {
  }

  /** pop's value depends only on the two cells at sp and sp + 1. */
  lemma PopFrame(m: seq<Byte>, m': seq<Byte>, sp: int)
    requires |m| == Size && |m'| == Size && 0 <= sp < Size
    requires m'[sp] == m[sp] && m'[Up(sp)] == m[Up(sp)]
    ensures PoppedValue(m', sp) == PoppedValue(m, sp)
  {
    assert Wrap(sp) == sp && Wrap(Up(sp)) == Up(sp);
    assert ByteAt(m', sp) == ByteAt(m, sp) && ByteAt(m', Up(sp)) == ByteAt(m, Up(sp));
  }

  /** Two pushes come off in the opposite order. */
  lemma {:induction false} LastInFirstOut(m: seq<Byte>, sp: int, v: int, w: int)
    requires |m| == Size
    ensures var sp1 := Down(Down(sp));
            var sp2 := Down(Down(sp1));
            var m2 := PushedMemory(PushedMemory(m, sp, v), sp1, w);
            PoppedValue(m2, sp2) == w % 0x10000 &&
            PoppedValue(m2, Up(Up(sp2))) == v % 0x10000 &&
            Up(Up(Up(Up(sp2)))) == sp % 0x10000
  {
    var sp1 := Down(Down(sp));
    var sp2 := Down(Down(sp1));
    var m1 := PushedMemory(m, sp, v);
    var m2 := PushedMemory(m1, sp1, w);
    assert PoppedValue(m2, sp2) == w % 0x10000 by {
      PushThenPop(m1, sp1, w);
    }
    assert Up(Up(sp2)) == sp1 by {
      DownTwiceUp(sp1);
      DivUnique(sp1, 0x10000, 0, sp1);
    }
    assert PoppedValue(m2, sp1) == PoppedValue(m1, sp1) by {
      Disjoint(sp1);
      PushWritesTwoCells(m1, sp1, w);
      PopFrame(m1, m2, sp1);
    }
    assert PoppedValue(m1, sp1) == v % 0x10000 && Up(Up(sp1)) == sp % 0x10000 by {
      PushThenPop(m, sp, v);
    }
  }

  /**
   * pop as written agrees with the unsigned word while the low byte is
   * below 0x80; from 0x80 up the low byte's sign fills the high byte with
   * 0xFF, whatever the high cell holds.
   */
  lemma {:induction false} PopAsWrittenForm(m: seq<Byte>, sp: int)
    requires |m| == Size
    ensures PoppedValueAsWritten(m, sp) ==
            if ByteAt(m, sp) < 0x80 then PoppedValue(m, sp) else 0xFF00 + ByteAt(m, sp)
  {
    SignedPairForm(ByteAt(m, Up(sp)), ByteAt(m, sp));
  }

  /** `((high << 8) | low) & 0xFFFF` on the sign-extended bytes hi and lo. */
  lemma {:induction false} SignedPairForm(hi: int, lo: int)
    requires 0 <= hi < 256 && 0 <= lo < 256
    ensures And(Or(SignExtend8(hi) * 256, SignExtend8(lo)), 0xFFFF) ==
            if lo < 0x80 then hi * 256 + lo else 0xFF00 + lo
  {
    var x := Or(SignExtend8(hi) * 256, SignExtend8(lo));
    MaskWord(x);
    if lo < 0x80 {
      SignedPairOr(hi, lo);
      SignedHighModulo(hi, lo);
    } else {
      SignedPairFill(hi, lo);
      DivUnique(x, 0x10000, -1, 0xFF00 + lo);
    }
  }

  /** `x & 0xFFFF` is x modulo 0x10000. */
  lemma MaskWord(x: int)
    ensures And(x, 0xFFFF) == x % 0x10000
  {
    Pow2Table();
    AndLowMask(x, 16);
  }

  /** A low byte below 0x80 sits under the shifted high byte. */
  lemma SignedPairOr(hi: int, lo: int)
    requires 0 <= hi < 256 && 0 <= lo < 0x80
    ensures Or(SignExtend8(hi) * 256, SignExtend8(lo)) == SignExtend8(hi) * 256 + lo
  {
    OrDisjointByte(SignExtend8(hi), SignExtend8(lo));
  }

  /** A low byte from 0x80 up reads negative and covers the shifted high byte. */
  lemma SignedPairFill(hi: int, lo: int)
    requires 0 <= hi < 256 && 0x80 <= lo < 256
    ensures Or(SignExtend8(hi) * 256, SignExtend8(lo)) == lo - 256
  {
    OrSignFillByte(SignExtend8(hi), SignExtend8(lo));
  }

  /** The high byte's sign disappears modulo 0x10000. */
  lemma SignedHighModulo(hi: int, lo: int)
    requires 0 <= hi < 256 && 0 <= lo < 0x80
    ensures (SignExtend8(hi) * 256 + lo) % 0x10000 == hi * 256 + lo
  {
    if hi < 0x80 {
      DivUnique(SignExtend8(hi) * 256 + lo, 0x10000, 0, hi * 256 + lo);
    } else {
      DivUnique(SignExtend8(hi) * 256 + lo, 0x10000, -1, hi * 256 + lo);
    }
  }

  /**
   * As written, a push of v whose low byte is 0x80 or more pops back as
   * 0xFF00 plus that byte, which is not v unless its high byte is 0xFF.
   */
  lemma {:induction false} PushThenPopAsWritten(m: seq<Byte>, sp: int, v: int)
    requires |m| == Size && LowByte(v) >= 0x80
    ensures PoppedValueAsWritten(PushedMemory(m, sp, v), Down(Down(sp))) == 0xFF00 + LowByte(v)
    ensures HighByte(v) != 0xFF ==>
              PoppedValueAsWritten(PushedMemory(m, sp, v), Down(Down(sp))) != v % 0x10000
  {
    var d2 := Down(Down(sp));
    var m' := PushedMemory(m, sp, v);
    DownTwiceUp(sp);
    PushWritesTwoCells(m, sp, v);
    assert Wrap(d2) == d2;
    assert ByteAt(m', d2) == LowByte(v);
    PopAsWrittenForm(m', d2);
    WordSplit(v);
  }

  /** push(0xABCD) then pop: 0xFFCD as written, 0xABCD once corrected. */
  lemma PushAbcdPopsFfcd(m: seq<Byte>, sp: int)
    requires |m| == Size
    ensures PoppedValueAsWritten(PushedMemory(m, sp, 0xABCD), Down(Down(sp))) == 0xFFCD
    ensures PoppedValue(PushedMemory(m, sp, 0xABCD), Down(Down(sp))) == 0xABCD
  {
    PushThenPopAsWritten(m, sp, 0xABCD);
    PushThenPop(m, sp, 0xABCD);
  }

  /** Pushing with SP = 0x0000 leaves SP = 0xFFFE. */
  lemma PushWrapsAtZero()
    ensures Down(Down(0)) == 0xFFFE
  {
  }

  class Stack {
    const regs: Registers
    const mem: Memory
    /**
     * debugStack, a LinkedList used as a stack: its head is index 0.  push
     * records the two bytes it stores and pop takes two records off.
     */
    var debug: seq<int>

    ghost predicate Valid()
      reads this, mem
    {
      mem.Valid()
    }

    constructor(regs: Registers, mem: Memory)
      ensures this.regs == regs && this.mem == mem && debug == []
    {
      this.regs := regs;
      this.mem := mem;
      debug := [];
    }

    method Push(v: int)
      requires Valid()
      modifies this, regs, mem.cells
      ensures regs.Value() == old(regs.Value()).(sp := Down(Down(old(regs.sp))))
      ensures mem.Contents() == PushedMemory(old(mem.Contents()), old(regs.sp), v)
      ensures debug == [LowByte(v), HighByte(v)] + old(debug)
    {
      var sp := regs.sp;
      sp := Down(sp);
      mem.WriteByte(sp, HighByte(v));
      debug := [HighByte(v)] + debug;
      sp := Down(sp);
      mem.WriteByte(sp, LowByte(v));
      debug := [LowByte(v)] + debug;
      regs.SetSP(sp);
    }

    /**
     * pop.  debugStack.pop() follows each byte read and throws
     * NoSuchElementException on an empty list, so pop throws unless this
     * stack holds two unpopped records; with one left, that record is taken
     * before the throw.  SP moves only after both records are taken.  The
     * printed mismatch warnings are output only.
     */
    method Pop() returns (v: int, thrown: bool)
      requires Valid()
      modifies this, regs
      ensures thrown <==> |old(debug)| < 2
      ensures thrown ==> regs.Value() == old(regs.Value()) && debug == []
      ensures !thrown ==> v == PoppedValue(mem.Contents(), old(regs.sp))
      ensures !thrown ==> regs.Value() == old(regs.Value()).(sp := Up(Up(old(regs.sp))))
      ensures !thrown ==> debug == old(debug)[2..]
    {
      var sp := regs.sp;
      var low := mem.ReadByte(sp);
      if debug == [] {
        return 0, true;
      }
      debug := debug[1..];
      sp := Up(sp);
      var high := mem.ReadByte(sp);
      if debug == [] {
        return 0, true;
      }
      debug := debug[1..];
      sp := Up(sp);
      regs.SetSP(sp);
      v, thrown := Pair(high, low) % 0x10000, false;
    }

    /** peek: the word at SP; nothing changes. */
    function Peek(): (v: int)
      requires Valid()
      reads this, regs, mem, mem.cells
      ensures v == ByteAt(mem.Contents(), regs.sp + 1) * 256 + ByteAt(mem.Contents(), regs.sp)
    {
      mem.ReadWord(regs.sp)
    }
  }
}
