/**
 * The SM83 register file: eight 8-bit registers A, B, C, D, E, F, H, L, the
 * 16-bit SP and PC, the AF/BC/DE/HL pair views, the flag bits kept in the
 * high nibble of F, and lookup by register name.
 *
 * Registers hold Java ints that the setters store unmasked, so the model
 * keeps them as unbounded ints.  Only F is constrained: every way of writing
 * it masks or flips single bits of the high nibble, so F is always a "flag
 * byte" (0..255 with the low four bits clear).
 */
module Registers {
  import opened Bits
  import opened Wrappers

  /** The four condition flags and their bit positions in F. */
  datatype Flag = Zero | Subtract | HalfCarry | Carry

  function Position(flag: Flag): nat {
    match flag
    case Zero => 7
    case Subtract => 6
    case HalfCarry => 5
    case Carry => 4
  }

  /** FLAG_ZERO = 1 << 7, FLAG_SUBTRACT = 1 << 6, and so on. */
  function Mask(flag: Flag): int {
    Pow2(Position(flag))
  }

  lemma FlagConstants()
    ensures Mask(Zero) == 0x80 && Mask(Subtract) == 0x40
    ensures Mask(HalfCarry) == 0x20 && Mask(Carry) == 0x10
  {
  }

  /** 0..255 with bits 3..0 clear. */
  predicate IsFlagByte(f: int) {
    0 <= f < 256 && forall j: nat :: j < 4 ==> !Bit(f, j)
  }

  /** A snapshot of all ten registers. */
  datatype Regs = Regs(a: int, b: int, c: int, d: int, e: int, f: int,
                       h: int, l: int, sp: int, pc: int)

  // ------------------------------------------------------------ pair views

  /** `(hi << 8) | lo` */
  function Pair(hi: int, lo: int): int {
    Or(hi * 256, lo)
  }

  function AF(r: Regs): int { Pair(r.a, r.f) }
  function BC(r: Regs): int { Pair(r.b, r.c) }
  function DE(r: Regs): int { Pair(r.d, r.e) }
  function HL(r: Regs): int { Pair(r.h, r.l) }

  /** `(v >> 8) & 0xFF`, the high byte a pair setter stores. */
  function HighByte(v: int): (r: int)
    ensures 0 <= r < 256
  {
    (v / 256) % 256
  }

  /** `v & 0xFF`, the low byte a pair setter stores. */
  function LowByte(v: int): (r: int)
    ensures 0 <= r < 256
  {
    v % 256
  }

  /** `v & 0xF0`: what setF and setAF keep of F. */
  function HighNibble(v: int): (r: int)
    ensures IsFlagByte(r)
    ensures forall j: nat :: 4 <= j < 8 ==> (Bit(r, j) <==> Bit(v, j))
  {
    HighNibbleBits(v);
    And(v, 0xF0)
  }

  function WithAF(r: Regs, v: int): Regs { r.(a := HighByte(v), f := HighNibble(v)) }
  function WithBC(r: Regs, v: int): Regs { r.(b := HighByte(v), c := LowByte(v)) }
  function WithDE(r: Regs, v: int): Regs { r.(d := HighByte(v), e := LowByte(v)) }
  function WithHL(r: Regs, v: int): Regs { r.(h := HighByte(v), l := LowByte(v)) }

  // ------------------------------------------------------------------ flags

  /** isFlagSet: `(F & flag) != 0` */
  predicate FlagSet(r: Regs, flag: Flag) {
    And(r.f, Mask(flag)) != 0
  }

  /** setFlag(flag): `F |= flag` */
  function WithFlag(r: Regs, flag: Flag): (r': Regs)
    ensures r' == r.(f := r'.f)
    ensures FlagSet(r', flag)
    ensures forall g: Flag :: g != flag ==> FlagSet(r', g) == FlagSet(r, g)
    ensures IsFlagByte(r.f) ==> IsFlagByte(r'.f)
  {
    var f' := Or(r.f, Mask(flag));
    OrFlagBits(r.f, flag);
    FlagsFollowBits(r.f, f', flag, true);
    r.(f := f')
  }

  /** setFlag(flag, condition): `(F | flag) & 0xF0` or `(F & ~flag) & 0xF0` */
  function WithFlagIf(r: Regs, flag: Flag, condition: bool): (r': Regs)
    ensures r' == r.(f := r'.f)
    ensures FlagSet(r', flag) == condition
    ensures IsFlagByte(r.f) ==> forall g: Flag :: g != flag ==> FlagSet(r', g) == FlagSet(r, g)
    ensures IsFlagByte(r'.f)
  {
    var m := Mask(flag);
    var f' := if condition then And(Or(r.f, m), 0xF0) else And(And(r.f, Not(m)), 0xF0);
    CondFlagBits(r.f, flag, condition);
    FlagsFollowBits(r.f, f', flag, condition);
    r.(f := f')
  }

  /** clearFlag(flag): `F &= ~flag` */
  function WithoutFlag(r: Regs, flag: Flag): (r': Regs)
    ensures r' == r.(f := r'.f)
    ensures !FlagSet(r', flag)
    ensures forall g: Flag :: g != flag ==> FlagSet(r', g) == FlagSet(r, g)
    ensures IsFlagByte(r.f) ==> IsFlagByte(r'.f)
  {
    var f' := And(r.f, Not(Mask(flag)));
    AndNotFlagBits(r.f, flag);
    FlagsFollowBits(r.f, f', flag, false);
    r.(f := f')
  }

  // ------------------------------------------------- bit facts behind F

  lemma HighNibbleBits(v: int)
    ensures IsFlagByte(And(v, 0xF0))
    ensures forall j: nat :: Bit(And(v, 0xF0), j) == (Bit(v, j) && 4 <= j < 8)
  {
    AndRange(v, 0xF0);
    forall j: nat ensures Bit(And(v, 0xF0), j) == (Bit(v, j) && 4 <= j < 8) {
      BitAnd(v, 0xF0, j);
      BitF0(j);
    }
  }

  lemma OrFlagBits(f: int, flag: Flag)
    ensures forall j: nat :: Bit(Or(f, Mask(flag)), j) == (Bit(f, j) || j == Position(flag))
    ensures IsFlagByte(f) ==> IsFlagByte(Or(f, Mask(flag)))
  {
    forall j: nat ensures Bit(Or(f, Mask(flag)), j) == (Bit(f, j) || j == Position(flag)) {
      BitOr(f, Mask(flag), j);
      BitPow2(Position(flag), j);
    }
    if IsFlagByte(f) {
      Pow2Mono(Position(flag), 7);
      OrRange(f, Mask(flag), 8);
    }
  }

  lemma AndNotFlagBits(f: int, flag: Flag)
    ensures forall j: nat :: Bit(And(f, Not(Mask(flag))), j) == (Bit(f, j) && j != Position(flag))
    ensures IsFlagByte(f) ==> IsFlagByte(And(f, Not(Mask(flag))))
  {
    forall j: nat ensures Bit(And(f, Not(Mask(flag))), j) == (Bit(f, j) && j != Position(flag)) {
      BitAnd(f, Not(Mask(flag)), j);
      BitNot(Mask(flag), j);
      BitPow2(Position(flag), j);
    }
    if IsFlagByte(f) {
      AndRangeBoth(f, Not(Mask(flag)));
    }
  }

  lemma CondFlagBits(f: int, flag: Flag, condition: bool)
    ensures var f' := if condition then And(Or(f, Mask(flag)), 0xF0) else And(And(f, Not(Mask(flag))), 0xF0);
      IsFlagByte(f') && Bit(f', Position(flag)) == condition &&
      forall j: nat :: Bit(f', j) == if j == Position(flag) then condition else Bit(f, j) && 4 <= j < 8
  {
    var m := Mask(flag);
    var g := if condition then Or(f, m) else And(f, Not(m));
    OrFlagBits(f, flag);
    AndNotFlagBits(f, flag);
    HighNibbleBits(g);
  }

  /**
   * If the bits of f' agree with those of f except at the flag's own
   * position, where f' holds `isSet`, then so do the four flag tests.
   */
  lemma FlagsFollowBits(f: int, f': int, flag: Flag, isSet: bool)
    requires Bit(f', Position(flag)) == isSet
    requires forall j: nat :: 4 <= j < 8 && j != Position(flag) ==> Bit(f', j) == Bit(f, j)
    ensures (And(f', Mask(flag)) != 0) == isSet
    ensures forall g: Flag :: g != flag ==> (And(f', Mask(g)) != 0) == (And(f, Mask(g)) != 0)
  {
    FlagSetIsBit(f', flag);
    forall g: Flag ensures (And(f', Mask(g)) != 0) == Bit(f', Position(g)) && (And(f, Mask(g)) != 0) == Bit(f, Position(g)) {
      FlagSetIsBit(f', g);
      FlagSetIsBit(f, g);
    }
  }

  // ------------------------------------------------------- lookup by name

  /** The names registered in the getter table. */
  const GetterNames: set<string> :=
    {"A", "B", "C", "D", "E", "F", "H", "L", "SP", "PC", "AF", "BC", "DE", "HL"}

  /** The names registered in the setter table: all getters except "F". */
  const SetterNames: set<string> :=
    {"A", "B", "C", "D", "E", "H", "L", "SP", "PC", "AF", "BC", "DE", "HL"}

  /**
   * isValidRegister has no definition in the register file; it is taken to
   * hold for exactly the names getByName accepts.
   */
  predicate IsValidRegister(name: string) {
    name in GetterNames
  }

  /** getByName; None stands for the NullPointerException of an unknown name. */
  function Get(r: Regs, name: string): (v: Option<int>)
    ensures v.Some? <==> name in GetterNames
  {
    match name
    case "A" => Some(r.a)
    case "B" => Some(r.b)
    case "C" => Some(r.c)
    case "D" => Some(r.d)
    case "E" => Some(r.e)
    case "F" => Some(r.f)
    case "H" => Some(r.h)
    case "L" => Some(r.l)
    case "SP" => Some(r.sp)
    case "PC" => Some(r.pc)
    case "AF" => Some(AF(r))
    case "BC" => Some(BC(r))
    case "DE" => Some(DE(r))
    case "HL" => Some(HL(r))
    case _ => None
  }

  /** setByName; None stands for the NullPointerException of a name with no setter. */
  function Set(r: Regs, name: string, v: int): (r': Option<Regs>)
    ensures r'.Some? <==> name in SetterNames
  {
    match name
    case "A" => Some(r.(a := v))
    case "B" => Some(r.(b := v))
    case "C" => Some(r.(c := v))
    case "D" => Some(r.(d := v))
    case "E" => Some(r.(e := v))
    case "H" => Some(r.(h := v))
    case "L" => Some(r.(l := v))
    case "SP" => Some(r.(sp := v))
    case "PC" => Some(r.(pc := v))
    case "AF" => Some(WithAF(r, v))
    case "BC" => Some(WithBC(r, v))
    case "DE" => Some(WithDE(r, v))
    case "HL" => Some(WithHL(r, v))
    case _ => None
  }

  const SingleNames: set<string> := {"A", "B", "C", "D", "E", "H", "L", "SP", "PC"}

  // --------------------------------------------------------------- lemmas

  lemma BitF0(j: nat)
    ensures Bit(0xF0, j) <==> 4 <= j < 8
  {
    if j >= 8 {
      BitAbove(0xF0, 8, j);
    } else {
      assert j in {0, 1, 2, 3, 4, 5, 6, 7};
    }
  }

  lemma {:induction false} FlagSetIsBit(f: int, flag: Flag)
    ensures (And(f, Mask(flag)) != 0) == Bit(f, Position(flag))
  {
    MaskTestsBit(f, Position(flag));
  }

  /** A pair of a register and a byte is their 16-bit concatenation. */
  lemma PairOfByte(hi: int, lo: int)
    requires 0 <= lo < 256
    ensures Pair(hi, lo) == hi * 256 + lo
  {
    OrDisjoint(hi, lo, 8);
  }

  /** Splitting a word into its high and low byte and joining them again gives the word mod 2^16. */
  lemma {:induction false} SplitJoin(v: int)
    ensures Pair(HighByte(v), LowByte(v)) == v % 0x10000
  {
    PairOfByte(HighByte(v), LowByte(v));
    var q := v / 0x10000;
    var hi := HighByte(v);
    var lo := LowByte(v);
    DivUnique(v / 256, 256, q * 1 + 0 + (v / 256) / 256 - q, hi);
    assert v == (v / 256) * 256 + lo;
    assert v / 256 == ((v / 256) / 256) * 256 + hi;
    DivPow2Two(v);
    assert (v / 256) / 256 == q;
    assert v == q * 0x10000 + (hi * 256 + lo);
    DivUnique(v, 0x10000, q, hi * 256 + lo);
  }

  lemma DivPow2Two(v: int)
    ensures (v / 256) / 256 == v / 0x10000
  {
    var q := v / 0x10000;
    var r := v % 0x10000;
    assert v == q * 0x10000 + r;
    DivUnique(v, 256, q * 256 + r / 256, r % 256);
    DivUnique(v / 256, 256, q, r / 256);
  }

  /** setBC(v) then getBC() gives v & 0xFFFF, so v itself for 0 <= v <= 0xFFFF. */
  lemma {:induction false} PairRoundTrip(r: Regs, v: int)
    ensures BC(WithBC(r, v)) == v % 0x10000
    ensures DE(WithDE(r, v)) == v % 0x10000
    ensures HL(WithHL(r, v)) == v % 0x10000
  {
    SplitJoin(v);
  }

  /** setAF(v) then getAF() gives v & 0xFFF0: the low nibble of F is dropped. */
  lemma {:induction false} AFRoundTrip(r: Regs, v: int)
    ensures AF(WithAF(r, v)) == v % 0x10000 - v % 16
    ensures IsFlagByte(WithAF(r, v).f)
  {
    var hi := HighByte(v);
    var f := HighNibble(v);
    assert f == And(v, 0xF0);
    assert And(v, 15 * Pow2(4)) == And(v / Pow2(4), 15) * Pow2(4) by {
      AndShifted(v, 15, 4);
    }
    AndLowMask(v / 16, 4);
    assert f == ((v / 16) % 16) * 16;
    PairOfByte(hi, f);
    var n0 := v % 16;
    var n1 := (v / 16) % 16;
    assert v == (v / 16) * 16 + n0;
    assert v / 16 == ((v / 16) / 16) * 16 + n1;
    DivUnique(v, 256, (v / 16) / 16, n1 * 16 + n0);
    assert v % 256 == n1 * 16 + n0;
    SplitJoin(v);
    PairOfByte(hi, LowByte(v));
  }

  /** setF keeps exactly bits 7..4 of its argument. */
  lemma HighNibbleKeepsFlags(v: int, flag: Flag)
    ensures IsFlagByte(HighNibble(v))
    ensures (And(HighNibble(v), Mask(flag)) != 0) == Bit(v, Position(flag))
  {
    FlagSetIsBit(HighNibble(v), flag);
  }

  /** Setting a flag to a condition then testing it yields the condition, and F & 0x0F stays 0. */
  lemma {:induction false} FlagRoundTrip(r: Regs, flag: Flag, condition: bool)
    ensures FlagSet(WithFlagIf(r, flag, condition), flag) == condition
    ensures And(WithFlagIf(r, flag, condition).f, 0x0F) == 0
  {
    LowNibbleZero(WithFlagIf(r, flag, condition).f);
  }

  /** A flag byte has a zero low nibble: F & 0x0F == 0. */
  lemma {:induction false} LowNibbleZero(f: int)
    requires IsFlagByte(f)
    ensures And(f, 0x0F) == 0
  {
    var g := And(f, 0x0F);
    AndRange(f, 0x0F);
    forall j: nat | j < 4 ensures Bit(g, j) == Bit(0, j) {
      BitAnd(f, 0x0F, j);
      BitZero(j);
    }
    assert Pow2(4) == 16;
    BitsDetermine(g, 0, 4);
  }

  /** setByName writes exactly the register getByName reads, for every name that has a setter. */
  lemma {:induction false} SetThenGet(r: Regs, name: string, v: int)
    requires name in SetterNames
    ensures Set(r, name, v).Some?
    ensures name in SingleNames ==> Get(Set(r, name, v).value, name) == Some(v)
    ensures name in {"BC", "DE", "HL"} ==> Get(Set(r, name, v).value, name) == Some(v % 0x10000)
    ensures name == "AF" ==> Get(Set(r, name, v).value, name) == Some(v % 0x10000 - v % 16)
  {
    if name == "AF" {
      assert Set(r, name, v) == Some(WithAF(r, v));
      AFRoundTrip(r, v);
    } else if name in {"BC", "DE", "HL"} {
      PairRoundTrip(r, v);
    }
  }

  /** Writing one single register by name leaves every other single register as it was. */
  lemma {:induction false} SetFrame(r: Regs, name: string, other: string, v: int)
    requires name in SingleNames && other in SingleNames && name != other
    ensures Get(Set(r, name, v).value, other) == Get(r, other)
  {
  }

  lemma SetKeepsFlagByte(r: Regs, name: string, v: int)
    requires IsFlagByte(r.f) && Set(r, name, v).Some?
    ensures IsFlagByte(Set(r, name, v).value.f)
  {
  }

  /** "F" can be read by name but not written by name. */
  lemma FReadOnlyByName(r: Regs, v: int)
    ensures Get(r, "F") == Some(r.f)
    ensures Set(r, "F", v) == None
  {
  }

  // ---------------------------------------------------------------- class

  class Registers {
    var a: int, b: int, c: int, d: int, e: int, f: int, h: int, l: int
    var sp: int, pc: int

    ghost predicate Valid()
      reads this
    {
      IsFlagByte(f)
    }

    function Value(): Regs
      reads this
    {
      Regs(a, b, c, d, e, f, h, l, sp, pc)
    }

    /** All registers start at Java's default 0. */
    constructor()
      ensures Valid()
      ensures Value() == Regs(0, 0, 0, 0, 0, 0, 0, 0, 0, 0)
    {
      a, b, c, d, e, f, h, l := 0, 0, 0, 0, 0, 0, 0, 0;
      sp, pc := 0, 0;
      BitZeroAll();
    }

    method SetA(v: int)
      modifies this
      ensures Value() == old(Value()).(a := v)
    {
      a := v;
    }

    method SetB(v: int)
      modifies this
      ensures Value() == old(Value()).(b := v)
    {
      b := v;
    }

    method SetC(v: int)
      modifies this
      ensures Value() == old(Value()).(c := v)
    {
      c := v;
    }

    method SetD(v: int)
      modifies this
      ensures Value() == old(Value()).(d := v)
    {
      d := v;
    }

    method SetE(v: int)
      modifies this
      ensures Value() == old(Value()).(e := v)
    {
      e := v;
    }

    method SetF(v: int)
      modifies this
      ensures Valid()
      ensures Value() == old(Value()).(f := HighNibble(v))
    {
      f := HighNibble(v);
    }

    method SetH(v: int)
      modifies this
      ensures Value() == old(Value()).(h := v)
    {
      h := v;
    }

    method SetL(v: int)
      modifies this
      ensures Value() == old(Value()).(l := v)
    {
      l := v;
    }

    method SetSP(v: int)
      modifies this
      ensures Value() == old(Value()).(sp := v)
    {
      sp := v;
    }

    method SetPC(v: int)
      modifies this
      ensures Value() == old(Value()).(pc := v)
    {
      pc := v;
    }

    method IncrementPC(n: int)
      modifies this
      ensures Value() == old(Value()).(pc := old(pc) + n)
    {
      pc := pc + n;
    }

    method SetAF(v: int)
      modifies this
      ensures Valid()
      ensures Value() == WithAF(old(Value()), v)
    {
      a := HighByte(v);
      f := HighNibble(v);
    }

    method SetBC(v: int)
      modifies this
      ensures Value() == WithBC(old(Value()), v)
    {
      b := HighByte(v);
      c := LowByte(v);
    }

    method SetDE(v: int)
      modifies this
      ensures Value() == WithDE(old(Value()), v)
    {
      d := HighByte(v);
      e := LowByte(v);
    }

    method SetHL(v: int)
      modifies this
      ensures Value() == WithHL(old(Value()), v)
    {
      h := HighByte(v);
      l := LowByte(v);
    }

    method SetFlag(flag: Flag)
      requires Valid()
      modifies this
      ensures Valid()
      ensures Value() == WithFlag(old(Value()), flag)
    {
      f := WithFlag(Value(), flag).f;
    }

    method SetFlagIf(flag: Flag, condition: bool)
      modifies this
      ensures Valid()
      ensures Value() == WithFlagIf(old(Value()), flag, condition)
    {
      f := WithFlagIf(Value(), flag, condition).f;
    }

    method ClearFlag(flag: Flag)
      requires Valid()
      modifies this
      ensures Valid()
      ensures Value() == WithoutFlag(old(Value()), flag)
    {
      f := WithoutFlag(Value(), flag).f;
    }

    /** setByName; ok is false (and nothing changes) where Java throws. */
    method SetByName(name: string, v: int) returns (ok: bool)
      requires Valid()
      modifies this
      ensures Valid()
      ensures ok == (name in SetterNames)
      ensures ok ==> Value() == Set(old(Value()), name, v).value
      ensures !ok ==> Value() == old(Value())
    {
      var r := Set(Value(), name, v);
      if r.Some? {
        SetKeepsFlagByte(Value(), name, v);
        a, b, c, d, e, f, h, l := r.value.a, r.value.b, r.value.c, r.value.d,
                                  r.value.e, r.value.f, r.value.h, r.value.l;
        sp, pc := r.value.sp, r.value.pc;
        ok := true;
      } else {
        ok := false;
      }
    }
  }

  lemma BitZeroAll()
    ensures IsFlagByte(0)
  {
    forall j: nat ensures !Bit(0, j) {
      BitZero(j);
    }
  }
}
