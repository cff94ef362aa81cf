/**
 * Java `int` bit operations on unbounded integers.
 *
 * A Java int is read here as an infinite two's-complement bit string, so
 * `&`, `|`, `^` and `~` are defined by recursion on the lowest bit.  The
 * emulator stores unmasked Java ints in its registers; on values that fit in
 * 32 bits these definitions agree with the JVM bit for bit.
 *
 * Conventions used throughout the model:
 *   x & (2^n - 1)  is  x % 2^n       (lemma AndLowMask; Dafny's % is Euclidean)
 *   x >> n         is  x / 2^n       (floor division, as Java's arithmetic shift)
 *   x << n         is  x * 2^n       (32-bit overflow is not modelled)
 *   x >>> n        is  Ushr32(x, n)
 */
module Bits {

  function Pow2(k: nat): (r: nat)
    ensures r >= 1
  {
    if k == 0 then 1 else 2 * Pow2(k - 1)
  }

  /** Bit j of x in two's complement. */
  predicate Bit(x: int, j: nat) {
    (x / Pow2(j)) % 2 == 1
  }

  /** Distance from the two fixed points 0 and -1 of halving. */
  function Magnitude(x: int): nat {
    if x >= 0 then x else -1 - x
  }

  function Not(x: int): int {
    -1 - x
  }

  function And(x: int, y: int): int
    decreases Magnitude(x), 1
  {
    if x == 0 || y == 0 then 0
    else if x == -1 then y
    else if y == -1 then x
    else AndHalves(x, y)
  }

  /** The recursive case of And: the lowest bits, and And of the halves above them. */
  function AndHalves(x: int, y: int): int
    requires x != 0 && x != -1
    decreases Magnitude(x), 0
  {
    2 * And(x / 2, y / 2) + (if x % 2 == 1 && y % 2 == 1 then 1 else 0)
  }

  function Or(x: int, y: int): int
    decreases Magnitude(x), 1
  {
    if x == -1 || y == -1 then -1
    else if x == 0 then y
    else if y == 0 then x
    else OrHalves(x, y)
  }

  /** The recursive case of Or. */
  function OrHalves(x: int, y: int): int
    requires x != 0 && x != -1
    decreases Magnitude(x), 0
  {
    2 * Or(x / 2, y / 2) + (if x % 2 == 1 || y % 2 == 1 then 1 else 0)
  }

  function Xor(x: int, y: int): int
    decreases Magnitude(x), 1
  {
    if x == 0 then y
    else if y == 0 then x
    else if x == -1 then Not(y)
    else if y == -1 then Not(x)
    else XorHalves(x, y)
  }

  /** The recursive case of Xor. */
  function XorHalves(x: int, y: int): int
    requires x != 0 && x != -1
    decreases Magnitude(x), 0
  {
    2 * Xor(x / 2, y / 2) + (if x % 2 != y % 2 then 1 else 0)
  }

  /** Java's logical shift `x >>> n` on a 32-bit int. */
  function Ushr32(x: int, n: nat): int {
    (x % 0x1_0000_0000) / Pow2(n)
  }

  /** Java's `1 << n` on a 32-bit int: the count is taken mod 32 and bit 31 is the sign. */
  function ShiftOne(n: int): int {
    if n % 32 == 31 then -0x8000_0000 else Pow2(n % 32) as int
  }

  /** Java's `(byte) x` read back as an int: the low byte, sign-extended. */
  function SignExtend8(x: int): (r: int)
    ensures -128 <= r < 128
    ensures r % 256 == x % 256
  {
    if x % 256 < 128 then x % 256 else x % 256 - 256
  }

  /** Java's `a % n` for n > 0: it truncates toward zero, so the remainder takes a's sign. */
  function JavaRem(a: int, n: int): (r: int)
    requires n > 0
    ensures a >= 0 ==> 0 <= r < n
    ensures a < 0 ==> -n < r <= 0
    ensures -n < a < n ==> r == a
  {
    if a >= 0 then
      RemOfNatural(a, n);
      a % n
    else
      RemOfNatural(-a, n);
      -((-a) % n)
  }

  /** The remainder of a natural number, and of one below the divisor in particular. */
  lemma RemOfNatural(x: int, n: int)
    requires x >= 0 && n > 0
    ensures 0 <= x % n < n
    ensures x < n ==> x % n == x
  {
    if x < n {
      DivUnique(x, n, 0, x);
    }
  }

  // ---------------------------------------------------------------- basics

  lemma Pow2Add(a: nat, b: nat)
    ensures Pow2(a + b) == Pow2(a) * Pow2(b)
  {
    if a > 0 {
      Pow2Add(a - 1, b);
    }
  }

  /** The powers of two the emulator's masks are made of. */
  lemma Pow2Table()
    ensures Pow2(2) == 4 && Pow2(4) == 16 && Pow2(8) == 256
    ensures Pow2(12) == 0x1000 && Pow2(16) == 0x10000
  {
    assert Pow2(4) == 16;
    Pow2Add(4, 4);
    Pow2Add(8, 4);
    Pow2Add(8, 8);
  }

  lemma MulAtLeast(a: int, d: int)
    requires a >= 1 && d > 0
    ensures a * d >= d
  {
    if a > 1 {
      MulAtLeast(a - 1, d);
      assert a * d == (a - 1) * d + d;
    }
  }

  /** Quotient and remainder are unique. */
  lemma DivUnique(x: int, d: int, q: int, r: int)
    requires d > 0 && x == q * d + r && 0 <= r < d
    ensures x / d == q && x % d == r
  {
    var q0, r0 := x / d, x % d;
    assert x == q0 * d + r0 && 0 <= r0 < d;
    assert q * d - q0 * d == r0 - r;
    assert (q - q0) * d == q * d - q0 * d;
    assert (q0 - q) * d == q0 * d - q * d;
    if q > q0 {
      MulAtLeast(q - q0, d);
    } else if q < q0 {
      MulAtLeast(q0 - q, d);
    }
  }

  lemma DivPow2Succ(x: int, j: nat)
    ensures x / Pow2(j + 1) == (x / 2) / Pow2(j)
  {
    var p := Pow2(j);
    var h, b := x / 2, x % 2;
    var q, s := h / p, h % p;
    assert x == 2 * h + b;
    assert h == q * p + s && 0 <= s < p;
    assert x == q * (2 * p) + (2 * s + b);
    DivUnique(x, 2 * p, q, 2 * s + b);
  }

  lemma BitSucc(x: int, j: nat)
    ensures Bit(x, j + 1) == Bit(x / 2, j)
  {
    DivPow2Succ(x, j);
  }

  lemma MinusOneDiv(j: nat)
    ensures -1 / Pow2(j) == -1
  {
  }

  lemma {:induction false} BitZero(j: nat)
    ensures !Bit(0, j)
  {
  }

  lemma BitMinusOne(j: nat)
    ensures Bit(-1, j)
  {
    MinusOneDiv(j);
  }

  /** Bit j of 2r + b: b itself at j = 0, bit j - 1 of r above. */
  lemma BitOfTwice(v: int, r: int, b: int, j: nat)
    requires (b == 0 || b == 1) && v == 2 * r + b
    ensures Bit(v, j) == if j == 0 then b == 1 else Bit(r, j - 1)
  {
    HalfOfTwice(r, b);
    if j > 0 {
      BitSucc(v, j - 1);
    }
  }

  /** Halving 2r + b, for a low bit b, gives r back and leaves b. */
  lemma HalfOfTwice(r: int, b: int)
    requires b == 0 || b == 1
    ensures (2 * r + b) / 2 == r && (2 * r + b) % 2 == b
  {
    DivUnique(2 * r + b, 2, r, b);
  }

  lemma {:induction false} Pow2Mono(n: nat, j: nat)
    requires n <= j
    ensures Pow2(n) <= Pow2(j)
    decreases j
  {
    if n < j {
      Pow2Mono(n, j - 1);
    }
  }

  /** A number below 2^n has no bit at or above n. */
  lemma BitAbove(x: int, n: nat, j: nat)
    requires 0 <= x < Pow2(n) && n <= j
    ensures !Bit(x, j)
  {
    Pow2Mono(n, j);
    DivUnique(x, Pow2(j), 0, x);
  }

  // ------------------------------------------------------- bitwise laws

  lemma {:induction false} BitAnd(x: int, y: int, j: nat)
    ensures Bit(And(x, y), j) == (Bit(x, j) && Bit(y, j))
    decreases j
  {
    if x == 0 || y == 0 {
      BitZero(j);
    } else if x == -1 {
      BitMinusOne(j);
    } else if y == -1 {
      BitMinusOne(j);
    } else {
      var r, b := And(x / 2, y / 2), if x % 2 == 1 && y % 2 == 1 then 1 else 0;
      assert And(x, y) == 2 * r + b;
      BitOfTwice(And(x, y), r, b, j);
      if j > 0 {
        BitSucc(x, j - 1);
        BitSucc(y, j - 1);
        BitAnd(x / 2, y / 2, j - 1);
      }
    }
  }

  lemma {:induction false} BitOr(x: int, y: int, j: nat)
    ensures Bit(Or(x, y), j) == (Bit(x, j) || Bit(y, j))
    decreases j
  {
    if x == -1 || y == -1 {
      BitMinusOne(j);
    } else if x == 0 || y == 0 {
      BitZero(j);
    } else {
      var r, b := Or(x / 2, y / 2), if x % 2 == 1 || y % 2 == 1 then 1 else 0;
      assert Or(x, y) == 2 * r + b;
      BitOfTwice(Or(x, y), r, b, j);
      if j > 0 {
        BitSucc(x, j - 1);
        BitSucc(y, j - 1);
        BitOr(x / 2, y / 2, j - 1);
      }
    }
  }

  lemma {:induction false} BitNot(x: int, j: nat)
    ensures Bit(Not(x), j) == !Bit(x, j)
    decreases j
  {
    if j > 0 {
      assert Not(x) / 2 == Not(x / 2);
      BitSucc(Not(x), j - 1);
      BitSucc(x, j - 1);
      BitNot(x / 2, j - 1);
    }
  }

  lemma {:induction false} BitXor(x: int, y: int, j: nat)
    ensures Bit(Xor(x, y), j) == (Bit(x, j) != Bit(y, j))
    decreases j
  {
    if x == 0 || y == 0 {
      BitZero(j);
    } else if x == -1 {
      BitMinusOne(j);
      BitNot(y, j);
    } else if y == -1 {
      BitMinusOne(j);
      BitNot(x, j);
    } else {
      var r, b := Xor(x / 2, y / 2), if x % 2 != y % 2 then 1 else 0;
      assert Xor(x, y) == 2 * r + b;
      BitOfTwice(Xor(x, y), r, b, j);
      if j > 0 {
        BitSucc(x, j - 1);
        BitSucc(y, j - 1);
        BitXor(x / 2, y / 2, j - 1);
      }
    }
  }

  /** Bit j of 2^k is set exactly when j == k. */
  lemma {:induction false} BitPow2(k: nat, j: nat)
    ensures Bit(Pow2(k), j) == (j == k)
    decreases k
  {
    if k == 0 {
      if j > 0 {
        BitSucc(1, j - 1);
        BitZero(j - 1);
      }
    } else if j == 0 {
    } else {
      BitSucc(Pow2(k), j - 1);
      BitPow2(k - 1, j - 1);
    }
  }

  /** Two numbers in 0 .. 2^n - 1 with the same low n bits are equal. */
  lemma {:induction false} BitsDetermine(x: int, y: int, n: nat)
    requires 0 <= x < Pow2(n) && 0 <= y < Pow2(n)
    requires forall j: nat :: j < n ==> Bit(x, j) == Bit(y, j)
    ensures x == y
    decreases n
  {
    if n > 0 {
      forall j: nat | j < n - 1
        ensures Bit(x / 2, j) == Bit(y / 2, j)
      {
        BitSucc(x, j);
        BitSucc(y, j);
      }
      BitsDetermine(x / 2, y / 2, n - 1);
      assert Bit(x, 0) == Bit(y, 0);
    }
  }

  // -------------------------------------------------- arithmetic forms

  /** Masking with 2^n - 1 is reduction modulo 2^n. */
  lemma {:induction false} AndLowMask(x: int, n: nat)
    ensures And(x, Pow2(n) - 1) == x % Pow2(n)
    decreases n
  {
    if n == 0 {
    } else if x == 0 {
    } else if x == -1 {
      DivUnique(-1, Pow2(n), -1, Pow2(n) - 1);
    } else {
      var m := Pow2(n - 1) - 1;
      assert Pow2(n) - 1 == 2 * m + 1;
      AndOddMask(x, m);
      if n == 1 {
        assert And(x / 2, 0) == 0;
      } else {
        AndLowMask(x / 2, n - 1);
        ModHalf(x, n - 1);
      }
    }
  }

  /** One step of masking with an odd mask: the low bit of x and the rest halved. */
  lemma AndOddMask(x: int, m: int)
    requires x != 0 && x != -1 && m >= 0
    ensures And(x, 2 * m + 1) == 2 * And(x / 2, m) + x % 2
  {
    HalfOfTwice(m, 1);
  }

  /** Masking a value below 2^n with 2^n - 2^k clears its k low bits. */
  lemma {:induction false} AndHighMask(x: int, k: nat, n: nat)
    requires 0 <= x < Pow2(n) && k <= n
    ensures And(x, Pow2(n) - Pow2(k)) == (x / Pow2(k)) * Pow2(k)
  {
    var p, e := Pow2(k), Pow2(n - k);
    assert Pow2(n) == p * e by { Pow2Add(k, n - k); }
    ShiftedMaskForm(p, e);
    AndShifted(x, e - 1, k);
    QuotientFits(x, p, e);
    AndLowMask(x / p, n - k);
  }

  lemma ShiftedMaskForm(p: int, e: int)
    ensures p * e - p == (e - 1) * p
  {
  }

  /** 0 <= x < p * e leaves x / p unchanged modulo e. */
  lemma QuotientFits(x: int, p: int, e: int)
    requires p > 0 && e > 0 && 0 <= x < p * e
    ensures (x / p) % e == x / p
  {
    DivBelow(x, p, e);
    DivUnique(x / p, e, 0, x / p);
  }

  /** 0 <= x < p * e gives 0 <= x / p < e. */
  lemma DivBelow(x: int, p: int, e: int)
    requires p > 0 && e > 0 && 0 <= x < p * e
    ensures 0 <= x / p < e
  {
    var q, r := x / p, x % p;
    assert x == q * p + r;
    if q > e {
      Distrib(e, q - e, p);
      MulAtLeast(q - e, p);
    }
  }

  lemma ModHalf(x: int, k: nat)
    ensures x % Pow2(k + 1) == 2 * ((x / 2) % Pow2(k)) + x % 2
  {
    ModOfDouble(x, Pow2(k));
  }

  lemma ModOfDouble(x: int, p: int)
    requires p > 0
    ensures x % (2 * p) == 2 * ((x / 2) % p) + x % 2
  {
    var h := x / 2;
    var q, r := h / p, h % p;
    assert x == 2 * h + x % 2;
    assert h == q * p + r;
    assert x == q * (2 * p) + (2 * r + x % 2);
    DivUnique(x, 2 * p, q, 2 * r + x % 2);
  }

  /** Or of a shifted value and a value that fits below the shift is a sum. */
  lemma {:induction false} OrDisjoint(h: int, l: int, k: nat)
    requires 0 <= l < Pow2(k)
    ensures Or(h * Pow2(k), l) == h * Pow2(k) + l
    decreases k
  {
    if k == 0 {
      assert l == 0;
    } else if l == 0 {
    } else if h == 0 {
    } else {
      var p := Pow2(k - 1);
      MulAssoc2(h, p);
      assert h * p != 0;
      OrOfEven(h * p, l);
      HalfBelow(l, p);
      OrDisjoint(h, l / 2, k - 1);
    }
  }

  /** One step of Or on an even non-zero value and a positive one. */
  lemma OrOfEven(a: int, l: int)
    requires a != 0 && l > 0
    ensures Or(2 * a, l) == 2 * Or(a, l / 2) + l % 2
  {
    HalfOfTwice(a, 0);
  }

  /**
   * Or of a shifted value and a negative value at least -2^k: the negative
   * value's ones already cover every bit from k up, so it comes out whole.
   * This is what a sign-extended Java byte does to the bits above it.
   */
  lemma {:induction false} OrSignFill(h: int, l: int, k: nat)
    requires l < 0 && l + Pow2(k) >= 0
    ensures Or(h * Pow2(k), l) == l
    decreases k
  {
    if k == 0 || l == -1 || h == 0 {
    } else {
      var p := Pow2(k - 1);
      MulAssoc2(h, p);
      assert h * p != 0;
      OrOfEvenNegative(h * p, l);
      OrSignFill(h, l / 2, k - 1);
    }
  }

  /** OrSignFill for a shift by one byte. */
  lemma OrSignFillByte(h: int, l: int)
    requires -256 <= l < 0
    ensures Or(h * 256, l) == l
  {
    Pow2Table();
    OrSignFill(h, l, 8);
  }

  /** OrDisjoint for a shift by one byte. */
  lemma OrDisjointByte(h: int, l: int)
    requires 0 <= l < 256
    ensures Or(h * 256, l) == h * 256 + l
  {
    Pow2Table();
    OrDisjoint(h, l, 8);
  }

  /** One step of Or on an even non-zero value and a negative one other than -1. */
  lemma OrOfEvenNegative(a: int, l: int)
    requires a != 0 && l < -1
    ensures Or(2 * a, l) == 2 * Or(a, l / 2) + l % 2
  {
    HalfOfTwice(a, 0);
  }

  /** One more than a sign-extended byte is one more than the byte, modulo 256. */
  lemma SignExtendPlusOne(b: int)
    requires 0 <= b < 256
    ensures (SignExtend8(b) + 1) % 256 == (b + 1) % 256
  {
    if b >= 128 {
      DivUnique(SignExtend8(b) + 1, 256, if b == 255 then 0 else -1, (b + 1) % 256);
    }
  }

  lemma HalfBelow(l: int, p: int)
    requires 0 <= l < 2 * p
    ensures 0 <= l / 2 < p
  {
  }

  lemma AndEven(x: int, c: int)
    ensures And(x, 2 * c) == 2 * And(x / 2, c)
  {
    HalfOfTwice(c, 0);
    if x == -1 {
      assert x / 2 == -1;
    } else if x != 0 && c != 0 {
      assert And(x, 2 * c) == 2 * And(x / 2, c) + 0;
    }
  }

  lemma MulAssoc2(a: int, p: int)
    ensures 2 * (a * p) == a * (2 * p)
  {
  }

  /** And with a mask that is shifted left by k. */
  lemma {:induction false} AndShifted(x: int, m: int, k: nat)
    ensures And(x, m * Pow2(k)) == And(x / Pow2(k), m) * Pow2(k)
    decreases k
  {
    if k > 0 {
      var p := Pow2(k - 1);
      calc {
        And(x, m * Pow2(k));
        { MulAssoc2(m, p); }
        And(x, 2 * (m * p));
        { AndEven(x, m * p); }
        2 * And(x / 2, m * p);
        { AndShifted(x / 2, m, k - 1); }
        2 * (And((x / 2) / p, m) * p);
        { DivPow2Succ(x, k - 1); }
        2 * (And(x / Pow2(k), m) * p);
        { MulAssoc2(And(x / Pow2(k), m), p); }
        And(x / Pow2(k), m) * Pow2(k);
      }
    }
  }

  // -------------------------------------------------------------- ranges

  lemma {:induction false} OrRange(x: int, y: int, n: nat)
    requires 0 <= x < Pow2(n) && 0 <= y < Pow2(n)
    ensures 0 <= Or(x, y) < Pow2(n)
    decreases n
  {
    if n > 0 && x != 0 && y != 0 {
      OrRange(x / 2, y / 2, n - 1);
    }
  }

  lemma {:induction false} XorRange(x: int, y: int, n: nat)
    requires 0 <= x < Pow2(n) && 0 <= y < Pow2(n)
    ensures 0 <= Xor(x, y) < Pow2(n)
    decreases n
  {
    if n > 0 && x != 0 && y != 0 {
      XorRange(x / 2, y / 2, n - 1);
    }
  }

  /** And with a non-negative mask is non-negative and bounded by the mask. */
  lemma {:induction false} AndRange(x: int, y: int)
    requires 0 <= y
    ensures 0 <= And(x, y) <= y
    decreases Magnitude(x)
  {
    if x != 0 && y != 0 && x != -1 {
      AndRange(x / 2, y / 2);
    }
  }

  lemma {:induction false} AndComm(x: int, y: int)
    ensures And(x, y) == And(y, x)
    decreases Magnitude(x)
  {
    if x != 0 && y != 0 && x != -1 && y != -1 {
      AndComm(x / 2, y / 2);
    }
  }

  lemma {:induction false} OrComm(x: int, y: int)
    ensures Or(x, y) == Or(y, x)
    decreases Magnitude(x)
  {
    if x != 0 && y != 0 && x != -1 && y != -1 {
      OrComm(x / 2, y / 2);
    }
  }

  lemma AndRangeBoth(x: int, y: int)
    requires 0 <= x || 0 <= y
    ensures 0 <= And(x, y)
    ensures 0 <= x ==> And(x, y) <= x
    ensures 0 <= y ==> And(x, y) <= y
  {
    AndComm(x, y);
    if 0 <= y { AndRange(x, y); }
    if 0 <= x { AndRange(y, x); }
  }

  /** `(x & (1 << k)) != 0` tests bit k. */
  lemma {:induction false} MaskTestsBit(x: int, k: nat)
    ensures (And(x, Pow2(k)) != 0) == Bit(x, k)
  {
    AndShifted(x, 1, k);
    AndLowMask(x / Pow2(k), 1);
  }

  // ---------------------------------------------------- carries and borrows

  /** Reducing modulo 2^n keeps every bit below n. */
  lemma {:induction false} BitOfMod(v: int, n: nat, k: nat)
    requires k < n
    ensures Bit(v % Pow2(n), k) == Bit(v, k)
  {
    var p := Pow2(k);
    var m := Pow2(n - k - 1);
    assert Pow2(n) == p * (2 * m) by {
      Pow2Add(k, n - k);
    }
    ModKeepsParity(v, p, m);
  }

  /** Reducing modulo 2 * m * p keeps the parity of the quotient by p. */
  lemma ModKeepsParity(v: int, p: int, m: int)
    requires p > 0 && m > 0
    ensures ((v % (p * (2 * m))) / p) % 2 == (v / p) % 2
  {
    QuotientSplitEven(v, p, m);
  }

  /** Dividing by p splits off an even part from the multiples of 2 * m * p. */
  lemma QuotientSplitEven(v: int, p: int, m: int)
    requires p > 0 && m > 0
    ensures v / p == 2 * ((v / (p * (2 * m))) * m) + (v % (p * (2 * m))) / p
  {
    var e := 2 * m;
    QuotientSplit(v, p, e);
    var q := v / (p * e);
    assert q * e == 2 * (q * m);
  }

  /** Dividing by p splits off the part of v above p * e. */
  lemma QuotientSplit(v: int, p: int, e: int)
    requires p > 0 && e > 0
    ensures v / p == (v / (p * e)) * e + (v % (p * e)) / p
  {
    var q, r := v / (p * e), v % (p * e);
    var rq, rr := r / p, r % p;
    assert v == (q * e) * p + r;
    Distrib(q * e, rq, p);
    DivUnique(v, p, q * e + rq, rr);
  }

  lemma Distrib(x: int, y: int, p: int)
    ensures (x + y) * p == x * p + y * p
  {
  }

  /** Reducing modulo a multiple of d keeps the remainder modulo d. */
  lemma ModOfMod(v: int, d: int, e: int)
    requires d > 0 && e > 0
    ensures (v % (d * e)) % d == v % d
  {
    var q, r := v / (d * e), v % (d * e);
    assert v == (q * e) * d + r;
    var rq, rr := r / d, r % d;
    assert v == (q * e + rq) * d + rr;
    DivUnique(v, d, q * e + rq, rr);
  }

  /** The quotient of a sum: both quotients plus the carry of the remainders. */
  lemma QuotientOfSum(a: int, b: int, p: int)
    requires p > 0
    ensures (a + b) / p == a / p + b / p + (if a % p + b % p >= p then 1 else 0)
  {
    var qa, ra := a / p, a % p;
    var qb, rb := b / p, b % p;
    var carry := if ra + rb >= p then 1 else 0;
    assert a == qa * p + ra && b == qb * p + rb;
    Distrib(qa, qb, p);
    Distrib(qa + qb, carry, p);
    DivUnique(a + b, p, qa + qb + carry, ra + rb - carry * p);
  }

  /** The quotient of a difference: the quotients' difference less the borrow of the remainders. */
  lemma QuotientOfDifference(a: int, b: int, p: int)
    requires p > 0
    ensures (a - b) / p == a / p - b / p - (if a % p < b % p then 1 else 0)
  {
    var qa, ra := a / p, a % p;
    var qb, rb := b / p, b % p;
    var borrow := if ra < rb then 1 else 0;
    assert a == qa * p + ra && b == qb * p + rb;
    Distrib(qa, -qb, p);
    Distrib(qa - qb, -borrow, p);
    DivUnique(a - b, p, qa - qb - borrow, ra - rb + borrow * p);
  }

  /** Bit k of a sum: the operands' bits k and the carry out of the bits below. */
  lemma {:induction false} BitOfSum(a: int, b: int, k: nat)
    ensures Bit(a + b, k) == ((Bit(a, k) != Bit(b, k)) != (a % Pow2(k) + b % Pow2(k) >= Pow2(k)))
  {
    QuotientOfSum(a, b, Pow2(k));
  }

  /** Bit k of a difference: the operands' bits k and the borrow into bit k. */
  lemma {:induction false} BitOfDifference(a: int, b: int, k: nat)
    ensures Bit(a - b, k) == ((Bit(a, k) != Bit(b, k)) != (a % Pow2(k) < b % Pow2(k)))
  {
    QuotientOfDifference(a, b, Pow2(k));
  }
}
