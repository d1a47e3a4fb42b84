/**
  Which IEEE 754 patterns the decoder takes for integers: those whose value is a safe integer, and no others.
 */
module Floats {
  import opened Common
  import opened Options
  import opened MsgPack

  function Abs(i: int): nat { if i < 0 then -i else i }

  /** The number `mant` times two to the `e`, negated if `negative`, is `i`. */
  predicate Denotes(negative: bool, mant: nat, e: int, i: int) {
    && (i != 0 ==> (i < 0 <==> negative))
    && (if e >= 0 then mant * Pow2(e) == Abs(i) else mant == Abs(i) * Pow2(-e))
  }

  /** A binary64 pattern: sign, eleven bits of exponent, 52 of fraction; finite, and equal to `i`. */
  predicate DoubleIs(bits: nat, i: int) {
    DoubleParts(bits / 0x8000_0000_0000_0000 % 2 == 1, bits / 0x10_0000_0000_0000 % 2048, bits % 0x10_0000_0000_0000, i)
  }

  predicate DoubleParts(negative: bool, e: nat, m: nat, i: int) {
    && e < 2047
    && (if e == 0 then Denotes(negative, m, -1074, i) else Denotes(negative, 0x10_0000_0000_0000 + m, e - 1075, i))
  }

  /** A binary32 pattern: sign, eight bits of exponent, 23 of fraction. */
  predicate SingleIs(bits: nat, i: int) {
    SingleParts(bits / 0x8000_0000 % 2 == 1, bits / 0x80_0000 % 256, bits % 0x80_0000, i)
  }

  predicate SingleParts(negative: bool, e: nat, m: nat, i: int) {
    e < 255 && (if e == 0 then Denotes(negative, m, -149, i) else Denotes(negative, 0x80_0000 + m, e - 150, i))
  }

  // ---------------------------------------------------------------- powers of two

  lemma {:induction false} Pow2Grows(m: nat, n: nat)
    requires m <= n
    ensures Pow2(m) <= Pow2(n)
    decreases n
  {
    if m < n { Pow2Grows(m, n - 1); }
  }

  lemma {:induction false} Pow2Sum(m: nat, n: nat)
    ensures Pow2(m + n) == Pow2(m) * Pow2(n)
    decreases m
  {
    if m > 0 {
      Pow2Sum(m - 1, n);
      Doubling(Pow2(m - 1), Pow2(n));
    }
  }

  lemma Doubling(x: nat, y: nat)
    ensures 2 * (x * y) == (2 * x) * y
  {
  }

  lemma Powers()
    ensures Pow2(23) == 0x80_0000 && Pow2(24) == 0x100_0000 && Pow2(30) == 0x4000_0000
    ensures Pow2(52) == 0x10_0000_0000_0000 && Pow2(53) == 0x20_0000_0000_0000
  {
    assert Pow2(10) == 1024;
    Pow2Sum(10, 10);
    Pow2Sum(20, 10);
    Pow2Sum(3, 20);
    Pow2Sum(1, 23);
    Pow2Sum(23, 29);
    Pow2Sum(30, 22);
    Pow2Sum(20, 2);
    Pow2Sum(1, 52);
  }

  // ---------------------------------------------------------------- a fraction, an integer, or too large

  /** Smaller than one but not zero. */
  lemma TooSmall(negative: bool, mant: nat, s: nat, i: int)
    requires 0 < mant < Pow2(s)
    ensures !Denotes(negative, mant, -(s as int), i)
  {
    if Denotes(negative, mant, -(s as int), i) {
      assert s > 0;
      AtLeast(Abs(i), Pow2(s));
    }
  }

  lemma AtLeast(x: nat, p: nat)
    requires x > 0
    ensures x * p >= p
  {
  }

  lemma TooLarge(negative: bool, mant: nat, e: nat, i: int)
    requires mant * Pow2(e) > MAX_SAFE && Abs(i) <= MAX_SAFE
    ensures !Denotes(negative, mant, e, i)
  {
  }

  lemma ScaledIff(negative: bool, mant: nat, s: nat, i: int)
    requires mant > 0
    ensures Scaled(negative, mant, s) == Some(i) <==> Denotes(negative, mant, -(s as int), i) && Abs(i) <= MAX_SAFE
  {
    var p := Pow2(s);
    assert mant == mant / p * p + mant % p;
    Quotient(mant, p, Abs(i));
  }

  lemma Quotient(n: nat, p: nat, q: nat)
    requires p > 0
    ensures n == q * p <==> n % p == 0 && n / p == q
  {
    if n == q * p {
      assert n == q * p + 0;
      Unique(q, n / p, 0, n % p, p);
    }
  }

  lemma Unique(a: nat, b: nat, r: nat, t: nat, p: nat)
    requires a * p + r == b * p + t && r < p && t < p
    ensures a == b && r == t
  {
    if a < b {
      assert (b - a) * p == b * p - a * p;
      AtLeast(b - a, p);
    } else if b < a {
      assert (a - b) * p == a * p - b * p;
      AtLeast(a - b, p);
    }
  }

  /** Below `2^bits` and scaled down by at least that: a fraction. */
  lemma Fraction(negative: bool, mant: nat, s: nat, bits: nat, i: int)
    requires 0 < mant < Pow2(bits) && bits <= s
    ensures !Denotes(negative, mant, -(s as int), i)
  {
    Pow2Grows(bits, s);
    TooSmall(negative, mant, s, i);
  }

  /** At least `2^bits` and scaled up so that it passes 2^53: no safe integer. */
  lemma Beyond(negative: bool, mant: nat, e: nat, bits: nat, i: int)
    requires mant >= Pow2(bits) && bits + e >= 53 && Abs(i) <= MAX_SAFE
    ensures !Denotes(negative, mant, e, i)
  {
    Powers();
    Pow2Sum(bits, e);
    Pow2Grows(53, bits + e);
    Product(Pow2(bits), mant, Pow2(e), Pow2(e));
    TooLarge(negative, mant, e, i);
  }

  lemma Product(a: nat, b: nat, c: nat, d: nat)
    requires a <= b && c <= d
    ensures a * c <= b * d
  {
    assert a * c <= b * c;
    assert b * c <= b * d;
  }

  lemma ZeroIs(negative: bool, s: nat, i: int)
    requires s > 0
    ensures Denotes(negative, 0, -(s as int), i) <==> i == 0
  {
    if i != 0 { AtLeast(Abs(i), Pow2(s)); }
  }

  lemma WholeIs(negative: bool, mant: nat, i: int)
    ensures Denotes(negative, mant, 0, i) <==> (i != 0 ==> (i < 0 <==> negative)) && mant == Abs(i)
  {
    assert Pow2(0) == 1;
  }

  /** A 64-bit float is read as the integer `i` exactly if that is its value and a safe integer. */
  lemma DoubleAsIntIff(bits: nat, i: int)
    ensures DoubleAsInt(bits) == Some(i) <==> DoubleIs(bits, i) && -9007199254740991 <= i <= 9007199254740991
  {
    DoublePartsIff(bits / 0x8000_0000_0000_0000 % 2 == 1, bits / 0x10_0000_0000_0000 % 2048,
                   bits % 0x10_0000_0000_0000, i);
  }

  lemma DoublePartsIff(negative: bool, e: nat, m: nat, i: int)
    requires e < 2048 && m < 0x10_0000_0000_0000
    ensures IntOfDouble(negative, e, m) == Some(i) <==> DoubleParts(negative, e, m, i) && Abs(i) <= 9007199254740991
  {
    var mant := 0x10_0000_0000_0000 + m;
    Powers();
    if e == 0 {
      if m == 0 { ZeroIs(negative, 1074, i); } else { Fraction(negative, m, 1074, 52, i); }
    } else if e < 1023 {
      Fraction(negative, mant, 1075 - e, 53, i);
    } else if e <= 1075 {
      ScaledIff(negative, mant, 1075 - e, i);
    } else if Abs(i) <= MAX_SAFE {
      Beyond(negative, mant, e - 1075, 52, i);
    }
  }

  /** The same for 32 bits. */
  lemma SingleAsIntIff(bits: nat, i: int)
    ensures SingleAsInt(bits) == Some(i) <==> SingleIs(bits, i) && -9007199254740991 <= i <= 9007199254740991
  {
    SinglePartsIff(bits / 0x8000_0000 % 2 == 1, bits / 0x80_0000 % 256, bits % 0x80_0000, i);
  }

  lemma SinglePartsIff(negative: bool, e: nat, m: nat, i: int)
    requires e < 256 && m < 0x80_0000
    ensures IntOfSingle(negative, e, m) == Some(i) <==> SingleParts(negative, e, m, i) && Abs(i) <= 9007199254740991
  {
    var mant := 0x80_0000 + m;
    Powers();
    if e == 0 {
      if m == 0 { ZeroIs(negative, 149, i); } else { Fraction(negative, m, 149, 23, i); }
    } else if e < 127 {
      Fraction(negative, mant, 150 - e, 24, i);
    } else if e <= 150 {
      ScaledIff(negative, mant, 150 - e, i);
    } else if e <= 179 {
      MultipleIff(negative, mant, e - 150, i);
    } else if Abs(i) <= MAX_SAFE {
      Beyond(negative, mant, e - 150, 23, i);
    }
  }

  lemma MultipleIff(negative: bool, mant: nat, e: nat, i: int)
    requires mant > 0
    ensures Scaled(negative, mant * Pow2(e), 0) == Some(i) <==> Denotes(negative, mant, e, i) && Abs(i) <= MAX_SAFE
  {
    var whole := mant * Pow2(e);
    AtLeast(mant, Pow2(e));
    ScaledIff(negative, whole, 0, i);
    WholeIs(negative, whole, i);
  }
}
