/** 64-bit floating-point patterns as unsigned keys, and the order section 5.10 of IEEE 754-2019 gives to the numbers they encode. */
module FloatOrder {

  const TOP: nat := 0x8000_0000_0000_0000
  const ALL: nat := 0xFFFF_FFFF_FFFF_FFFF
  const UNIT: nat := 0x10_0000_0000_0000
  const SPECIAL: nat := 2047

  /** A non-negative pattern gets the top bit, a negative one is complemented. */
  function OrderedBits(bits: nat): nat
    requires bits <= ALL
  {
    if bits < TOP then bits + TOP else ALL - bits
  }

  predicate Negative(bits: nat) {
    bits >= TOP
  }

  function Body(bits: nat): nat {
    if bits >= TOP then bits - TOP else bits
  }

  function Exponent(bits: nat): nat {
    Body(bits) / UNIT
  }

  function Fraction(bits: nat): nat {
    Body(bits) % UNIT
  }

  predicate IsNaN(bits: nat) {
    Exponent(bits) >= SPECIAL && Fraction(bits) != 0
  }

  predicate IsFinite(bits: nat) {
    Exponent(bits) < SPECIAL
  }

  function Pow2(n: nat): nat {
    if n == 0 then 1 else 2 * Pow2(n - 1)
  }

  /** The magnitude of a finite number in units of the smallest subnormal; infinity is the next value up. */
  function Magnitude(exponent: nat, fraction: nat): int {
    if exponent == 0 then fraction else (UNIT + fraction) * Pow2(exponent - 1)
  }

  /** The value of a pattern that is not a NaN, in units of the smallest subnormal. */
  function Scaled(bits: nat): int {
    var m := Magnitude(Exponent(bits), Fraction(bits));
    if Negative(bits) then -m else m
  }

  /** totalOrder without equality: numbers by value and -0 below +0; NaNs outside all numbers, by fraction, mirrored when negative. */
  predicate TotalLess(a: nat, b: nat) {
    if IsNaN(a) && IsNaN(b) then
      if Negative(a) != Negative(b) then Negative(a)
      else if Negative(a) then Fraction(a) > Fraction(b)
      else Fraction(a) < Fraction(b)
    else if IsNaN(a) then Negative(a)
    else if IsNaN(b) then !Negative(b)
    else Scaled(a) < Scaled(b) || (Scaled(a) == Scaled(b) && Negative(a) && !Negative(b))
  }

  lemma {:induction false} Pow2Grows(a: nat, b: nat)
    requires a <= b
    ensures 1 <= Pow2(a) <= Pow2(b)
    decreases b
  {
    if b == 0 {
    } else if a == b {
      Pow2Grows(a - 1, b - 1);
    } else {
      Pow2Grows(a, b - 1);
    }
  }

  lemma Larger(a: nat, b: nat, c: nat)
    ensures a <= b ==> a * c <= b * c && c * a <= c * b
    ensures a < b && c > 0 ==> a * c < b * c
  {
    if a <= b { assert b * c - a * c == (b - a) * c; }
  }

  /** A higher exponent outweighs any fraction. */
  lemma ExponentOutweighs(e: nat, f: nat, e': nat, f': nat)
    requires e < e' && f < UNIT && f' < UNIT
    ensures Magnitude(e, f) < Magnitude(e', f')
  {
    var high := Pow2(e' - 1);
    Larger(UNIT, UNIT + f', high);
    Pow2Grows(e, e' - 1);
    Larger(1, high, UNIT);
    if e > 0 {
      var low := Pow2(e - 1);
      Pow2Grows(0, e - 1);
      Larger(UNIT + f, 2 * UNIT, low);
      Larger(2 * low, high, UNIT);
      assert 2 * UNIT * low == UNIT * (2 * low);
    }
  }

  lemma SameExponent(e: nat, f: nat, f': nat)
    requires f < f' < UNIT
    ensures Magnitude(e, f) < Magnitude(e, f')
  {
    if e > 0 {
      Pow2Grows(0, e - 1);
      assert (UNIT + f) * Pow2(e - 1) < (UNIT + f') * Pow2(e - 1);
    }
  }

  lemma Split(body: nat)
    ensures body == (body / UNIT) * UNIT + body % UNIT && body % UNIT < UNIT
  {
  }

  /** Magnitudes are ordered as the patterns without their sign. */
  lemma BodyOrder(a: nat, b: nat)
    requires a <= ALL && b <= ALL
    ensures Body(a) < Body(b) <==> Magnitude(Exponent(a), Fraction(a)) < Magnitude(Exponent(b), Fraction(b))
    ensures Body(a) == Body(b) <==> Magnitude(Exponent(a), Fraction(a)) == Magnitude(Exponent(b), Fraction(b))
  {
    Split(Body(a));
    Split(Body(b));
    var ea, fa, eb, fb := Exponent(a), Fraction(a), Exponent(b), Fraction(b);
    if ea < eb {
      ExponentOutweighs(ea, fa, eb, fb);
      assert Body(a) < (ea + 1) * UNIT <= eb * UNIT <= Body(b);
    } else if eb < ea {
      ExponentOutweighs(eb, fb, ea, fa);
      assert Body(b) < (eb + 1) * UNIT <= ea * UNIT <= Body(a);
    } else if fa < fb {
      SameExponent(ea, fa, fb);
    } else if fb < fa {
      SameExponent(ea, fb, fa);
    }
  }

  lemma BodyBounds(a: nat)
    requires a <= ALL
    ensures Exponent(a) <= SPECIAL && Body(a) < TOP
    ensures IsNaN(a) <==> Body(a) > SPECIAL * UNIT
    ensures IsNaN(a) ==> Body(a) == SPECIAL * UNIT + Fraction(a)
  {
    Split(Body(a));
    assert TOP == (SPECIAL + 1) * UNIT;
    assert Exponent(a) < SPECIAL ==> (Exponent(a) + 1) * UNIT <= SPECIAL * UNIT;
  }

  /** A zero magnitude has one pattern for each sign. */
  lemma ZeroBody(a: nat)
    requires a <= ALL
    ensures Magnitude(Exponent(a), Fraction(a)) == 0 <==> Body(a) == 0
  {
    BodyOrder(a, 0);
  }

  /** The key order is totalOrder, for every pair of patterns. */
  lemma OrderedIsTotalOrder(a: nat, b: nat)
    requires a <= ALL && b <= ALL
    ensures OrderedBits(a) < OrderedBits(b) <==> TotalLess(a, b)
  {
    BodyBounds(a);
    BodyBounds(b);
    BodyOrder(a, b);
    BodyOrder(b, a);
    ZeroBody(a);
    ZeroBody(b);
  }

  /** Distinct patterns get distinct keys, so nothing is lost. */
  lemma OrderedIsInjective(a: nat, b: nat)
    requires a <= ALL && b <= ALL
    ensures OrderedBits(a) == OrderedBits(b) <==> a == b
    ensures OrderedBits(a) <= ALL
  {
  }

  /** With -0 written as +0, finite numbers are ordered by value alone. */
  lemma OrderedIsNumeric(a: nat, b: nat)
    requires a <= ALL && b <= ALL && IsFinite(a) && IsFinite(b) && a != TOP && b != TOP
    ensures OrderedBits(a) < OrderedBits(b) <==> Scaled(a) < Scaled(b)
    ensures OrderedBits(a) == OrderedBits(b) <==> Scaled(a) == Scaled(b)
  {
    OrderedIsTotalOrder(a, b);
    BodyBounds(a);
    BodyBounds(b);
    BodyOrder(a, b);
    BodyOrder(b, a);
    ZeroBody(a);
    ZeroBody(b);
  }

  // ---------------------------------------------------------------------------
  // The key as the code computes it, bit by bit

  /** A word, most significant bit first. */
  type Word = seq<bool>

  function Value(w: Word): nat {
    if w == [] then 0 else (if w[0] then Pow2(|w| - 1) else 0) + Value(w[1..])
  }

  function Complement(w: Word): Word {
    seq(|w|, i requires 0 <= i < |w| => !w[i])
  }

  /** Exclusive or with the top bit if it is clear, complement if it is set. */
  function OrderedWord(w: Word): Word
    requires w != []
  {
    if !w[0] then [true] + w[1..] else Complement(w)
  }

  lemma {:induction false} ComplementValue(w: Word)
    ensures Value(Complement(w)) + Value(w) == Pow2(|w|) - 1
    decreases |w|
  {
    if w != [] {
      assert Complement(w)[1..] == Complement(w[1..]);
      ComplementValue(w[1..]);
    }
  }

  lemma {:induction false} Pow2Sum(a: nat, b: nat)
    ensures Pow2(a + b) == Pow2(a) * Pow2(b)
    decreases a
  {
    if a > 0 {
      Pow2Sum(a - 1, b);
      assert Pow2(a + b) == 2 * Pow2(a - 1 + b);
    }
  }

  lemma TopIsPow2()
    ensures Pow2(63) == TOP && Pow2(64) == ALL + 1
  {
    assert Pow2(1) == 2 && Pow2(2) == 4 && Pow2(4) == 16;
    Pow2Sum(4, 4);
    Pow2Sum(8, 8);
    Pow2Sum(16, 16);
    Pow2Sum(32, 32);
    assert Pow2(64) == 2 * Pow2(63);
  }

  /** The computed word is the key. */
  lemma WordIsKey(w: Word)
    requires |w| == 64
    ensures Value(w) <= ALL && Value(OrderedWord(w)) == OrderedBits(Value(w))
  {
    TopIsPow2();
    ComplementValue(w);
    ComplementValue(w[1..]);
    if !w[0] {
      assert ([true] + w[1..])[1..] == w[1..];
    }
  }

  /** The words the code computes are ordered by totalOrder, for every pair of patterns. */
  lemma WordIsTotalOrder(a: Word, b: Word)
    requires |a| == 64 && |b| == 64
    ensures Value(OrderedWord(a)) < Value(OrderedWord(b)) <==> TotalLess(Value(a), Value(b))
  {
    WordIsKey(a);
    WordIsKey(b);
    OrderedIsTotalOrder(Value(a), Value(b));
  }
}
