/**
 * Exact rational quantities, as used for step quantities (items, machines, ...).
 * A rational is an unnormalised fraction with a positive denominator; two
 * fractions are the same quantity when they cross-multiply to the same value.
 */
module Rationals {

  datatype Fraction = Fraction(num: int, den: int)

  type Rational = f: Fraction | f.den > 0 witness Fraction(0, 1)

  /** The real number a fraction denotes: the reference semantics of the arithmetic below. */
  ghost function Value(a: Rational): real
  {
    a.num as real / a.den as real
  }

  /** Value equality of two rationals. */
  predicate Eq(a: Rational, b: Rational)
  {
    a.num * b.den == b.num * a.den
  }

  predicate IsZero(a: Rational)
  {
    a.num == 0
  }

  function Mul(a: Rational, b: Rational): (r: Rational)
    ensures IsZero(r) <==> IsZero(a) || IsZero(b)
  {
    Fraction(a.num * b.num, a.den * b.den)
  }

  /** Exact division; the divisor must not be zero. */
  function Div(a: Rational, b: Rational): (r: Rational)
    requires !IsZero(b)
    ensures IsZero(r) <==> IsZero(a)
    ensures Eq(Mul(r, b), a)
  {
    if b.num > 0 then Fraction(a.num * b.den, a.den * b.num)
    else Fraction(-(a.num * b.den), -(a.den * b.num))
  }

  /** Eq agrees with equality of the denoted real numbers, in both directions. */
  lemma EqIffSameValue(a: Rational, b: Rational)
    ensures Eq(a, b) <==> Value(a) == Value(b)
  {
    var x, y := a.den as real, b.den as real;
    assert Value(a) == Value(b) <==> a.num as real * y == b.num as real * x by {
      assert Value(a) * x * y == a.num as real * y;
      assert Value(b) * x * y == b.num as real * x;
    }
  }

  /** Mul denotes multiplication of the denoted reals. */
  lemma MulValue(a: Rational, b: Rational)
    ensures Value(Mul(a, b)) == Value(a) * Value(b)
  {
    var p, q := a.num as real, b.num as real;
    var x, y := a.den as real, b.den as real;
    calc {
      Value(Mul(a, b));
      (p * q) / (x * y);
      (p / x) * (q / y);
    }
  }

  /** Div denotes division of the denoted reals. */
  lemma DivValue(a: Rational, b: Rational)
    requires !IsZero(b)
    ensures Value(b) != 0.0
    ensures Value(Div(a, b)) == Value(a) / Value(b)
  {
    var r := Div(a, b);
    MulValue(r, b);
    EqIffSameValue(Mul(r, b), a);
    assert Value(b) != 0.0 by {
      assert Value(b) * b.den as real == b.num as real;
    }
    assert Value(r) * Value(b) == Value(a);
  }

  /** Division respects value equality: the quotient depends only on the quantities, not on their representation. */
  lemma DivRespectsEq(a: Rational, a': Rational, b: Rational, b': Rational)
    requires !IsZero(b) && !IsZero(b')
    requires Eq(a, a') && Eq(b, b')
    ensures Eq(Div(a, b), Div(a', b'))
  {
    DivValue(a, b);
    DivValue(a', b');
    EqIffSameValue(a, a');
    EqIffSameValue(b, b');
    EqIffSameValue(Div(a, b), Div(a', b'));
  }
}
