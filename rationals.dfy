/** Exact rationals standing in for the Python floats `count / total`. */
module Rationals {

  /** num/den; every value built here has den > 0. */
  datatype Rational = Rational(num: int, den: int)

  predicate ValidRational(q: Rational) { q.den > 0 }

  /** Python's true division a / b, kept exact; b == 0 raises in Python, hence the requires. */
  function Div(a: int, b: int): (q: Rational)
    requires b != 0
    ensures ValidRational(q)
    ensures q.num * b == a * q.den
  {
    if b > 0 then Rational(a, b) else Rational(-a, -b)
  }

  function Add(p: Rational, q: Rational): (r: Rational)
    requires ValidRational(p) && ValidRational(q)
    ensures ValidRational(r)
  {
    Rational(p.num * q.den + q.num * p.den, p.den * q.den)
  }

  /** Equality of the rational numbers denoted (cross multiplication). */
  predicate Same(p: Rational, q: Rational) { p.num * q.den == q.num * p.den }

  const One: Rational := Rational(1, 1)

  /** Three shares of one whole, each over the whole, add up to exactly 1. */
  lemma SharesSumToOne(a: int, b: int, c: int, d: int)
    requires d > 0 && a + b + c == d
    ensures Same(Add(Add(Div(a, d), Div(b, d)), Div(c, d)), One)
  {
    var sum := Add(Add(Div(a, d), Div(b, d)), Div(c, d));
    assert sum.num == (a * d + b * d) * d + c * (d * d);
    assert sum.den == d * d * d;
    calc {
      (a * d + b * d) * d + c * (d * d);
      { assert (a * d + b * d) * d == (a + b) * (d * d); }
      (a + b) * (d * d) + c * (d * d);
      (a + b + c) * (d * d);
      d * (d * d);
    }
  }
}
