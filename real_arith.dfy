/** Facts about real squares and quotients that the quaternion proofs rest on. */
module RealArith {

  /** `r ** 2`, kept behind a name so that sums of squares stay linear in `Sq` terms. */
  function Sq(r: real): real { r * r }

  lemma SqNonneg(r: real)
    ensures Sq(r) >= 0.0
  {}

  lemma SqDivSelf(r: real)
    requires r != 0.0
    ensures Sq(r) / r == r
  {}

  /** A square is zero only at zero. */
  lemma SqPos(r: real)
    requires r != 0.0
    ensures Sq(r) > 0.0
  {
    SqNonneg(r);
    SqDivSelf(r);
  }

  lemma SqZeroIff(r: real)
    ensures Sq(r) == 0.0 <==> r == 0.0
  {
    if r != 0.0 {
      SqPos(r);
    }
  }

  /** Dividing by `d` is scaling by `1 / d`. */
  lemma DivIsMulRecip(a: real, d: real)
    requires d != 0.0
    ensures a / d == a * (1.0 / d)
  {}

  lemma MulRecip(d: real)
    requires d != 0.0
    ensures d * (1.0 / d) == 1.0
  {}

  lemma SqNeg(r: real)
    ensures Sq(-r) == Sq(r)
  {}

  /** Two non-negative reals with the same square are equal. */
  lemma SqInjective(a: real, b: real)
    requires a >= 0.0 && b >= 0.0 && Sq(a) == Sq(b)
    ensures a == b
  {
    if a < b {
      SqLess(a, b);
    } else if b < a {
      SqLess(b, a);
    }
  }

  lemma SqLess(a: real, b: real)
    requires 0.0 <= a < b
    ensures Sq(a) < Sq(b)
  {
    DiffOfSquares(a, b, Sq(a), Sq(b));
    ProductPos(b - a, b + a);
  }

  lemma DiffOfSquares(a: real, b: real, sa: real, sb: real)
    requires sa == a * a && sb == b * b
    ensures sb - sa == (b - a) * (b + a)
  {}

  lemma ProductPos(u: real, v: real)
    requires u > 0.0 && v > 0.0
    ensures u * v > 0.0
  {}

  lemma SqMul(a: real, b: real)
    ensures Sq(a * b) == Sq(a) * Sq(b)
  {
    ProductOfSquares(a, b, Sq(a * b), Sq(a), Sq(b));
  }

  lemma ProductOfSquares(a: real, b: real, sp: real, sa: real, sb: real)
    requires sp == (a * b) * (a * b) && sa == a * a && sb == b * b
    ensures sp == sa * sb
  {}
}
