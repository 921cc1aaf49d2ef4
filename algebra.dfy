/** Ring laws of the quaternion operations. */
module QuaternionAlgebra {
  import opened RealArith
  import opened Quaternions

  // ---------- addition, subtraction, negation ----------

  /** Adding and then subtracting the same quaternion gives back the original. */
  lemma AddSubCancel(a: Quat, b: Quat)
    ensures Sub(Add(a, b), b) == a
    ensures Add(Sub(a, b), b) == a
  {}

  lemma AddZero(q: Quat)
    ensures Add(q, Zero) == q && Add(Zero, q) == q
  {}

  /** Subtraction is addition of the negation. */
  lemma SubIsAddNeg(a: Quat, b: Quat)
    ensures Sub(a, b) == Add(a, Neg(b))
  {}

  lemma NegInvolution(q: Quat)
    ensures Neg(Neg(q)) == q
  {}

  // ---------- the Hamilton product ----------

  lemma MulOne(q: Quat)
    ensures Mul(One, q) == q && Mul(q, One) == q
  {}

  /** The basis units multiply as `i*j = k`, `j*k = i`, `k*i = j`, `i*i = -1`. */
  lemma UnitProducts()
    ensures Mul(I, J) == K && Mul(J, K) == I && Mul(K, I) == J
    ensures Mul(I, I) == Neg(One) && Mul(J, J) == Neg(One) && Mul(K, K) == Neg(One)
  {}

  /** The product is not commutative: `j*i` is `-k`, not `k`. */
  lemma MulNotCommutative()
    ensures Mul(J, I) == Neg(K)
    ensures Mul(I, J) != Mul(J, I)
  {}

  /** Multiplying by a scalar from either side is the product with the real quaternion `(s, 0, 0, 0)`. */
  lemma ScaleIsProductWithReal(q: Quat, s: real)
    ensures Scale(q, s) == Mul(q, Quat(s, 0.0, 0.0, 0.0))
    ensures Scale(q, s) == Mul(Quat(s, 0.0, 0.0, 0.0), q)
  {}

  lemma ScaleOne(q: Quat)
    ensures Scale(q, 1.0) == q
  {}

  /**
   * Over plain reals, one component at a time: with `p = a * b` and
   * `r = b * c`, the components of `p * c` and of `a * r` agree.
   */
  lemma AssociativeW(aw: real, ax: real, ay: real, az: real, bw: real, bx: real, bY: real, bz: real,
                      cw: real, cx: real, cy: real, cz: real,
                      pw: real, px: real, py: real, pz: real, rw: real, rx: real, ry: real, rz: real)
    requires ProductIs(aw, ax, ay, az, bw, bx, bY, bz, pw, px, py, pz)
    requires ProductIs(bw, bx, bY, bz, cw, cx, cy, cz, rw, rx, ry, rz)
    ensures pw * cw - px * cx - py * cy - pz * cz == aw * rw - ax * rx - ay * ry - az * rz
  {}

  lemma AssociativeX(aw: real, ax: real, ay: real, az: real, bw: real, bx: real, bY: real, bz: real,
                      cw: real, cx: real, cy: real, cz: real,
                      pw: real, px: real, py: real, pz: real, rw: real, rx: real, ry: real, rz: real)
    requires ProductIs(aw, ax, ay, az, bw, bx, bY, bz, pw, px, py, pz)
    requires ProductIs(bw, bx, bY, bz, cw, cx, cy, cz, rw, rx, ry, rz)
    ensures pw * cx + px * cw + py * cz - pz * cy == aw * rx + ax * rw + ay * rz - az * ry
  {}

  lemma AssociativeY(aw: real, ax: real, ay: real, az: real, bw: real, bx: real, bY: real, bz: real,
                      cw: real, cx: real, cy: real, cz: real,
                      pw: real, px: real, py: real, pz: real, rw: real, rx: real, ry: real, rz: real)
    requires ProductIs(aw, ax, ay, az, bw, bx, bY, bz, pw, px, py, pz)
    requires ProductIs(bw, bx, bY, bz, cw, cx, cy, cz, rw, rx, ry, rz)
    ensures pw * cy + py * cw + pz * cx - px * cz == aw * ry + ay * rw + az * rx - ax * rz
  {}

  lemma AssociativeZ(aw: real, ax: real, ay: real, az: real, bw: real, bx: real, bY: real, bz: real,
                      cw: real, cx: real, cy: real, cz: real,
                      pw: real, px: real, py: real, pz: real, rw: real, rx: real, ry: real, rz: real)
    requires ProductIs(aw, ax, ay, az, bw, bx, bY, bz, pw, px, py, pz)
    requires ProductIs(bw, bx, bY, bz, cw, cx, cy, cz, rw, rx, ry, rz)
    ensures pw * cz + pz * cw + px * cy - py * cx == aw * rz + az * rw + ax * ry - ay * rx
  {}

  /** `(pw, px, py, pz)` is the Hamilton product of `(aw, ax, ay, az)` and `(bw, bx, bY, bz)`. */
  predicate ProductIs(aw: real, ax: real, ay: real, az: real, bw: real, bx: real, bY: real, bz: real,
                      pw: real, px: real, py: real, pz: real)
  {
    && pw == ProdW(aw, ax, ay, az, bw, bx, bY, bz)
    && px == ProdX(aw, ax, ay, az, bw, bx, bY, bz)
    && py == ProdY(aw, ax, ay, az, bw, bx, bY, bz)
    && pz == ProdZ(aw, ax, ay, az, bw, bx, bY, bz)
  }

  /** The Hamilton product is associative, so `q1 * q2 * q3` needs no parentheses. */
  lemma MulAssociative(a: Quat, b: Quat, c: Quat)
    ensures Mul(Mul(a, b), c) == Mul(a, Mul(b, c))
  {
    var p, r := Mul(a, b), Mul(b, c);
    AssociativeW(a.w, a.x, a.y, a.z, b.w, b.x, b.y, b.z, c.w, c.x, c.y, c.z, p.w, p.x, p.y, p.z, r.w, r.x, r.y, r.z);
    AssociativeX(a.w, a.x, a.y, a.z, b.w, b.x, b.y, b.z, c.w, c.x, c.y, c.z, p.w, p.x, p.y, p.z, r.w, r.x, r.y, r.z);
    AssociativeY(a.w, a.x, a.y, a.z, b.w, b.x, b.y, b.z, c.w, c.x, c.y, c.z, p.w, p.x, p.y, p.z, r.w, r.x, r.y, r.z);
    AssociativeZ(a.w, a.x, a.y, a.z, b.w, b.x, b.y, b.z, c.w, c.x, c.y, c.z, p.w, p.x, p.y, p.z, r.w, r.x, r.y, r.z);
  }

  /** Scalars move through either factor of a product. */
  lemma MulScale(a: Quat, b: Quat, s: real)
    ensures Mul(a, Scale(b, s)) == Scale(Mul(a, b), s)
    ensures Mul(Scale(a, s), b) == Scale(Mul(a, b), s)
  {
    var r := Quat(s, 0.0, 0.0, 0.0);
    ScaleIsProductWithReal(a, s);
    ScaleIsProductWithReal(b, s);
    ScaleIsProductWithReal(Mul(a, b), s);
    MulAssociative(a, b, r);
    MulAssociative(r, a, b);
  }

  /** Over plain reals: a quaternion times its conjugate, in either order. */
  lemma ConjugateProductComponents(w: real, x: real, y: real, z: real)
    ensures ProdW(w, x, y, z, w, -x, -y, -z) == Sq(w) + Sq(x) + Sq(y) + Sq(z)
    ensures ProdX(w, x, y, z, w, -x, -y, -z) == 0.0 && ProdY(w, x, y, z, w, -x, -y, -z) == 0.0
    ensures ProdZ(w, x, y, z, w, -x, -y, -z) == 0.0
    ensures ProdW(w, -x, -y, -z, w, x, y, z) == Sq(w) + Sq(x) + Sq(y) + Sq(z)
    ensures ProdX(w, -x, -y, -z, w, x, y, z) == 0.0 && ProdY(w, -x, -y, -z, w, x, y, z) == 0.0
    ensures ProdZ(w, -x, -y, -z, w, x, y, z) == 0.0
  {}

  /** `q * conj(q)` and `conj(q) * q` are both the real quaternion `|q|²`. */
  lemma MulConjugate(q: Quat)
    ensures Mul(q, Conjugate(q)) == Quat(NormSq(q), 0.0, 0.0, 0.0)
    ensures Mul(Conjugate(q), q) == Quat(NormSq(q), 0.0, 0.0, 0.0)
  {
    ConjugateProductComponents(q.w, q.x, q.y, q.z);
  }

  /**
   * Euler's four-square identity over plain reals: `p` is the product of `a`
   * and `b`, `na` and `nb` their squared magnitudes.
   */
  lemma FourSquare(aw: real, ax: real, ay: real, az: real, bw: real, bx: real, bY: real, bz: real,
                   pw: real, px: real, py: real, pz: real, na: real, nb: real)
    requires ProductIs(aw, ax, ay, az, bw, bx, bY, bz, pw, px, py, pz)
    requires na == aw * aw + ax * ax + ay * ay + az * az
    requires nb == bw * bw + bx * bx + bY * bY + bz * bz
    ensures pw * pw + px * px + py * py + pz * pz == na * nb
  {}

  /** The squared magnitude of a product is the product of the squared magnitudes. */
  lemma NormSqMultiplicative(a: Quat, b: Quat)
    ensures NormSq(Mul(a, b)) == NormSq(a) * NormSq(b)
  {
    var p := Mul(a, b);
    FourSquare(a.w, a.x, a.y, a.z, b.w, b.x, b.y, b.z, p.w, p.x, p.y, p.z, NormSq(a), NormSq(b));
  }

  // ---------- the scalar operand of `*` ----------

  /** `*` fails exactly on operands that are neither quaternions nor numbers. */
  lemma MultiplyTypeError(q: Quat, other: Operand)
    ensures Multiply(q, other).Failure? <==> other.OtherOperand?
    ensures Multiply(q, other).Failure? ==> Multiply(q, other).error == TypeError
  {}

  /** Reflected `*` yields a value exactly for numbers, and then it is `q * s`. */
  lemma RMultiplyIsMultiply(q: Quat, other: Operand)
    ensures RMultiply(q, other).Some? <==> other.ScalarOperand?
    ensures other.ScalarOperand? ==> RMultiply(q, other) == Some(Scale(q, other.s))
    ensures other.ScalarOperand? ==> Multiply(q, other) == Success(RMultiply(q, other).value)
  {}

  // ---------- conjugate ----------

  lemma ConjugateInvolution(q: Quat)
    ensures Conjugate(Conjugate(q)) == q
  {}

  /** Negation and conjugation agree exactly on quaternions with zero scalar part. */
  lemma NegVsConjugate(q: Quat)
    ensures Neg(q) == Conjugate(q) <==> q.w == 0.0
  {}

  // ---------- worked values ----------

  /** `q1 = 1 + 2i + 3j + 4k`: `q1 + q1`, `q1 * 3`, `3 * q1`, and `1 . 1`. */
  lemma WorkedValues()
    ensures Add(Quat(1.0, 2.0, 3.0, 4.0), Quat(1.0, 2.0, 3.0, 4.0)) == Quat(2.0, 4.0, 6.0, 8.0)
    ensures Multiply(Quat(1.0, 2.0, 3.0, 4.0), ScalarOperand(3.0)) == Success(Quat(3.0, 6.0, 9.0, 12.0))
    ensures RMultiply(Quat(1.0, 2.0, 3.0, 4.0), ScalarOperand(3.0)) == Some(Quat(3.0, 6.0, 9.0, 12.0))
    ensures Dot(One, One) == 1.0
  {}
}
