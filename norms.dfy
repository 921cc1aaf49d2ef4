/** The dot product, the squared magnitude and `magnitude`. */
module QuaternionNorms {
  import opened RealArith
  import opened Quaternions
  import opened QuaternionAlgebra

  lemma DotSymmetric(a: Quat, b: Quat)
    ensures Dot(a, b) == Dot(b, a)
  {}

  /** A quaternion dotted with itself is the sum under the square root of `magnitude`. */
  lemma DotSelfIsNormSq(q: Quat)
    ensures Dot(q, q) == NormSq(q)
  {}

  lemma NormSqNonneg(q: Quat)
    ensures NormSq(q) >= 0.0
  {
    SqNonneg(q.w);
    SqNonneg(q.x);
    SqNonneg(q.y);
    SqNonneg(q.z);
  }

  /** The squared magnitude vanishes exactly on the zero quaternion. */
  lemma NormSqZeroIff(q: Quat)
    ensures NormSq(q) == 0.0 <==> q == Zero
  {
    SqNonneg(q.w);
    SqNonneg(q.x);
    SqNonneg(q.y);
    SqNonneg(q.z);
    if q.w != 0.0 {
      SqPos(q.w);
    } else if q.x != 0.0 {
      SqPos(q.x);
    } else if q.y != 0.0 {
      SqPos(q.y);
    } else if q.z != 0.0 {
      SqPos(q.z);
    }
  }

  lemma NormSqPos(q: Quat)
    requires q != Zero
    ensures NormSq(q) > 0.0
  {
    NormSqZeroIff(q);
    NormSqNonneg(q);
  }

  /** Negation and conjugation keep the squared magnitude. */
  lemma NormSqNegConjugate(q: Quat)
    ensures NormSq(Neg(q)) == NormSq(q)
    ensures NormSq(Conjugate(q)) == NormSq(q)
  {
    SqNeg(q.w);
    SqNeg(q.x);
    SqNeg(q.y);
    SqNeg(q.z);
  }

  /** Scaling by `s` scales the squared magnitude by `s²`. */
  lemma NormSqScale(q: Quat, s: real)
    ensures NormSq(Scale(q, s)) == Sq(s) * NormSq(q)
  {
    SqMul(q.w, s);
    SqMul(q.x, s);
    SqMul(q.y, s);
    SqMul(q.z, s);
  }

  /** `magnitude` has at most one value. */
  lemma MagnitudeUnique(q: Quat, m1: real, m2: real)
    requires IsMagnitude(q, m1) && IsMagnitude(q, m2)
    ensures m1 == m2
  {
    SqInjective(m1, m2);
  }

  /** `magnitude` is zero exactly on the zero quaternion. */
  lemma MagnitudeZeroIff(q: Quat, m: real)
    requires IsMagnitude(q, m)
    ensures m == 0.0 <==> q == Zero
  {
    NormSqZeroIff(q);
    if m != 0.0 {
      SqPos(m);
    }
  }

  /** `magnitude` is positive on every other quaternion. */
  lemma MagnitudePos(q: Quat, m: real)
    requires IsMagnitude(q, m) && q != Zero
    ensures m > 0.0
  {
    MagnitudeZeroIff(q, m);
  }

  /** The magnitude of a product is the product of the magnitudes. */
  lemma MagnitudeOfProduct(a: Quat, b: Quat, ma: real, mb: real)
    requires IsMagnitude(a, ma) && IsMagnitude(b, mb)
    ensures IsMagnitude(Mul(a, b), ma * mb)
  {
    NormSqMultiplicative(a, b);
    SqMul(ma, mb);
    ProductNonneg(ma, mb);
  }

  lemma ProductNonneg(a: real, b: real)
    requires a >= 0.0 && b >= 0.0
    ensures a * b >= 0.0
  {}

  /** The units `1, i, j, k` have magnitude 1. */
  lemma UnitsHaveMagnitudeOne()
    ensures IsMagnitude(One, 1.0) && IsMagnitude(I, 1.0) && IsMagnitude(J, 1.0) && IsMagnitude(K, 1.0)
  {}
}
