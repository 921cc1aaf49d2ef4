/** `~q` and the operations built on it: `difference` and `transform`; and `normalize`. */
module QuaternionInverse {
  import opened RealArith
  import opened Quaternions
  import opened QuaternionAlgebra
  import opened QuaternionNorms

  /** Componentwise division by `d` is scaling by `1 / d`. */
  lemma DivIsScale(q: Quat, d: real)
    requires d != 0.0
    ensures Div(q, d) == Scale(q, 1.0 / d)
  {
    DivIsMulRecip(q.w, d);
    DivIsMulRecip(q.x, d);
    DivIsMulRecip(q.y, d);
    DivIsMulRecip(q.z, d);
  }

  /** Scaling the real quaternion `(d, 0, 0, 0)` by `1 / d` gives `1`. */
  lemma ScaleRealByRecip(d: real)
    requires d != 0.0
    ensures Scale(Quat(d, 0.0, 0.0, 0.0), 1.0 / d) == One
  {
    MulRecip(d);
  }

  // ---------- inverse ----------

  /** `~q` raises `ZeroDivisionError` exactly for the zero quaternion. */
  lemma InverseFailsIffZero(q: Quat)
    ensures Inverse(q).Failure? <==> q == Zero
    ensures Inverse(q).Failure? ==> Inverse(q).error == ZeroDivisionError
  {
    NormSqZeroIff(q);
    InverseFailsIffNormSqZero(q);
  }

  lemma InverseFailsIffNormSqZero(q: Quat)
    ensures Inverse(q).Failure? <==> NormSq(q) == 0.0
    ensures Inverse(q).Failure? ==> Inverse(q).error == ZeroDivisionError
  {}

  /** Over the reals the source's divisor `magnitude ** 2` is the squared magnitude itself. */
  lemma InverseViaMagnitude(q: Quat, mag: real)
    requires IsMagnitude(q, mag)
    ensures mag == 0.0 ==> Inverse(q) == Failure(ZeroDivisionError)
    ensures mag != 0.0 ==> Sq(mag) > 0.0 && Inverse(q) == Success(Div(Conjugate(q), Sq(mag)))
  {
    MagnitudeZeroIff(q, mag);
    NormSqZeroIff(q);
    if mag != 0.0 {
      SqPos(mag);
    }
  }

  /** `~q` is a two-sided inverse: `q * ~q == ~q * q == 1`. */
  lemma InverseIsTwoSided(q: Quat)
    requires q != Zero
    ensures Inverse(q).Success?
    ensures Mul(q, Inverse(q).value) == One
    ensures Mul(Inverse(q).value, q) == One
  {
    var n := NormSq(q);
    NormSqPos(q);
    var c := Conjugate(q);
    DivIsScale(c, n);
    MulScale(q, c, 1.0 / n);
    MulConjugate(q);
    ScaleRealByRecip(n);
  }

  lemma MulZero(q: Quat)
    ensures Mul(Zero, q) == Zero && Mul(q, Zero) == Zero
  {}

  /** `r` is the value of `~q` exactly when `q * r == 1`. */
  lemma InverseUniqueRight(q: Quat, r: Quat)
    ensures Inverse(q) == Success(r) <==> Mul(q, r) == One
  {
    if Mul(q, r) == One {
      if q == Zero {
        MulZero(r);
        assert false;
      }
      InverseIsTwoSided(q);
      var inv := Inverse(q).value;
      MulAssociative(inv, q, r);
      MulOne(r);
      MulOne(inv);
    }
    if Inverse(q) == Success(r) {
      InverseFailsIffZero(q);
      InverseIsTwoSided(q);
    }
  }

  /** `r` is the value of `~q` exactly when `r * q == 1`. */
  lemma InverseUniqueLeft(q: Quat, r: Quat)
    ensures Inverse(q) == Success(r) <==> Mul(r, q) == One
  {
    if Mul(r, q) == One {
      if q == Zero {
        MulZero(r);
        assert false;
      }
      InverseIsTwoSided(q);
      var inv := Inverse(q).value;
      MulAssociative(r, q, inv);
      MulOne(r);
      MulOne(inv);
    }
    if Inverse(q) == Success(r) {
      InverseFailsIffZero(q);
      InverseIsTwoSided(q);
    }
  }

  /** Inverting twice gives back the original quaternion. */
  lemma InverseInvolution(q: Quat)
    requires q != Zero
    ensures Inverse(q).Success? && Inverse(Inverse(q).value) == Success(q)
  {
    InverseIsTwoSided(q);
    InverseUniqueRight(Inverse(q).value, q);
  }

  /** For a unit quaternion the inverse is the conjugate. */
  lemma UnitInverseIsConjugate(q: Quat)
    requires NormSq(q) == 1.0
    ensures Inverse(q) == Success(Conjugate(q))
  {}

  /** The inverse of a product is the product of the inverses in reverse order. */
  lemma InverseOfProduct(a: Quat, b: Quat)
    requires a != Zero && b != Zero
    ensures Inverse(a).Success? && Inverse(b).Success?
    ensures Inverse(Mul(a, b)) == Success(Mul(Inverse(b).value, Inverse(a).value))
  {
    InverseIsTwoSided(a);
    InverseIsTwoSided(b);
    var ia, ib := Inverse(a).value, Inverse(b).value;
    MulAssociative(a, b, Mul(ib, ia));
    MulAssociative(b, ib, ia);
    MulOne(ia);
    InverseUniqueRight(Mul(a, b), Mul(ib, ia));
  }

  // ---------- difference ----------

  /** `a.difference(b)` raises `ZeroDivisionError` exactly when `b` is zero. */
  lemma DifferenceFailsIffZero(a: Quat, b: Quat)
    ensures Difference(a, b).Failure? <==> b == Zero
    ensures Difference(a, b).Failure? ==> Difference(a, b).error == ZeroDivisionError
  {
    InverseFailsIffZero(b);
  }

  /** `a / b` is the one quaternion that gives `a` when multiplied by `b` on the right. */
  lemma DifferenceIsRightQuotient(a: Quat, b: Quat, d: Quat)
    ensures Difference(a, b) == Success(d) <==> b != Zero && Mul(d, b) == a
  {
    if b != Zero {
      InverseIsTwoSided(b);
      var inv := Inverse(b).value;
      if Difference(a, b) == Success(d) {
        MulAssociative(a, inv, b);
        MulOne(a);
      }
      if Mul(d, b) == a {
        MulAssociative(d, b, inv);
        MulOne(d);
      }
    } else {
      InverseFailsIffZero(b);
    }
  }

  // ---------- transform ----------

  /** `q.transform(pt)` raises `ZeroDivisionError` exactly when `q` is zero. */
  lemma TransformFailsIffZero(q: Quat, pt: Vec3)
    ensures Transform(q, pt).Failure? <==> q == Zero
    ensures Transform(q, pt).Failure? ==> Transform(q, pt).error == ZeroDivisionError
  {
    InverseFailsIffZero(q);
  }

  /**
   * Over plain reals: the scalar part of `t * conj(q)` is zero when `t` is
   * `q` times a pure quaternion `(0, px, py, pz)`.
   */
  lemma PureSandwichScalar(qw: real, qx: real, qy: real, qz: real, px: real, py: real, pz: real,
                           tw: real, tx: real, ty: real, tz: real)
    requires ProductIs(qw, qx, qy, qz, 0.0, px, py, pz, tw, tx, ty, tz)
    ensures ProdW(tw, tx, ty, tz, qw, -qx, -qy, -qz) == 0.0
  {}

  /** `q * p * conj(q)` has zero scalar part for every pure `p`. */
  lemma SandwichIsPure(q: Quat, pt: Vec3)
    ensures Mul(Mul(q, FromParts(0.0, pt)), Conjugate(q)).w == 0.0
  {
    var t := Mul(q, FromParts(0.0, pt));
    PureSandwichScalar(q.w, q.x, q.y, q.z, pt.0, pt.1, pt.2, t.w, t.x, t.y, t.z);
  }

  /**
   * The scalar part that `transform` drops is always zero: the full product
   * `q * (0, pt) * ~q` is the pure quaternion with the returned vector part.
   */
  lemma TransformDropsZeroScalar(q: Quat, pt: Vec3)
    requires q != Zero
    ensures Inverse(q).Success? && Transform(q, pt).Success?
    ensures Mul(Mul(q, FromParts(0.0, pt)), Inverse(q).value) == FromParts(0.0, Transform(q, pt).value)
  {
    InverseIsTwoSided(q);
    var n := NormSq(q);
    NormSqPos(q);
    var t := Mul(q, FromParts(0.0, pt));
    DivIsScale(Conjugate(q), n);
    MulScale(t, Conjugate(q), 1.0 / n);
    SandwichIsPure(q, pt);
  }

  /** Over plain reals: `n * np * (k² * n) == np` when `n * k == 1`. */
  lemma NormsCancel(n: real, k: real, sk: real, np: real, nt: real, ni: real, nr: real)
    requires n * k == 1.0 && sk == k * k
    requires nt == n * np && ni == sk * n && nr == nt * ni
    ensures nr == np
  {}

  /** `transform` keeps the length of the point: it is a rotation, possibly with scaling undone. */
  lemma TransformPreservesLength(q: Quat, pt: Vec3)
    requires q != Zero
    ensures Transform(q, pt).Success?
    ensures SqLength(Transform(q, pt).value) == SqLength(pt)
  {
    TransformDropsZeroScalar(q, pt);
    var n := NormSq(q);
    NormSqPos(q);
    var p := FromParts(0.0, pt);
    var t := Mul(q, p);
    var c := Conjugate(q);
    var k := 1.0 / n;
    DivIsScale(c, n);
    var inv := Scale(c, k);
    NormSqMultiplicative(q, p);
    NormSqMultiplicative(t, inv);
    NormSqScale(c, k);
    NormSqNegConjugate(q);
    MulRecip(n);
    NormsCancel(n, k, Sq(k), NormSq(p), NormSq(t), NormSq(inv), NormSq(Mul(t, inv)));
  }

  /** The identity quaternion leaves every point where it is. */
  lemma TransformByOne(pt: Vec3)
    ensures Transform(One, pt) == Success(pt)
  {
    assert NormSq(One) == 1.0;
    UnitInverseIsConjugate(One);
    MulOne(FromParts(0.0, pt));
  }

  /** The inverse of the unit `i` is `-i`. */
  lemma InverseOfI()
    ensures Inverse(I) == Success(Neg(I))
  {
    assert NormSq(I) == 1.0;
    UnitInverseIsConjugate(I);
  }

  /** Transforming by `i` is the sandwich `i * p * -i`. */
  lemma TransformByI(pt: Vec3)
    ensures Transform(I, pt) == Success(Mul(Mul(I, FromParts(0.0, pt)), Neg(I)).V())
  {
    InverseOfI();
  }

  lemma IKI()
    ensures Mul(Mul(I, K), Neg(I)) == Neg(K)
  {
    assert Mul(I, K) == Neg(J);
  }

  lemma III()
    ensures Mul(Mul(I, I), Neg(I)) == I
  {
    assert Mul(I, I) == Neg(One);
  }

  /** `i`, the rotation by 180 degrees about the x axis, sends `(0, 0, 1)` to `(0, 0, -1)`. */
  lemma TransformHalfTurnAboutX()
    ensures Transform(I, (0.0, 0.0, 1.0)) == Success((0.0, 0.0, -1.0))
  {
    TransformByI((0.0, 0.0, 1.0));
    assert FromParts(0.0, (0.0, 0.0, 1.0)) == K;
    IKI();
  }

  /** The same half turn leaves the points of the x axis fixed. */
  lemma TransformHalfTurnFixesAxis()
    ensures Transform(I, (1.0, 0.0, 0.0)) == Success((1.0, 0.0, 0.0))
  {
    TransformByI((1.0, 0.0, 0.0));
    assert FromParts(0.0, (1.0, 0.0, 0.0)) == I;
    III();
  }

  /** For a unit quaternion, `transform` is the sandwich `q * p * conj(q)`. */
  lemma TransformByUnit(q: Quat, pt: Vec3)
    requires NormSq(q) == 1.0
    ensures Transform(q, pt) == Success(Mul(Mul(q, FromParts(0.0, pt)), Conjugate(q)).V())
  {
    UnitInverseIsConjugate(q);
  }

  // ---------- normalize ----------

  /** `normalize` raises `ZeroDivisionError` exactly for the zero quaternion. */
  lemma NormalizeFailsIffZero(q: Quat, mag: real)
    requires IsMagnitude(q, mag)
    ensures Normalize(q, mag).Failure? <==> q == Zero
    ensures Normalize(q, mag).Failure? ==> Normalize(q, mag).error == ZeroDivisionError
  {
    MagnitudeZeroIff(q, mag);
    NormalizeFailsIffMagnitudeZero(q, mag);
  }

  lemma NormalizeFailsIffMagnitudeZero(q: Quat, mag: real)
    requires IsMagnitude(q, mag)
    ensures Normalize(q, mag).Failure? <==> mag == 0.0
    ensures Normalize(q, mag).Failure? ==> Normalize(q, mag).error == ZeroDivisionError
  {}

  /** `normalize` yields a unit quaternion. */
  lemma NormalizeIsUnit(q: Quat, mag: real)
    requires IsMagnitude(q, mag) && q != Zero
    ensures Normalize(q, mag).Success?
    ensures NormSq(Normalize(q, mag).value) == 1.0 && IsMagnitude(Normalize(q, mag).value, 1.0)
  {
    MagnitudeZeroIff(q, mag);
    var k := 1.0 / mag;
    DivIsScale(q, mag);
    NormSqScale(q, k);
    SqMul(k, mag);
    MulRecip(mag);
    RecipCommutes(mag, k);
  }

  lemma RecipCommutes(d: real, k: real)
    requires d * k == 1.0
    ensures k * d == 1.0
  {}

  /** Scaling the normalized quaternion back by the magnitude gives the original. */
  lemma NormalizeRoundTrip(q: Quat, mag: real)
    requires IsMagnitude(q, mag) && q != Zero
    ensures Normalize(q, mag).Success? && Scale(Normalize(q, mag).value, mag) == q
  {
    MagnitudeZeroIff(q, mag);
    DivTimes(q.w, mag);
    DivTimes(q.x, mag);
    DivTimes(q.y, mag);
    DivTimes(q.z, mag);
  }

  lemma DivTimes(a: real, d: real)
    requires d != 0.0
    ensures a / d * d == a
  {}

  /** A quaternion that already has magnitude 1 is left unchanged. */
  lemma NormalizeUnitIsIdentity(q: Quat)
    requires NormSq(q) == 1.0
    ensures IsMagnitude(q, 1.0) && Normalize(q, 1.0) == Success(q)
  {}
}
