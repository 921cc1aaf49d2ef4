/**
 * `~q` as the source writes it.  Line 75 of src/quaternion.py calls
 * `self.conjugate(self)`, but `conjugate` takes no argument besides `self`,
 * so the call raises `TypeError` before any division happens, and with it
 * every `difference` and `transform`.  The intended `~q` is
 * `Quaternions.Inverse`, which the rest of the model uses.
 */
module InvertAsWritten {
  import opened Quaternions
  import opened QuaternionInverse

  /**
   * The bound call `q.conjugate(extra...)`: the method takes `self` only, so
   * any further positional argument is a `TypeError`.
   */
  function CallConjugate(q: Quat, extra: seq<Quat>): (r: Result<Quat>)
    ensures r.Success? <==> extra == []
    ensures r.Failure? ==> r.error == TypeError
  {
    if |extra| == 0 then Success(Conjugate(q)) else Failure(TypeError)
  }

  /** The last step of `~q`: every component of `conj` divided by `n`, the squared magnitude. */
  function DivideConjugate(conj: Quat, n: real): (r: Result<Quat>)
    ensures r.Failure? ==> r.error == ZeroDivisionError
    ensures r.Success? ==> Scale(r.value, n) == conj
  {
    if n == 0.0 then Failure(ZeroDivisionError) else Success(Div(conj, n))
  }

  /** `~q` with the call `self.conjugate(self)` as written. */
  function InvertAsWritten(q: Quat): (r: Result<Quat>)
    ensures r.Failure?
  {
    match CallConjugate(q, [q])
    case Failure(e) => Failure(e)
    case Success(conj) => DivideConjugate(conj, NormSq(q))
  }

  /** `~q` with the call corrected to `self.conjugate()`. */
  function InvertCorrected(q: Quat): (r: Result<Quat>)
    ensures r.Failure? ==> r.error == ZeroDivisionError
    ensures r.Success? ==> Scale(r.value, NormSq(q)) == Conjugate(q)
  {
    match CallConjugate(q, [])
    case Failure(e) => Failure(e)
    case Success(conj) => DivideConjugate(conj, NormSq(q))
  }

  /** `a.difference(b)` on top of the written `~b`. */
  function DifferenceAsWritten(a: Quat, b: Quat): (r: Result<Quat>)
    ensures r.Failure? <==> InvertAsWritten(b).Failure?
  {
    match InvertAsWritten(b)
    case Failure(e) => Failure(e)
    case Success(inv) => Success(Mul(a, inv))
  }

  /** `q.transform(pt)` on top of the written `~q`. */
  function TransformAsWritten(q: Quat, pt: Vec3): (r: Result<Vec3>)
    ensures r.Failure? <==> InvertAsWritten(q).Failure?
  {
    var qp := Mul(q, FromParts(0.0, pt));
    match InvertAsWritten(q)
    case Failure(e) => Failure(e)
    case Success(inv) => Success(Mul(qp, inv).V())
  }

  /** `conjugate` succeeds exactly when called with no argument besides `self`. */
  lemma CallConjugateArity(q: Quat, extra: seq<Quat>)
    ensures CallConjugate(q, extra).Success? <==> extra == []
    ensures CallConjugate(q, extra).Success? ==> CallConjugate(q, extra).value == Conjugate(q)
    ensures CallConjugate(q, extra).Failure? ==> CallConjugate(q, extra).error == TypeError
  {}

  /** The written `~q` raises `TypeError` for every quaternion, the zero quaternion included. */
  lemma InvertAsWrittenAlwaysFails(q: Quat)
    ensures InvertAsWritten(q) == Failure(TypeError)
  {}

  /** ... so it disagrees with the intended inverse on every invertible quaternion; `~1` is an instance. */
  lemma InvertAsWrittenDisagrees(q: Quat)
    requires q != Zero
    ensures Inverse(q).Success? && InvertAsWritten(q) != Inverse(q)
  {
    InverseFailsIffZero(q);
  }

  /** With the call corrected, the operation is exactly the intended inverse. */
  lemma InvertCorrectedIsInverse(q: Quat)
    ensures InvertCorrected(q) == Inverse(q)
  {}

  /** Every `difference` and every `transform` fails as written. */
  lemma DependentsAlwaysFail(a: Quat, b: Quat, pt: Vec3)
    ensures DifferenceAsWritten(a, b) == Failure(TypeError)
    ensures TransformAsWritten(a, pt) == Failure(TypeError)
  {
    InvertAsWrittenAlwaysFails(b);
    InvertAsWrittenAlwaysFails(a);
  }
}

/**
 * Reflected `*` as the source writes it.  `__rmul__` handles numbers and
 * has no other branch, so for any other left operand it returns `None`,
 * and Python takes that `None` as the value of `other * q`; `__mul__`
 * instead raises `TypeError` for operands it cannot handle.
 */
module ReflectedMultiply {
  import opened Quaternions

  /** Reflected `*` raising `TypeError`, as `__mul__` does, for every non-number. */
  function RMultiplyChecked(q: Quat, other: Operand): (r: Result<Quat>)
    ensures r.Success? <==> other.ScalarOperand?
    ensures r.Failure? ==> r.error == TypeError
  {
    if other.ScalarOperand? then Success(Scale(q, other.s)) else Failure(TypeError)
  }

  /** As written, a left operand that is not a number yields the value `None` and no error. */
  lemma RMultiplyAsWrittenIsSilent(q: Quat)
    ensures RMultiply(q, OtherOperand) == None
    ensures Multiply(q, OtherOperand) == Failure(TypeError)
  {}

  /** The checked version fails exactly on non-numbers and otherwise agrees with the written one. */
  lemma RMultiplyCheckedSpec(q: Quat, other: Operand)
    ensures RMultiplyChecked(q, other).Failure? <==> !other.ScalarOperand?
    ensures RMultiplyChecked(q, other).Failure? ==> RMultiplyChecked(q, other).error == TypeError
    ensures other.ScalarOperand? ==> RMultiply(q, other) == Some(RMultiplyChecked(q, other).value)
  {}
}
