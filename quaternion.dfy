/**
 * The `Quaternion` value type: four real components `w + xi + yj + zk`,
 * with `w` the scalar part and `(x, y, z)` the vector part `v`.  Every
 * operation builds a new value; nothing is updated in place.
 */
module Quaternions {
  import opened RealArith

  /** The vector part `v`, a 3-tuple of reals. */
  type Vec3 = (real, real, real)

  datatype Quat = Quat(w: real, x: real, y: real, z: real)
  {
    /** The vector part as the source stores it, `self.v`. */
    function V(): Vec3 { (x, y, z) }
  }

  /** The exceptions the operations can raise. */
  datatype Error = TypeError | ZeroDivisionError

  datatype Result<T> = Success(value: T) | Failure(error: Error)

  datatype Option<T> = None | Some(value: T)

  /** The three kinds of right operand `*` distinguishes at run time. */
  datatype Operand = QuatOperand(q: Quat) | ScalarOperand(s: real) | OtherOperand

  /** The component-form constructor `Quaternion(w, v)`. */
  function FromParts(w: real, v: Vec3): (q: Quat)
    ensures q.w == w && q.V() == v
  {
    Quat(w, v.0, v.1, v.2)
  }

  const Zero := Quat(0.0, 0.0, 0.0, 0.0)
  const One := Quat(1.0, 0.0, 0.0, 0.0)
  const I := Quat(0.0, 1.0, 0.0, 0.0)
  const J := Quat(0.0, 0.0, 1.0, 0.0)
  const K := Quat(0.0, 0.0, 0.0, 1.0)

  /** `a + b`: componentwise over all four components. */
  function Add(a: Quat, b: Quat): (r: Quat)
    ensures r.w - b.w == a.w && r.x - b.x == a.x && r.y - b.y == a.y && r.z - b.z == a.z
  {
    Quat(a.w + b.w, a.x + b.x, a.y + b.y, a.z + b.z)
  }

  /** `a - b`: componentwise over all four components. */
  function Sub(a: Quat, b: Quat): (r: Quat)
    ensures r.w + b.w == a.w && r.x + b.x == a.x && r.y + b.y == a.y && r.z + b.z == a.z
  {
    Quat(a.w - b.w, a.x - b.x, a.y - b.y, a.z - b.z)
  }

  // The four components of the Hamilton product `a * b`, written over the
  // components of `a` (aw, ax, ay, az) and of `b` (bw, bx, bY, bz); the
  // second factor's `y` is `bY` because `by` is a keyword.

  function ProdW(aw: real, ax: real, ay: real, az: real, bw: real, bx: real, bY: real, bz: real): real
  {
    aw * bw - ax * bx - ay * bY - az * bz
  }

  function ProdX(aw: real, ax: real, ay: real, az: real, bw: real, bx: real, bY: real, bz: real): real
  {
    aw * bx + ax * bw + ay * bz - az * bY
  }

  function ProdY(aw: real, ax: real, ay: real, az: real, bw: real, bx: real, bY: real, bz: real): real
  {
    aw * bY + ay * bw + az * bx - ax * bz
  }

  function ProdZ(aw: real, ax: real, ay: real, az: real, bw: real, bx: real, bY: real, bz: real): real
  {
    aw * bz + az * bw + ax * bY - ay * bx
  }

  /** `a * b` for a quaternion `b`: the Hamilton product. */
  function Mul(a: Quat, b: Quat): (r: Quat)
    ensures a == One ==> r == b
    ensures b == One ==> r == a
  {
    Quat(ProdW(a.w, a.x, a.y, a.z, b.w, b.x, b.y, b.z),
         ProdX(a.w, a.x, a.y, a.z, b.w, b.x, b.y, b.z),
         ProdY(a.w, a.x, a.y, a.z, b.w, b.x, b.y, b.z),
         ProdZ(a.w, a.x, a.y, a.z, b.w, b.x, b.y, b.z))
  }

  /** `q * s` for a scalar `s`: every component times `s`. */
  function Scale(q: Quat, s: real): (r: Quat)
    ensures r == Mul(q, Quat(s, 0.0, 0.0, 0.0)) && r == Mul(Quat(s, 0.0, 0.0, 0.0), q)
  {
    Quat(q.w * s, q.x * s, q.y * s, q.z * s)
  }

  /** `q * other`, dispatching on the run-time kind of `other`. */
  function Multiply(q: Quat, other: Operand): (r: Result<Quat>)
    ensures r.Failure? <==> other.OtherOperand?
    ensures r.Failure? ==> r.error == TypeError
  {
    match other
    case QuatOperand(b) => Success(Mul(q, b))
    case ScalarOperand(s) => Success(Scale(q, s))
    case OtherOperand => Failure(TypeError)
  }

  /**
   * `other * q` when `other` does not know how to multiply by a quaternion:
   * a scalar delegates to `q * other`; anything else falls off the end of
   * the method and yields `None`.
   */
  function RMultiply(q: Quat, other: Operand): (r: Option<Quat>)
    ensures r.Some? <==> other.ScalarOperand?
  {
    if other.ScalarOperand? then
      match Multiply(q, other)
      case Success(r) => Some(r)
      case Failure(_) => None
    else None
  }

  /** `-q`: all four components negated, the scalar part included. */
  function Neg(q: Quat): (r: Quat)
    ensures Add(q, r) == Zero
  {
    Quat(-q.w, -q.x, -q.y, -q.z)
  }

  /** The conjugate: the vector part negated, the scalar part kept. */
  function Conjugate(q: Quat): (r: Quat)
    ensures Add(q, r) == Quat(2.0 * q.w, 0.0, 0.0, 0.0)
    ensures Sub(q, r) == Quat(0.0, 2.0 * q.x, 2.0 * q.y, 2.0 * q.z)
  {
    Quat(q.w, -q.x, -q.y, -q.z)
  }

  /** Sum of the four componentwise products. */
  function Dot(a: Quat, b: Quat): (r: real)
    ensures a == b ==> r == NormSq(a)
  {
    a.w * b.w + a.x * b.x + a.y * b.y + a.z * b.z
  }

  /** The radicand of `magnitude`: the sum of the squared components. */
  function NormSq(q: Quat): (r: real)
    ensures r >= 0.0
  {
    SqNonneg(q.w); SqNonneg(q.x); SqNonneg(q.y); SqNonneg(q.z);
    Sq(q.w) + Sq(q.x) + Sq(q.y) + Sq(q.z)
  }

  /**
   * `m` is what `magnitude` returns for `q`: the non-negative square root of
   * the sum of the squared components.
   */
  predicate IsMagnitude(q: Quat, m: real)
    ensures IsMagnitude(q, m) ==> (m == 0.0 <==> NormSq(q) == 0.0)
  {
    SqZeroIff(m);
    m >= 0.0 && Sq(m) == NormSq(q)
  }

  /** The squared Euclidean length of a point. */
  function SqLength(v: Vec3): real
  {
    Sq(v.0) + Sq(v.1) + Sq(v.2)
  }

  /** Every component divided by `d`. */
  function Div(q: Quat, d: real): (r: Quat)
    requires d != 0.0
    ensures Scale(r, d) == q
  {
    Quat(q.w / d, q.x / d, q.y / d, q.z / d)
  }

  /**
   * `~q`: the conjugate divided componentwise by the squared magnitude;
   * a zero divisor raises `ZeroDivisionError`.
   */
  function Inverse(q: Quat): (r: Result<Quat>)
    ensures r.Failure? ==> r.error == ZeroDivisionError
    ensures r.Success? ==> Scale(r.value, NormSq(q)) == Conjugate(q)
  {
    var n := NormSq(q);
    if n == 0.0 then Failure(ZeroDivisionError)
    else Success(Div(Conjugate(q), n))
  }

  /** `a.difference(b)`, that is `a * ~b`. */
  function Difference(a: Quat, b: Quat): (r: Result<Quat>)
    ensures r.Success? <==> Inverse(b).Success?
    ensures r.Failure? ==> r.error == ZeroDivisionError
  {
    match Inverse(b)
    case Failure(e) => Failure(e)
    case Success(inv) => Success(Mul(a, inv))
  }

  /** `q.transform(pt)`: the vector part of `q * Quaternion(0, pt) * ~q`. */
  function Transform(q: Quat, pt: Vec3): (r: Result<Vec3>)
    ensures r.Success? <==> Inverse(q).Success?
    ensures r.Failure? ==> r.error == ZeroDivisionError
  {
    var qp := Mul(q, FromParts(0.0, pt));
    match Inverse(q)
    case Failure(e) => Failure(e)
    case Success(inv) => Success(Mul(qp, inv).V())
  }

  /**
   * `q.normalize()`, given the value `mag` that `magnitude` returns for `q`:
   * every component divided by `mag`.
   */
  function Normalize(q: Quat, mag: real): (r: Result<Quat>)
    requires IsMagnitude(q, mag)
    ensures r.Failure? ==> r.error == ZeroDivisionError
    ensures r.Success? ==> Scale(r.value, mag) == q
  {
    if mag == 0.0 then Failure(ZeroDivisionError)
    else Success(Div(q, mag))
  }

  /** Python's `abs` on a real. */
  function Abs(c: real): (r: real)
    ensures r >= 0.0 && (r == c || r == -c)
  {
    if c < 0.0 then -c else c
  }

  /** The sign shown before a vector component: `"+ "` unless it is negative. */
  function SignPrefix(c: real): (r: string)
    ensures |r| == 2 && (r[0] == '+' || r[0] == '-') && r[1] == ' '
  {
    if c >= 0.0 then "+ " else "- "
  }

  /** One vector term of the rendering: sign, magnitude, unit letter. */
  function Term(c: real, unit: char, render: real -> string): (r: string)
    ensures |r| >= 3 && r[..2] == SignPrefix(c) && r[|r| - 1] == unit
  {
    SignPrefix(c) + render(Abs(c)) + [unit]
  }

  /**
   * `str(q)` as `w ± |x|i ± |y|j ± |z|k`; `render` stands for the way a
   * single number is printed.
   */
  function Str(q: Quat, render: real -> string): (r: string)
    ensures |r| > |render(q.w)| && r[..|render(q.w)|] == render(q.w) && r[|r| - 1] == 'k'
  {
    render(q.w) + " " + Term(q.x, 'i', render) + " " + Term(q.y, 'j', render)
    + " " + Term(q.z, 'k', render)
  }
}
