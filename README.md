# Quaternion value type, modelled in Dafny

This project models the `Quaternion` class of the Quaternion Calculator (`src/quaternion.py`). A quaternion is an immutable four-component number `w + xi + yj + zk`. `w` is the scalar part and `v = (x, y, z)` the vector part. Every operation returns a new quaternion, a scalar or a 3-tuple. The model is therefore a `datatype Quat(w, x, y, z)` over Dafny's exact `real`, with the operations written as functions and their properties proved as lemmas.

Modules:

- `Quaternions` (`quaternion.dfy`) holds the data and the operations:
  - construction from `w` and `v` (`FromParts`);
  - `+` and `-` (`Add`, `Sub`);
  - the Hamilton product (`Mul`, whose four components are `ProdW` to `ProdZ`) and scalar multiplication (`Scale`);
  - `*` and its reflected form, dispatching on the operand kind (`Multiply`, `RMultiply`);
  - unary `-` (`Neg`), `conjugate`, `dot` and the squared magnitude (`NormSq`);
  - `magnitude` (as the relation `IsMagnitude`), `~` (`Inverse`), `difference`, `transform` and `normalize`;
  - the sign structure of `str` (`Str`).
- `RealArith` holds facts about real squares that the proofs rest on.
- `QuaternionAlgebra` holds the ring laws of `+`, `-`, `*` and conjugation.
- `QuaternionNorms` covers `dot`, the squared magnitude and `magnitude`.
- `QuaternionInverse` covers `~`, `difference`, `transform` and `normalize`.
- `QuaternionText` covers `str`.
- `InvertAsWritten` and `ReflectedMultiply` hold the two findings below.

How the model treats the source's runtime features:

- **Errors.** The operations that can raise return a `Result`:
  - `TypeError` when `*` gets an operand that is neither a quaternion nor a number;
  - `ZeroDivisionError` when `~`, `difference`, `transform` or `normalize` would divide by zero (for the first three with line 75 corrected; as written they raise `TypeError`, see Findings).

  The reflected `*` returns an `Option`, because the source returns `None` for non-numbers. The errors are Python's own, `TypeError` and `ZeroDivisionError`, and the latter is raised only at an exact zero divisor.
- **Square root.** `magnitude` calls `math.sqrt`, which Dafny cannot define without axioms. It is modelled as the relation `IsMagnitude(q, m)`: `m >= 0` and `m * m` is the sum of the squared components. `Normalize` receives that value as a parameter, as the source receives it from `self.magnitude()`.
- **The divisor of `~`.** `~` divides by `magnitude() ** 2`. Over the reals that is exactly the squared magnitude, and `InverseViaMagnitude` proves the two forms agree.
- **Operator dispatch.** The run-time type test in `*` is the datatype `Operand`: `QuatOperand`, `ScalarOperand` or `OtherOperand`.

The demo driver `src/main.py` is not part of this model. It prints `-q` under the heading "Conjugate", but `__neg__` negates all four components. `Neg` and `Conjugate` are kept apart, and `NegVsConjugate` states exactly when they coincide.

## Model

| member | source | states |
|---|---|---|
| Quaternions.FromParts | src/quaternion.py:17-19 | the constructed quaternion has scalar part `w` and vector part `v` |
| Quaternions.Neg | src/quaternion.py:64-68 | `q + (-q)` is the zero quaternion, the scalar part included |
| Quaternions.Conjugate | src/quaternion.py:78-82 | `q + conj(q)` is `2w` with zero vector part; `q - conj(q)` is `2v` with zero scalar part |
| Quaternions.Add | src/quaternion.py:30-34 | the componentwise sum: subtracting `b` from each component of the result gives back `a` |
| Quaternions.Sub | src/quaternion.py:36-40 | the componentwise difference: adding `b` back to each component of the result gives `a` |
| Quaternions.Mul | src/quaternion.py:46-51 | the Hamilton product, whose components `ProdW` to `ProdZ` are the four formulas of lines 47-50; `1` is an identity on either side |
| Quaternions.Scale | src/quaternion.py:52-53 | every component times `s`, which equals the Hamilton product with the real quaternion `(s, 0, 0, 0)` on either side |
| Quaternions.Multiply | src/quaternion.py:42-55 | `*` dispatching on the operand: a product for a quaternion, a scaling for a number, and a failure exactly for any other operand, always `TypeError` |
| Quaternions.RMultiply | src/quaternion.py:57-62 | reflected `*`: a value exactly when the left operand is a number |
| Quaternions.Dot | src/quaternion.py:104-109 | the sum of the four componentwise products; a quaternion dotted with itself gives its squared magnitude |
| Quaternions.NormSq | src/quaternion.py:95 | the sum of the four squared components under the square root of `magnitude`, never negative |
| Quaternions.IsMagnitude | src/quaternion.py:91-95 | `m` is the non-negative square root of that sum; such an `m` is zero exactly when the sum is zero |
| Quaternions.Div | src/quaternion.py:97-102 | every component divided by a non-zero `d`; scaling the result by `d` gives back the original |
| Quaternions.Inverse | src/quaternion.py:70-76 | `~q` with line 75 read as `self.conjugate()`: when it succeeds, scaling the result by the squared magnitude gives the conjugate; its only error is `ZeroDivisionError` |
| Quaternions.Difference | src/quaternion.py:84-89 | `a * ~b`: succeeds exactly when `~b` does, and otherwise raises `ZeroDivisionError` |
| Quaternions.Transform | src/quaternion.py:111-116 | the vector part of `q * (0, pt) * ~q`: succeeds exactly when `~q` does, and otherwise raises `ZeroDivisionError` |
| Quaternions.Normalize | src/quaternion.py:97-102 | every component divided by the magnitude: when it succeeds, scaling by the magnitude gives `q` back; its only error is `ZeroDivisionError` |
| Quaternions.Abs | src/quaternion.py:27 | Python's `abs`: a non-negative value equal to `c` or to `-c` |
| Quaternions.SignPrefix | src/quaternion.py:27 | the two-character sign before a vector term, `+` or `-` followed by a space |
| Quaternions.Term | src/quaternion.py:27 | one vector term: it starts with the sign prefix of the component and ends with the unit letter |
| Quaternions.Str | src/quaternion.py:21-27 | `str(q)`: it starts with the rendering of `w` and ends with the letter `k` |
| QuaternionAlgebra.AddSubCancel | src/quaternion.py:30-40 | `(a + b) - b == a` and `(a - b) + b == a` |
| QuaternionAlgebra.AddZero | src/quaternion.py:30-34 | the zero quaternion is a two-sided identity for `+` |
| QuaternionAlgebra.SubIsAddNeg | src/quaternion.py:36-40 | `a - b == a + (-b)` |
| QuaternionAlgebra.NegInvolution | src/quaternion.py:64-68 | `-(-q) == q` |
| QuaternionAlgebra.MulOne | src/quaternion.py:46-51 | `1` is a two-sided identity of the Hamilton product |
| QuaternionAlgebra.UnitProducts | src/quaternion.py:46-51 | `i*j = k`, `j*k = i`, `k*i = j` and `i*i = j*j = k*k = -1` |
| QuaternionAlgebra.MulNotCommutative | src/quaternion.py:46-51 | `j*i = -k`, so `i*j != j*i` |
| QuaternionAlgebra.MulAssociative | src/quaternion.py:46-51 | `(a*b)*c == a*(b*c)`: Python evaluates `self * q * ~self` in `transform` as `(self * q) * ~self`, and regrouping the factors would not change the value |
| QuaternionAlgebra.ScaleIsProductWithReal | src/quaternion.py:52-53 | `q * s` equals the Hamilton product of `q` with the real quaternion `(s, 0, 0, 0)`, on either side |
| QuaternionAlgebra.ScaleOne | src/quaternion.py:52-53 | `q * 1 == q` |
| QuaternionAlgebra.MulScale | src/quaternion.py:46-53 | a scalar can be moved out of either factor of a product |
| QuaternionAlgebra.MulConjugate | src/quaternion.py:46-51 | `q * conj(q)` and `conj(q) * q` both equal the real quaternion `(|q|², 0, 0, 0)` |
| QuaternionAlgebra.NormSqMultiplicative | src/quaternion.py:46-51 | `|a*b|² == |a|² * |b|²` (Euler's four-square identity) |
| QuaternionAlgebra.MultiplyTypeError | src/quaternion.py:42-55 | `*` fails exactly for operands that are neither quaternions nor numbers, and the error is `TypeError` |
| QuaternionAlgebra.RMultiplyIsMultiply | src/quaternion.py:57-62 | reflected `*` yields a value exactly for numbers; then `s * q == q * s`, the scaled quaternion |
| QuaternionAlgebra.ConjugateInvolution | src/quaternion.py:78-82 | `conj(conj(q)) == q` |
| QuaternionAlgebra.NegVsConjugate | src/quaternion.py:64-82 | `-q == conj(q)` exactly when `w == 0` |
| QuaternionAlgebra.WorkedValues | src/quaternion.py:30-62 | for `q1 = 1 + 2i + 3j + 4k`: `q1 + q1 = 2 + 4i + 6j + 8k`, `q1 * 3 == 3 * q1 == 3 + 6i + 9j + 12k`; `dot(1, 1) == 1` |
| QuaternionNorms.DotSymmetric | src/quaternion.py:104-109 | `dot(a, b) == dot(b, a)` |
| QuaternionNorms.DotSelfIsNormSq | src/quaternion.py:91-109 | `dot(q, q)` is the sum under the square root of `magnitude` |
| QuaternionNorms.NormSqNonneg | src/quaternion.py:95 | the squared magnitude is never negative |
| QuaternionNorms.NormSqZeroIff | src/quaternion.py:95 | the squared magnitude is zero exactly when all four components are zero |
| QuaternionNorms.NormSqPos | src/quaternion.py:95 | the squared magnitude of a non-zero quaternion is positive |
| QuaternionNorms.NormSqNegConjugate | src/quaternion.py:64-95 | negation and conjugation keep the squared magnitude |
| QuaternionNorms.NormSqScale | src/quaternion.py:52-53 | `|q * s|² == s² * |q|²` |
| QuaternionNorms.MagnitudeUnique | src/quaternion.py:91-95 | `magnitude` has at most one value for each quaternion |
| QuaternionNorms.MagnitudeZeroIff | src/quaternion.py:91-95 | `magnitude(q) == 0` exactly when `q` is the zero quaternion |
| QuaternionNorms.MagnitudePos | src/quaternion.py:91-95 | `magnitude(q) > 0` for every non-zero `q` |
| QuaternionNorms.MagnitudeOfProduct | src/quaternion.py:46-51 | the magnitude of `a*b` is the product of the magnitudes |
| QuaternionNorms.UnitsHaveMagnitudeOne | src/quaternion.py:91-95 | `1`, `i`, `j`, `k` have magnitude 1 |
| QuaternionInverse.InverseFailsIffZero | src/quaternion.py:70-76 | `~q` raises `ZeroDivisionError` exactly for the zero quaternion |
| QuaternionInverse.InverseViaMagnitude | src/quaternion.py:74-76 | `~q` divides the conjugate by `magnitude ** 2`, failing when the magnitude is zero |
| QuaternionInverse.InverseIsTwoSided | src/quaternion.py:70-76 | for non-zero `q`: `q * ~q == ~q * q == 1` |
| QuaternionInverse.InverseUniqueRight | src/quaternion.py:70-76 | `~q == r` exactly when `q * r == 1` |
| QuaternionInverse.InverseUniqueLeft | src/quaternion.py:70-76 | `~q == r` exactly when `r * q == 1` |
| QuaternionInverse.InverseInvolution | src/quaternion.py:70-76 | `~~q == q` for non-zero `q` |
| QuaternionInverse.UnitInverseIsConjugate | src/quaternion.py:70-82 | for a unit quaternion, `~q` is the conjugate |
| QuaternionInverse.InverseOfProduct | src/quaternion.py:46-76 | `~(a*b) == ~b * ~a` for non-zero `a`, `b` |
| QuaternionInverse.InverseOfI | src/quaternion.py:70-76 | `~i == -i` |
| QuaternionInverse.DifferenceFailsIffZero | src/quaternion.py:84-89 | `a.difference(b)` raises `ZeroDivisionError` exactly when `b` is zero |
| QuaternionInverse.DifferenceIsRightQuotient | src/quaternion.py:84-89 | `a.difference(b) == d` exactly when `b` is non-zero and `d * b == a`; so `q1 / q2` undoes right multiplication by `q2` |
| QuaternionInverse.TransformFailsIffZero | src/quaternion.py:111-116 | `q.transform(pt)` raises `ZeroDivisionError` exactly when `q` is zero |
| QuaternionInverse.SandwichIsPure | src/quaternion.py:111-116 | `q * (0, pt) * conj(q)` has zero scalar part |
| QuaternionInverse.TransformDropsZeroScalar | src/quaternion.py:111-116 | the scalar part that `transform` drops is zero: `q * (0, pt) * ~q` is the pure quaternion with the returned vector |
| QuaternionInverse.TransformPreservesLength | src/quaternion.py:111-116 | the transformed point has the same length as `pt`, for every non-zero `q` |
| QuaternionInverse.TransformByOne | src/quaternion.py:111-116 | transforming by `1` leaves every point unchanged |
| QuaternionInverse.TransformByI | src/quaternion.py:111-116 | transforming by `i` is the sandwich `i * (0, pt) * -i` |
| QuaternionInverse.TransformHalfTurnAboutX | src/quaternion.py:111-116 | the 180° rotation about the x axis, `i`, sends `(0, 0, 1)` to `(0, 0, -1)` |
| QuaternionInverse.TransformHalfTurnFixesAxis | src/quaternion.py:111-116 | the same rotation fixes `(1, 0, 0)` |
| QuaternionInverse.TransformByUnit | src/quaternion.py:111-116 | for a unit quaternion, `transform` is the sandwich with the conjugate |
| QuaternionInverse.NormalizeFailsIffZero | src/quaternion.py:97-102 | `normalize` raises `ZeroDivisionError` exactly for the zero quaternion |
| QuaternionInverse.NormalizeFailsIffMagnitudeZero | src/quaternion.py:97-102 | `normalize` fails exactly when the magnitude it divides by is zero |
| QuaternionInverse.NormalizeIsUnit | src/quaternion.py:97-102 | a normalized quaternion has magnitude 1 |
| QuaternionInverse.NormalizeRoundTrip | src/quaternion.py:97-102 | scaling the normalized quaternion by the magnitude gives the original back |
| QuaternionInverse.NormalizeUnitIsIdentity | src/quaternion.py:97-102 | a quaternion of magnitude 1 normalizes to itself |
| QuaternionText.SignPrefixIff | src/quaternion.py:27 | the prefix of a vector term is `"- "` exactly for negative components, `"+ "` otherwise |
| QuaternionText.TermRecoversComponent | src/quaternion.py:27 | the printed sign together with the printed absolute value recovers the component |
| QuaternionText.TermOfNegation | src/quaternion.py:27 | negating a non-zero component flips its printed sign and keeps its printed magnitude |
| QuaternionText.StrOfConjugate | src/quaternion.py:27 | the conjugate prints with the same magnitudes and flipped signs on every non-zero vector component |
| QuaternionText.StrExamples | src/quaternion.py:21-27 | `1 + 2i + 3j + 4k` and `1 - 2i + 3j - 4k` render as those texts |
| InvertAsWritten.CallConjugate | src/quaternion.py:78-82 | calling `conjugate` with extra positional arguments: it succeeds exactly when there are none, and otherwise raises `TypeError` |
| InvertAsWritten.DivideConjugate | src/quaternion.py:76 | the last step of `~q`: when it succeeds, scaling the result by the squared magnitude gives the conjugate back; its only error is `ZeroDivisionError` |
| InvertAsWritten.InvertAsWritten | src/quaternion.py:70-76 | `~q` with the call `self.conjugate(self)` as written: it never returns a value |
| InvertAsWritten.InvertCorrected | src/quaternion.py:70-76 | `~q` with the call corrected to `self.conjugate()`: when it succeeds, scaling by the squared magnitude gives the conjugate; its only error is `ZeroDivisionError` |
| InvertAsWritten.DifferenceAsWritten | src/quaternion.py:84-89 | `a * ~b` on top of the written `~`: it fails exactly when the written `~b` fails |
| InvertAsWritten.TransformAsWritten | src/quaternion.py:111-116 | `transform` on top of the written `~`: it fails exactly when the written `~q` fails |
| InvertAsWritten.CallConjugateArity | src/quaternion.py:78 | `conjugate` succeeds exactly when called with no argument besides `self` |
| InvertAsWritten.InvertAsWrittenAlwaysFails | src/quaternion.py:70-76 | `~q` as written raises `TypeError` for every `q` |
| InvertAsWritten.InvertAsWrittenDisagrees | src/quaternion.py:75 | as written, `~q` differs from the intended inverse on every invertible `q` |
| InvertAsWritten.InvertCorrectedIsInverse | src/quaternion.py:74-76 | with the call corrected to `self.conjugate()`, `~q` is exactly `Inverse` |
| InvertAsWritten.DependentsAlwaysFail | src/quaternion.py:84-116 | as written, every `difference` and every `transform` raises `TypeError` |
| ReflectedMultiply.RMultiplyChecked | src/quaternion.py:54-62 | reflected `*` that rejects what `__mul__` rejects: a value exactly for numbers, and otherwise `TypeError` |
| ReflectedMultiply.RMultiplyAsWrittenIsSilent | src/quaternion.py:57-62 | as written, a non-number left operand yields `None` from reflected `*`, where `*` raises `TypeError` |
| ReflectedMultiply.RMultiplyCheckedSpec | src/quaternion.py:54-62 | the checked reflected `*` fails with `TypeError` exactly on non-numbers and agrees with the written one on numbers |

## Left out

- The angle-axis constructor (src/quaternion.py:12-16) is left out. It needs `cos`, `sin` and a degrees-to-radians conversion, which have no exact real counterpart here.
- `slerp` (src/quaternion.py:118-136) is left out. It needs `acos` and `sin`, and its 0.9995 cut-off only has a meaning for floating point.
- `toAngleAxis` (src/quaternion.py:138-147) is left out. It needs `acos` and `sqrt`, and its 0.001 cut-off only has a meaning for floating point.
- A constructor call that supplies neither argument pair (src/quaternion.py:12-19) is not modelled. It leaves the object without fields, which a datatype cannot represent.
- Python floats are modelled as exact reals. Rounding, overflow, infinities, NaN and signed zero are not modelled.
- Quaternions.IsMagnitude: `math.sqrt` is a relation rather than a function. The model does not prove that every quaternion has a magnitude, since that needs real square roots.
- Quaternions.Normalize: takes the magnitude as a parameter, constrained by `IsMagnitude`, instead of computing it.
- Quaternions.Inverse: divides by the squared magnitude instead of `magnitude() ** 2`. These are equal over the reals, and `InverseViaMagnitude` proves it.
- Quaternions.Multiply: the `TypeError` carries no message. The source's message names the offending type.
- Quaternions.Str: the digits of each number come from the `render` parameter. Python's float formatting is not modelled.
- The integer-versus-float distinction of Python scalars is not modelled: both are `real`. So is `bool` as a subclass of `int`.

## Findings

| source | as written | input that shows it | evidently intended | confidence | as-written member | corrected member |
|---|---|---|---|---|---|---|
| src/quaternion.py:75 | `__invert__` calls `self.conjugate(self)`, but `conjugate` (line 78) takes only `self`, so `~q` raises `TypeError`, and so do `difference` and `transform`, which use it | `~Quaternion(1, (0, 0, 0))` | `self.conjugate()`: the conjugate divided by the squared magnitude, with `q * ~q == 1` | high, not executed | InvertAsWritten.InvertAsWrittenAlwaysFails | QuaternionInverse.InverseIsTwoSided |
| src/quaternion.py:61-62 | `__rmul__` has no branch for operands that are not numbers, so it returns `None`, and Python takes `None` as the value of the expression | `"a" * Quaternion(1, (0, 0, 0))` evaluates to `None` | reject such operands with `TypeError`, as `__mul__` does at lines 54-55 | medium, not executed | ReflectedMultiply.RMultiplyAsWrittenIsSilent | ReflectedMultiply.RMultiplyCheckedSpec |
