# smath in Dafny

A model of the core of `smath`, a small Go library of 3-D math for games. It has:

- 2-, 3- and 4-component vectors and homogeneous 4-vectors;
- axis-aligned rectangles and boxes;
- column-major 2×2, 3×3 and 4×4 matrices;
- quaternions and the quaternion-to-matrix conversion;
- the angle utility `WrapPi` and the angle constants.

Each Go package is one Dafny module:

| module | Go package |
|---|---|
| `Sutil` | `sutil` |
| `Vector2`, `Rect` | `vector2` |
| `Vector3`, `Box` | `vector3` |
| `Vector4` | `vector4` |
| `Mat2`, `Mat3`, `Mat4` | `mat2`, `mat3`, `mat4` |
| `Quat` | `quat` |
| `Convert` | the root package's `convert.go` |
| `Generic` | `generic` |

Three support modules carry no Go counterpart of their own:

- `Generic` models the `generic.T` interface as a `Tensor` value (column count, row count, size, element function).
- `Wrappers` holds the failure results: `Result.Unsupported` for the "unsupported type." panic and `Option.None` for a nil result.
- `Scalar` holds the per-component helpers.

How the model represents the library:

- **Numbers.** `float32` values are exact `real`s, so rounding is not modelled.
- **Square roots, sines and cosines.** These become parameters.
  - Normalization takes `ool`, the reciprocal square root the library would compute.
  - A rotation builder takes the sine and cosine `(s, c)` of its angle.
  - A contract that needs the true value says so as a hypothesis, such as `ool * ool * LengthSqr(v) == 1.0` or `s * s + c * c == 1.0`.
- **Receivers.** Pointer receivers that update in place become:
  - pure functions for the value-returning variant (`Scaled`, `Conjugated`, ...);
  - methods with sequential field updates for the in-place variant. Each is proved equal to its pure partner.
- **Matrices.** A matrix is a record of columns. `Get(col, row)` reads column `col`, row `row`, as the library's `[col][row]` layout does.

## Model

| member | source | states |
|---|---|---|
| Sutil.ConstantRelations | sutil/def.go:14-21 | π is positive. 2π, π/2, 1/π, 1/(2π) and the radian/degree factors are related as their names say: each reciprocal times its constant is 1. |
| Sutil.WrapPi | sutil/sutil.go:13-21 | The result lies in [-π, π). It differs from the input by a whole number of turns. An input already in [-π, π) is returned unchanged. |
| Sutil.WrapPiOfPi | sutil/sutil.go:13-21 | π itself wraps to -π, the closed end of the range. |
| Sutil.WrapPiIdempotent | sutil/sutil.go:13-21 | Wrapping an already wrapped angle changes nothing. |
| Sutil.WrapPiPeriodic | sutil/sutil.go:13-21 | Adding a full turn does not change the wrapped angle. |
| Vector2.FromNew | vector2/vector2.go:31-33 | The result takes its x and y from element (0, 0) and (0, 1) of any tensor. |
| Vector2.FromNewRoundTrip | vector2/vector2.go:31-58 | Reading a vector through its own tensor interface and building it back gives the same vector. |
| Vector2.LengthSqrZero | vector2/vector2.go:73-75 | The squared length is zero exactly at the zero vector. |
| Vector2.LengthSqr | vector2/vector2.go:73-75 | The squared length is never negative; `Vector2.LengthSqrZero` and `Vector2.DotProperties` fix it as the dot product of the vector with itself. |
| Vector2.Scaled | vector2/vector2.go:78-87 | Scaling by `ratio` multiplies the squared length by ratio². |
| Vector2.ScaledLaws | vector2/vector2.go:78-88 | Scaling by `ratio` is component-wise multiplication by (ratio, ratio), scaling by 1 is the identity, and scaling by `a` then `b` is scaling by `a * b`. |
| Vector2.Inverted | vector2/vector2.go:90-99 | The inverse added to the vector gives zero, and the squared length is kept. |
| Vector2.Normalized | vector2/vector2.go:102-116 | A zero or unit vector is returned unchanged. Otherwise, with `ool` the true reciprocal root, the result has unit length. |
| Vector2.NormalizedUnitFixed | vector2/vector2.go:102-116 | Normalizing a normalized vector again changes nothing, whatever root is supplied the second time. |
| Vector2.Rotate90degLeft | vector2/vector2.go:161-166 | A left quarter turn keeps the length, is perpendicular to the input, and is undone by a right quarter turn. |
| Vector2.Rotate90degRight | vector2/vector2.go:169-174 | A right quarter turn keeps the length and is perpendicular to the input. |
| Vector2.RotationWinding | vector2/vector2.go:160-174 | From a non-zero vector, the left quarter turn winds counter-clockwise and the right quarter turn winds clockwise. |
| Vector2.QuarterTurns | vector2/vector2.go:161-174 | Left and right quarter turns are inverse to each other, and four left turns are the identity. |
| Vector2.Clamp | vector2/vector2.go:182-198 | For ordered bounds the result lies between them, and a vector already inside is unchanged. A component below its lower bound becomes that bound; otherwise one above its upper bound becomes that bound; otherwise it is kept. |
| Vector2.Clamp01 | vector2/vector2.go:201-210 | The result lies in the unit square, and a vector inside it is unchanged. A component below 0 becomes 0, one above 1 becomes 1, and any other is kept. |
| Vector2.ClampIdempotent | vector2/vector2.go:182-198 | Clamping twice into the same ordered bounds is clamping once. |
| Vector2.Sub | vector2/vector2.go:216-218 | The difference plus the subtrahend gives back the minuend. |
| Vector2.ArithmeticLaws | vector2/vector2.go:212-222 | Subtraction is addition of the inverse. Addition and component-wise multiplication commute. (1, 1) is the unit of multiplication. |
| Vector2.Add | vector2/vector2.go:212-214 | No contract of its own: `Vector2.ArithmeticLaws` and `Vector2.Sub` fix it as the commutative sum that subtraction undoes. |
| Vector2.Mul | vector2/vector2.go:220-222 | No contract of its own: `Vector2.ArithmeticLaws` and `Vector2.ScaledLaws` fix it as commutative with unit (1, 1), and scaling as multiplication by (k, k). |
| Vector2.DotProperties | vector2/vector2.go:224-226 | The dot product is symmetric, and a vector's dot product with itself is its squared length. |
| Vector2.Dot | vector2/vector2.go:224-226 | No contract of its own: `Vector2.DotProperties` fixes it as symmetric with a vector's own squared length on the diagonal, and `Vector2.Rotate90degLeft` as zero against a quarter turn. |
| Vector2.Cross | vector2/vector2.go:232-237 | The result's components are opposite. Its `y` is positive exactly for a left winding, negative exactly for a right winding, and zero exactly when neither holds. |
| Vector2.WindingDuality | vector2/vector2.go:263-274 | `a, b` winds left exactly when `b, a` winds right, and no pair winds both ways. |
| Vector2.IsLeftWinding | vector2/vector2.go:263-267 | No contract of its own: `Vector2.Cross` fixes it as a positive cross product, `Vector2.RotationWinding` as holding for a left quarter turn, and `Vector2.WindingDuality` as the mirror of right winding. |
| Vector2.IsRightWinding | vector2/vector2.go:270-274 | No contract of its own: `Vector2.Cross` fixes it as a negative cross product, `Vector2.RotationWinding` as holding for a right quarter turn, and `Vector2.WindingDuality` as exclusive with left winding. |
| Vector2.Min | vector2/vector2.go:277-286 | The result is below both inputs, and each component comes from one of them. |
| Vector2.Max | vector2/vector2.go:289-298 | The result is above both inputs, and each component comes from one of them. |
| Vector2.Interpolate | vector2/vector2.go:301-313 | A weight at or below 0 gives `a`, at or above 1 gives `b`, and in between gives `a + (b - a) t`. |
| Rect.ContainsPoint | vector2/rect.go:20-23 | No contract of its own: `Rect.ContainsPointMonotone` and `Rect.CommonPointIntersects` fix it as the closed range test on both axes that containment and intersection respect. |
| Rect.Contains | vector2/rect.go:26-29 | No contract of its own: `Rect.ContainsPreorder` fixes it as a preorder and `Rect.ContainsPointMonotone` as carrying every point of the inner rectangle into the outer one. |
| Rect.Intersects | vector2/rect.go:32-35 | No contract of its own: `Rect.IntersectsSymmetric`, `Rect.CommonPointIntersects` and `Rect.ContainedIntersects` fix it as symmetric, implied by a common point, and implied by well-formed containment. |
| Rect.ContainsPreorder | vector2/rect.go:26-29 | Containment is reflexive and transitive. |
| Rect.ContainsPointMonotone | vector2/rect.go:20-29 | A point of a contained rectangle lies in the containing one. |
| Rect.IntersectsSymmetric | vector2/rect.go:32-35 | Intersection is symmetric, and the test's two disjuncts say the same thing. |
| Rect.CommonPointIntersects | vector2/rect.go:20-35 | Two rectangles with a common point intersect. |
| Rect.ContainedIntersects | vector2/rect.go:26-35 | A well-formed rectangle intersects any rectangle containing it. |
| Rect.ContainedInvertedNeedNotIntersect | vector2/rect.go:26-35 | An inverted rectangle (min above max) can be contained in another without intersecting it. |
| Vector3.FromNew | vector3/vector3.go:32-42 | Tensors of size 2, 3 and 4 are accepted and every other size is unsupported. A size-2 tensor gives `z` = 0. |
| Vector3.FromNewRoundTrip | vector3/vector3.go:32-66 | Reading a vector through its own tensor interface and building it back gives the same vector. |
| Vector3.LengthSqrZero | vector3/vector3.go:64-76 | The squared length is zero exactly at the zero vector. |
| Vector3.LengthSqr | vector3/vector3.go:74-76 | The squared length is never negative; `Vector3.LengthSqrZero` and `Vector3.ProductLaws` fix it as the dot product of the vector with itself. |
| Vector3.ScaledLength | vector3/vector3.go:79-89 | Scaling by `ratio` multiplies the squared length by ratio². |
| Vector3.Scaled | vector3/vector3.go:87-89 | No contract of its own: `Vector3.ScaledLength` fixes the length it gives, and `Vector4.Scaled` uses it for the first three components. |
| Vector3.Inverted | vector3/vector3.go:92-102 | The inverse added to the vector gives zero, and the squared length is kept. |
| Vector3.Absed | vector3/vector3.go:104-113 | Every component of the result is non-negative and is the input's component up to sign. |
| Vector3.Abs | vector3/vector3.go:104-109 | The in-place version leaves the vector equal to `Absed`. |
| Vector3.AbsIdempotent | vector3/vector3.go:104-113 | Taking absolute values twice is taking them once. |
| Vector3.Normalized | vector3/vector3.go:116-130 | A zero or unit vector is returned unchanged. Otherwise, with `ool` the true reciprocal root, the result has unit length. |
| Vector3.Normal | vector3/vector3.go:133-139 | A vector on the z axis gets the x axis as its normal. Every normal lies in the xy plane. |
| Vector3.NormalZeroBranch | vector3/vector3.go:133-139 | The cross product with the z axis is zero exactly when the vector lies on the z axis, which is the case the function special-cases. |
| Vector3.NormalPerpendicular | vector3/vector3.go:133-139 | Off the z axis, the normal is perpendicular to the vector. |
| Vector3.NormalIsUnit | vector3/vector3.go:133-139 | Off the z axis, with the true reciprocal root, the normal has unit length. |
| Vector3.AddInPlace | vector3/vector3.go:141-146 | The in-place Add gives the pure sum. |
| Vector3.SubInPlace | vector3/vector3.go:148-153 | The in-place Sub gives the pure difference. |
| Vector3.MulInPlace | vector3/vector3.go:155-160 | The in-place Mul gives the pure component-wise product. |
| Vector3.Clamp | vector3/vector3.go:163-178 | For ordered bounds the result lies between them, and a vector already inside is unchanged. A component below its lower bound becomes that bound; otherwise one above its upper bound becomes that bound; otherwise it is kept. |
| Vector3.Clamp01 | vector3/vector3.go:180-188 | The result lies in the unit cube, and a vector inside it is unchanged. A component below 0 becomes 0, one above 1 becomes 1, and any other is kept. |
| Vector3.ClampIdempotent | vector3/vector3.go:163-178 | Clamping twice into the same ordered bounds is clamping once. |
| Vector3.SquareDistance | vector3/vector3.go:194-197 | The squared distance is non-negative and zero between equal points. |
| Vector3.SquareDistanceLaws | vector3/vector3.go:194-197 | The squared distance is symmetric and zero exactly between equal points. |
| Vector3.Sub | vector3/vector3.go:204-206 | The difference plus the subtrahend gives back the minuend. |
| Vector3.ArithmeticLaws | vector3/vector3.go:190-210 | Subtraction is addition of the inverse. Addition and component-wise multiplication commute. (1, 1, 1) is the unit of multiplication. |
| Vector3.Add | vector3/vector3.go:190-192 | No contract of its own: `Vector3.ArithmeticLaws` and `Vector3.Sub` fix it as the commutative sum that subtraction undoes. |
| Vector3.Mul | vector3/vector3.go:208-210 | No contract of its own: `Vector3.ArithmeticLaws` fixes it as commutative with unit (1, 1, 1). |
| Vector3.Cross | vector3/vector3.go:221-227 | The cross product is perpendicular to both factors. |
| Vector3.CrossMagnitude | vector3/vector3.go:221-227 | Lagrange's identity: the squared length of `a × b` is the product of the squared lengths of `a` and `b` minus the squared dot product. |
| Vector3.CrossBasis | vector3/vector3.go:221-227 | The cross product is right-handed: x × y = z, y × z = x and z × x = y. |
| Vector3.ProductLaws | vector3/vector3.go:212-227 | The cross product is anti-symmetric. The dot product is symmetric, and a vector's dot product with itself is its squared length. |
| Vector3.Dot | vector3/vector3.go:212-214 | No contract of its own: `Vector3.ProductLaws` fixes it as symmetric with a vector's own squared length on the diagonal, and `Vector3.Cross` as zero against the cross product. |
| Vector3.Min | vector3/vector3.go:257-269 | The result is below both inputs, and each component comes from one of them. |
| Vector3.Max | vector3/vector3.go:272-284 | The result is above both inputs, and each component comes from one of them. |
| Vector3.Interpolate | vector3/vector3.go:287-300 | A weight at or below 0 gives `a`, at or above 1 gives `b`, and in between gives `a + (b - a) t`. |
| Box.Center | vector3/box.go:22-26 | A well-formed box contains its center, which is equidistant from both corners. |
| Box.IntersectsSymmetric | vector3/box.go:29-40 | Intersection is symmetric. |
| Box.ContainsPoint | vector3/box.go:15-19 | No contract of its own: `Box.Center`, `Box.Intersects2` and `Box.Joined` fix it as the closed range test on all three axes that intersection and join respect. |
| Box.Intersects | vector3/box.go:29-40 | No contract of its own: `Box.IntersectsSymmetric`, `Box.CommonPointIntersects` and `Box.IntersectingBoxesSharePoint` fix it as symmetric and, for well-formed boxes, true exactly when the boxes share a point. |
| Box.CommonPointIntersects | vector3/box.go:15-40 | Two boxes with a common point intersect. |
| Box.Intersects2 | vector3/box.go:43-57 | A box is returned exactly when the boxes intersect. It spans from the larger minimum to the smaller maximum. It contains exactly the points in both boxes, and it is well formed when both inputs are. |
| Box.IntersectingBoxesSharePoint | vector3/box.go:15-57 | Two intersecting well-formed boxes share the center of their intersection. |
| Box.Joined | vector3/box.go:66-71 | The join spans from the component-wise minimum of the lower corners to the component-wise maximum of the upper corners. It contains every point of either box, and it is well formed when either input is. |
| Box.Join | vector3/box.go:60-63 | The in-place Join gives the pure join. |
| Box.JoinedSelf | vector3/box.go:66-71 | A box joined with itself is itself. |
| Box.JoinedSymmetric | vector3/box.go:66-71 | Join is symmetric. |
| Vector4.FromNew | vector4/vector4.go:34-45 | Tensors of size 2, 3 and 4 are accepted and every other size is unsupported. Missing components are zero. |
| Vector4.FromNewRoundTrip | vector4/vector4.go:34-70 | Reading a vector through its own tensor interface and building it back gives the same vector. |
| Vector4.Vec3DividedByW | vector4/vector4.go:171-177 | For non-zero `w`, the result scaled back by `w` is the first three components. A `w` of 1 returns them unchanged. |
| Vector4.DividedByW | vector4/vector4.go:162-168 | The result has `w` = 1 and the dehomogenised point as its first three components. A vector with `w` = 1 is unchanged. |
| Vector4.DivideByW | vector4/vector4.go:149-159 | The in-place DivideByW gives the pure DividedByW. |
| Vector4.DividedByWIdempotent | vector4/vector4.go:149-177 | Dividing by `w` twice is dividing once, and the represented point does not change. |
| Vector4.AssignVec3 | vector4/vector4.go:184-190 | The vector gets `w` = 1 and represents exactly the given point. |
| Vector4.LengthSqr | vector4/vector4.go:92-95 | Corrected: the squared length of the represented point is non-negative, and for `w` = 1 it is the length of the first three components. |
| Vector4.LengthSqrAsWrittenDiverges | vector4/vector4.go:92-95 | As written, LengthSqr calls itself on a vector of the same shape. Whatever the fuel, the recursion never reaches a value. |
| Vector4.LengthSqrAsWrittenRepeats | vector4/vector4.go:92-95 | The cause of the divergence: for non-zero `w` the as-written function calls itself on `DividedByW(v)`, and dividing that by `w` again gives the same vector, so every later call repeats the same argument. |
| Vector4.LengthSqrHomogeneous | vector4/vector4.go:92-95 | Scaling all four components by the same non-zero factor leaves the squared length unchanged: it depends only on the represented point. |
| Vector4.Scale | vector4/vector4.go:98-103 | The in-place Scale gives the pure Scaled, `w` untouched. |
| Vector4.Scaled | vector4/vector4.go:106-108 | Corrected: `w` is kept and the first three components are scaled. |
| Vector4.ScaledAsWritten | vector4/vector4.go:106-108 | As written, the copy scales the first three components and leaves `w` zero. |
| Vector4.ScaledAsWrittenDropsW | vector4/vector4.go:106-108 | As written, scaling (1, 0, 0, 1) by 1 does not give it back. |
| Vector4.Invert | vector4/vector4.go:111-116 | The in-place Invert gives the pure Inverted, `w` untouched. |
| Vector4.Inverted | vector4/vector4.go:119-121 | Corrected: `w` is kept and the first three components are negated. |
| Vector4.InvertedAsWritten | vector4/vector4.go:119-121 | As written, the copy negates the first three components and leaves `w` zero. |
| Vector4.InvertedAsWrittenDropsW | vector4/vector4.go:119-121 | As written, inverting (1, 0, 0, 1) twice does not give it back. |
| Vector4.ScaledInvertedIdentities | vector4/vector4.go:98-121 | Corrected: scaling by 1 and inverting twice are identities. |
| Vector4.Normalized | vector4/vector4.go:124-139 | The result has `w` = 1. A vector whose represented point has zero or unit length is only divided by `w`. Otherwise, with the true reciprocal root, the result has unit length. |
| Vector4.Normal | vector4/vector4.go:142-146 | The normal lies in the xy plane with `w` = 1, and a vector on the z axis gets the x axis. |
| Vector4.NormalPerpendicular | vector4/vector4.go:142-146 | Off the z axis, the normal is perpendicular to the first three components. |
| Vector4.Add | vector4/vector4.go:251-258 | With equal `w`s, the first three components are added and `w` is kept. Otherwise the result is the sum of the represented points with `w` = 1. |
| Vector4.Sub | vector4/vector4.go:260-267 | With equal `w`s, the first three components are subtracted and `w` is kept. Otherwise the result is the difference of the represented points with `w` = 1. |
| Vector4.AddInPlace | vector4/vector4.go:193-206 | The in-place Add gives the pure Add. |
| Vector4.SubInPlace | vector4/vector4.go:208-222 | The in-place Sub gives the pure Sub. |
| Vector4.AddSubArePointwise | vector4/vector4.go:193-267 | For non-zero `w`s, the sum and difference represent the sum and difference of the represented points. |
| Vector4.Clamped | vector4/vector4.go:235-239 | For ordered bounds all four components lie between them, and a vector already inside is unchanged. A component below its lower bound becomes that bound; otherwise one above its upper bound becomes that bound; otherwise it is kept. This holds for `w` too. |
| Vector4.Clamp | vector4/vector4.go:224-233 | The in-place Clamp gives the pure Clamped. |
| Vector4.Clamped01 | vector4/vector4.go:241-249 | The result lies in the unit hypercube, and a vector inside it is unchanged. A component below 0 becomes 0, one above 1 becomes 1, and any other is kept, `w` included. |
| Vector4.ClampIdempotent | vector4/vector4.go:224-239 | Clamping twice into the same ordered bounds is clamping once. |
| Vector4.Dot | vector4/vector4.go:269-273 | For `w` = 1 on both sides it is the dot product of the first three components. |
| Vector4.Dot4 | vector4/vector4.go:275-277 | The four-component dot product is the dot product of the first three components plus the product of the `w`s; so when either `w` is zero it is the dot product of the first three. |
| Vector4.DotLaws | vector4/vector4.go:269-277 | Both dot products are symmetric, and Dot does not change when `w` is divided out first. |
| Vector4.Cross | vector4/vector4.go:279-284 | The result has `w` = 1, is perpendicular to both represented points, and its first three components are the cross product of the represented points, so `Vector3.CrossMagnitude` and `Vector3.CrossBasis` give its length and handedness. |
| Vector4.Interpolate | vector4/vector4.go:314-328 | A weight at or below 0 gives `a` and at or above 1 gives `b`. In between, `w` and the first three components are interpolated alike. |
| Mat2.FromNew | mat2/mat2.go:33-51 | Square tensors of order 2 to 4 are accepted and anything else is unsupported. The result holds their top-left 2×2 block. |
| Mat2.FromNewRoundTrip | mat2/mat2.go:33-76 | Reading a matrix through its tensor interface and building it back gives the same matrix. |
| Mat2.SetScaling | mat2/mat2.go:100-104 | The diagonal becomes the given vector and the off-diagonal entries are kept. |
| Mat2.ScalingRoundTrip | mat2/mat2.go:96-104 | The diagonal read back is the one set. Setting the diagonal it already has changes nothing, and restoring the old diagonal undoes a set. |
| Mat2.Scaling | mat2/mat2.go:96-98 | No contract of its own: `Mat2.ScalingRoundTrip` fixes it as reading back the diagonal that SetScaling writes. |
| Mat2.Scaled | mat2/mat2.go:84-93 | The diagonal is scaled by `f`, the off-diagonal entries are kept, and the trace is scaled by `f`. |
| Mat2.Trace | mat2/mat2.go:106-108 | No contract of its own: `Mat2.Scaled` and `Mat2.TransposeLaws` fix it as scaled with the diagonal and kept by transposition. |
| Mat2.MulVec2Columns | mat2/mat2.go:110-115 | The product with `v` is the combination of the columns weighted by `v`'s components, and the unit vectors pick out the columns. |
| Mat2.MulVec2 | mat2/mat2.go:110-115 | No contract of its own: `Mat2.MulVec2Columns` fixes it as the combination of the columns, and `Mat2.IdentLaws` as fixing every vector under the identity. |
| Mat2.IdentLaws | mat2/mat2.go:23-26 | The identity fixes every vector and is a unit of AssignMul on both sides. |
| Mat2.AssignMulComposes | mat2/mat2.go:117-121 | Applying the product to a vector is applying `b` and then `a`. |
| Mat2.AssignMul | mat2/mat2.go:117-121 | No contract of its own: `Mat2.AssignMulComposes` fixes it as composition of the two linear maps and `Mat2.AssignMulAssociative` as associative. |
| Mat2.AssignMulAssociative | mat2/mat2.go:117-121 | AssignMul is associative. |
| Mat2.Transpose | mat2/mat2.go:124-127 | Entry (col, row) of the result is entry (row, col) of the input. |
| Mat2.TransposeLaws | mat2/mat2.go:117-127 | Transposing twice is the identity and keeps the trace. The transpose is the adjoint for the dot product, and it reverses products. |
| Mat3.FromNew | mat3/mat3.go:36-54 | Square tensors of order 3 or 4 are accepted and anything else is unsupported. The result holds their top-left 3×3 block. |
| Mat3.FromNewRoundTrip | mat3/mat3.go:36-79 | Reading a matrix through its tensor interface and building it back gives the same matrix. |
| Mat3.SetScaling | mat3/mat3.go:103-108 | The diagonal becomes the given vector and the off-diagonal entries are kept. |
| Mat3.ScalingRoundTrip | mat3/mat3.go:99-108 | The diagonal read back is the one set. Setting the diagonal it already has changes nothing, and restoring the old diagonal undoes a set. |
| Mat3.Scaling | mat3/mat3.go:99-101 | No contract of its own: `Mat3.ScalingRoundTrip` fixes it as reading back the diagonal that SetScaling writes. |
| Mat3.Scaled | mat3/mat3.go:87-97 | The diagonal is scaled by `f`, the off-diagonal entries are kept, and the trace is scaled by `f`. |
| Mat3.Trace | mat3/mat3.go:139-141 | No contract of its own: `Mat3.Scaled` fixes it as scaled by `f` when the diagonal is. |
| Mat3.ScaleVec2 | mat3/mat3.go:110-114 | The first two diagonal entries are scaled by the vector's components and everything else is kept. |
| Mat3.SetTranslation | mat3/mat3.go:116-120 | The translation becomes the given vector and everything outside it is kept. |
| Mat3.Translate | mat3/mat3.go:122-126 | The vector is added to the translation and everything outside it is kept. |
| Mat3.TranslateX | mat3/mat3.go:128-131 | Only the x translation moves, by `dx`. |
| Mat3.TranslateY | mat3/mat3.go:133-136 | Only the y translation moves, by `dy`. |
| Mat3.TranslationLaws | mat3/mat3.go:116-136 | The translation read back is the one set, and setting the current one changes nothing. Translating along x then y is translating by the vector, and Translate is SetTranslation of the sum. |
| Mat3.TranslationMovesPoints | mat3/mat3.go:116-150 | A translation matrix moves every point with `z` = 1 by the translation. |
| Mat3.MulVec3Columns | mat3/mat3.go:144-150 | The unit vectors pick out the columns. |
| Mat3.MulVec3 | mat3/mat3.go:144-150 | No contract of its own: `Mat3.MulVec3Columns` fixes it as the combination of the columns, and `Mat3.IdentLaws` as fixing every vector under the identity. |
| Mat3.IdentLaws | mat3/mat3.go:25-29 | The identity fixes every vector and is a unit of AssignMul on both sides. |
| Mat3.AssignMulComposes | mat3/mat3.go:152-157 | Applying the product to a vector is applying `b` and then `a`. |
| Mat3.AssignMul | mat3/mat3.go:152-157 | No contract of its own: `Mat3.AssignMulComposes` fixes it as composition of the two linear maps and `Mat3.AssignMulAssociative` as associative. |
| Mat3.AssignMulAssociative | mat3/mat3.go:152-157 | AssignMul is associative. |
| Mat3.AssignMat2x2AsWritten | mat3/mat3.go:159-166 | As written, the top-left block is the transpose of the given matrix and the rest is the identity's. |
| Mat3.AssignMat2x2AsWrittenTransposes | mat3/mat3.go:159-166 | As written, the embedding equals the corrected embedding of the transpose. The trace is that of the 2×2 matrix plus 1. |
| Mat3.AssignMat2x2AsWrittenCounterexample | mat3/mat3.go:159-166 | The shear with columns (1, 0), (1, 1) sends the y axis to (1, 1), while its embedding as written sends it to (0, 1, 0). |
| Mat3.AssignMat2x2 | mat3/mat3.go:159-166 | Corrected: the top-left block is the given matrix and the rest is the identity's. |
| Mat3.AssignMat2x2Acts | mat3/mat3.go:159-166 | Corrected: the embedding acts on (x, y, z) as the 2×2 matrix on (x, y) and keeps `z`. It has the trace plus 1 and maps the identity to the identity. |
| Mat4.FromNew | mat4/mat4.go:47-65 | Square tensors of order 4 or 5 are accepted and anything else is unsupported. The result holds their top-left 4×4 block. |
| Mat4.FromNewRoundTrip | mat4/mat4.go:47-90 | Reading a matrix through its tensor interface and building it back gives the same matrix. |
| Mat4.SetScaling | mat4/mat4.go:260-266 | The diagonal becomes the given vector and the off-diagonal entries are kept. |
| Mat4.ScalingRoundTrip | mat4/mat4.go:256-266 | The diagonal read back is the one set. Setting the diagonal it already has changes nothing, and restoring the old diagonal undoes a set. |
| Mat4.Scaling | mat4/mat4.go:256-258 | No contract of its own: `Mat4.ScalingRoundTrip` fixes it as reading back the diagonal that SetScaling writes. |
| Mat4.Scaled | mat4/mat4.go:98-109 | The first three diagonal entries are scaled by `f`, everything else is kept, and Trace3 is scaled by `f`. |
| Mat4.Trace | mat4/mat4.go:136-138 | No contract of its own: `Mat4.Trace3` fixes it as Trace3 plus the last diagonal entry. |
| Mat4.ScaleVec3 | mat4/mat4.go:268-273 | The first three diagonal entries are scaled by the vector's components and everything else is kept. |
| Mat4.Muled | mat4/mat4.go:118-122 | Rows 0 to 2 of every column are scaled by `f`, and row 3 is kept. |
| Mat4.Mul | mat4/mat4.go:111-116 | The in-place Mul gives the pure Muled. |
| Mat4.ScaleByOne | mat4/mat4.go:98-122 | Scaling by 1 either way changes nothing. |
| Mat4.Trace3 | mat4/mat4.go:136-142 | Trace3 plus the last diagonal entry is the full trace. |
| Mat4.AssignMat2x2 | mat4/mat4.go:144-152 | The top-left block is the given matrix and the rest is the identity's. |
| Mat4.AssignMat3x3 | mat4/mat4.go:154-162 | The top-left block is the given matrix and the rest is the identity's. |
| Mat4.AssignMat3x3Acts | mat4/mat4.go:154-162 | The embedding acts on (x, y, z, w) as the 3×3 matrix on (x, y, z) and keeps `w`. It maps the identity to the identity and has the trace plus 1. |
| Mat4.EmbeddingsAgree | mat4/mat4.go:144-162 | Embedding 2×2 into 4×4 directly equals going through the corrected 3×3 embedding. Going through the 3×3 embedding as written embeds the transpose. |
| Mat4.MulVec4Columns | mat4/mat4.go:165-172 | The unit vectors pick out the columns. |
| Mat4.MulVec4 | mat4/mat4.go:165-172 | No contract of its own: `Mat4.MulVec4Columns` fixes it as the combination of the columns, and `Mat4.IdentLaws` as fixing every vector under the identity. |
| Mat4.IdentLaws | mat4/mat4.go:31-36 | The identity fixes every vector and is a unit of AssignMul on both sides. |
| Mat4.AssignMulComposes | mat4/mat4.go:175-181 | Applying the product to a vector is applying `b` and then `a`. |
| Mat4.AssignMul | mat4/mat4.go:175-181 | No contract of its own: `Mat4.AssignMulComposes` fixes it as composition of the two linear maps. |
| Mat4.TransformVec4 | mat4/mat4.go:183-191 | The in-place transform leaves the vector equal to the matrix times it. |
| Mat4.MulVec3W | mat4/mat4.go:213-217 | The result is the first three components of the matrix times (v, w). |
| Mat4.TransformVec3W | mat4/mat4.go:219-225 | The in-place transform gives MulVec3W. |
| Mat4.MulVec3WTranslates | mat4/mat4.go:213-232 | Under a translation matrix a point (`w` = 1) moves by the translation and a direction (`w` = 0) does not. |
| Mat4.SetTranslation | mat4/mat4.go:227-232 | The translation becomes the given vector and everything outside it is kept. |
| Mat4.Translate | mat4/mat4.go:234-239 | The vector is added to the translation and everything outside it is kept. |
| Mat4.TranslateX | mat4/mat4.go:241-244 | Only the x translation moves, by `dx`. |
| Mat4.TranslateY | mat4/mat4.go:246-249 | Only the y translation moves, by `dy`. |
| Mat4.TranslateZ | mat4/mat4.go:251-254 | Only the z translation moves, by `dz`. |
| Mat4.TranslationLaws | mat4/mat4.go:227-254 | The translation read back is the one set, and setting the current one changes nothing. Translating along x, y, z in turn is translating by the vector, and Translate is SetTranslation of the sum. |
| Mat4.TranslationMovesPoints | mat4/mat4.go:165-232 | A translation matrix moves every point with `w` = 1 by the translation. |
| Mat4.RotationsAtZero | mat4/mat4.go:275-351 | With sine 0 and cosine 1 each rotation builder gives the identity. |
| Mat4.RotationsFixAxis | mat4/mat4.go:275-351 | Each rotation fixes every point on its own axis. |
| Mat4.RotationsQuarterTurn | mat4/mat4.go:275-351 | A quarter turn about x sends y to z, about y sends z to x, and about z sends x to y. |
| Mat4.RotationsInverse | mat4/mat4.go:275-351 | For a true sine/cosine pair, the rotation by the opposite angle undoes a rotation. |
| Mat4.RotationsCompose | mat4/mat4.go:275-351 | Composing two rotations about one axis is the rotation by the sum of the angles, by the angle-sum formulas. |
| Mat4.XRotation | mat4/mat4.go:275-299 | No contract of its own: `Mat4.RotationsAtZero`, `Mat4.RotationsFixAxis`, `Mat4.RotationsQuarterTurn`, `Mat4.RotationsInverse` and `Mat4.RotationsCompose` fix it as the rotation about the x axis that turns y towards z. |
| Mat4.YRotation | mat4/mat4.go:301-325 | No contract of its own: the same five lemmas fix it as the rotation about the y axis that turns z towards x. |
| Mat4.ZRotation | mat4/mat4.go:327-351 | No contract of its own: the same five lemmas fix it as the rotation about the z axis that turns x towards y. |
| Quat.FromVec4 | quat/quaternion.go:160-162 | The four numbers are kept, `w` as the scalar part, and Vec4 gives the vector back. |
| Quat.Vec4 | quat/quaternion.go:164-166 | The four numbers are kept in their places. |
| Quat.Vec4RoundTrip | quat/quaternion.go:160-166 | The two readings are inverse to each other, and the norm is the four-component dot product of the vector with itself. |
| Quat.NormZero | quat/quaternion.go:25-27 | The norm is zero exactly at the zero quaternion. |
| Quat.Norm | quat/quaternion.go:25-27 | The norm is never negative; `Quat.NormZero`, `Quat.NormMultiplicative` and `Quat.ConjugateNorm` fix it as zero only at zero, multiplicative and kept by conjugation. |
| Quat.DotLaws | quat/quaternion.go:245-252 | The dot product is symmetric, and a quaternion's dot product with itself is its norm. |
| Quat.Dot | quat/quaternion.go:245-252 | No contract of its own: `Quat.DotLaws` fixes it as symmetric with the norm on the diagonal, and `Quat.ScaledNorm` as linear in scaling. |
| Quat.Normalized | quat/quaternion.go:43-56 | A norm of 0 or 1 leaves the quaternion unchanged. Otherwise, with `ool` the true reciprocal root, the result has unit norm. |
| Quat.Normalize | quat/quaternion.go:30-40 | The in-place Normalize gives the pure Normalized. |
| Quat.Scale | quat/quaternion.go:232-238 | The in-place Scale gives the pure Scaled. |
| Quat.ScaledNorm | quat/quaternion.go:232-252 | Scaling by `c` multiplies the norm by c² and the dot product with the original by `c`. |
| Quat.ScaledComposes | quat/quaternion.go:232-242 | Scaling twice is scaling by the product, and scaling by 1 is the identity. |
| Quat.Scaled | quat/quaternion.go:240-242 | No contract of its own: `Quat.ScaledNorm` and `Quat.ScaledComposes` fix it as multiplying the norm by c², composing by products and fixing everything at 1. |
| Quat.Conjugate | quat/quaternion.go:185-190 | The in-place Conjugate gives the pure Conjugated. |
| Quat.ConjugateNorm | quat/quaternion.go:185-194 | The conjugate keeps the scalar part and the norm. Its dot product with the original is w² minus the squares of the vector part. |
| Quat.ConjugateInvolution | quat/quaternion.go:192-194 | Conjugating twice is the identity. |
| Quat.Conjugated | quat/quaternion.go:192-194 | No contract of its own: `Quat.ConjugateNorm`, `Quat.ConjugateInvolution`, `Quat.ConjugateOfProduct` and `Quat.ProductWithConjugate` fix it as the norm-keeping, product-reversing involution whose product with the quaternion is its norm. |
| Quat.ConjugateOfProduct | quat/quaternion.go:192-194 | The conjugate of a product is the product of the conjugates in reverse order. |
| Quat.ProductWithConjugate | quat/quaternion.go:192-194 | A quaternion times its conjugate, either way round, is its norm as a real quaternion. |
| Quat.Inversed | quat/quaternion.go:207-210 | For a unit quaternion the inverse is the conjugate. |
| Quat.Inverse | quat/quaternion.go:197-205 | The in-place Inverse gives the pure Inversed. |
| Quat.InverseLaws | quat/quaternion.go:197-210 | For a non-zero quaternion the inverse is a two-sided inverse for the Hamilton product. |
| Quat.Mul | quat/quaternion.go:255-263 | For unit factors the normalization does nothing and the result is their Hamilton product. |
| Quat.Product | quat/quaternion.go:256-261 | No contract of its own: `Quat.NormMultiplicative`, `Quat.ProductAssociative`, `Quat.IdentLaws`, `Quat.InverseLaws` and `Quat.ProductScales` fix it as the associative, norm-multiplying Hamilton product with the identity as unit. |
| Quat.Mul3 | quat/quaternion.go:266-269 | For unit factors the result is the product of the three. |
| Quat.Mul4 | quat/quaternion.go:272-276 | For unit factors the result is the product of the four. |
| Quat.IdentLaws | quat/quaternion.go:21-21 | The identity is a unit of the Hamilton product on both sides. Mul with it only normalizes the other factor. |
| Quat.NormMultiplicative | quat/quaternion.go:254-263 | The norm of a product is the product of the norms, so the product of unit quaternions is unit. |
| Quat.ProductScales | quat/quaternion.go:255-263 | Scaling either factor by `k` scales the product by `k`. |
| Quat.ProductAssociative | quat/quaternion.go:255-276 | The Hamilton product is associative, so Mul3 and Mul4 of unit factors do not depend on grouping. |
| Convert.QuatToMat3AsWritten | convert.go:16-22 | As written, the identity quaternion gives the identity matrix. |
| Convert.AsWrittenAgreesIff | convert.go:16-22 | The matrix as written equals the corrected one exactly when x = 0 or z = w. |
| Convert.AsWrittenConjugateCounterexample | convert.go:16-22 | As written, conjugating (1, 0, 0, 1) does not transpose its matrix. |
| Convert.AsWrittenNotRotation | convert.go:16-22 | The unit quaternion (0.6, 0, 0.8, 0) gives, as written, a matrix that changes the length of the x axis. |
| Convert.QuatToMat3 | convert.go:16-22 | Corrected: the identity quaternion gives the identity matrix. |
| Convert.QuatToMat3Rotates | convert.go:16-22 | For a unit quaternion `q`, the matrix applied to `v` equals the vector part of the sandwich product q v q*. |
| Convert.QuatToMat3PreservesLength | convert.go:16-22 | For a unit quaternion the corrected matrix keeps every vector's squared length. |
| Convert.QuatToMat3Trace | convert.go:16-22 | The trace is 3 - 4(x² + y² + z²) either way; for a unit quaternion it is 4w² - 1. |
| Convert.QuatToMat3Negated | convert.go:16-22 | `q` and `-q` give the same matrix, as written and corrected. |
| Convert.QuatToMat3Conjugated | convert.go:16-22 | Corrected: the conjugate quaternion gives the transposed matrix. |
| Convert.Mat3ToQuat | convert.go:25-27 | Every matrix gives a quaternion whose matrix is the identity. |
| Convert.Mat3ToQuatIsIdentity | convert.go:25-27 | The matrix of Mat3ToQuat's result is the identity, as written and corrected. |
| Convert.Mat3ToQuatRoundTrip | convert.go:16-27 | Mat3ToQuat undoes QuatToMat3 exactly for the identity quaternion. |

## Left out

- Floating point: `float32` rounding, overflow, NaN and infinities are not modelled; every value is an exact real.
- `math.Sqrt`, `math.Sin`, `math.Cos`, `math.Acos`, `math.Atan2`: these become parameters (`ool`, `(s, c)`), or the operation is left out.
- Vector `Length`, `Distance`, `Angle` and `Angle2` in every package, vector2 `Rotate`, `Rotated` and `RotateAroundPoint`, and quaternion `AxisAngle`: each needs a square root, an arc cosine or a sine of a given angle.
- Quaternion `FromAxisAngle`, `FromAxisAngle2`, `FromXAxisAngle`, `FromYAxisAngle`, `FromZAxisAngle` and `FromEulerAnglesI2O`: these are sine/cosine builders.
- The rotation builders `AssignXRotation`, `AssignYRotation` and `AssignZRotation` are kept only as their matrix layout in `(s, c)`.
- Quaternion `RotateVec3` and `RotatedVec3`: not modelled. Their normalizing Mul3 makes the result depend on square roots. `RotateVec3` also stores components 0, 2 and 3 where `RotatedVec3` stores 0, 1 and 2. The rotation itself is stated by `Convert.QuatToMat3Rotates` through the sandwich product.
- `Mat4.MultMatrix`: not modelled. It is marked unverified in the library and goes through the dehomogenising three-component dot product.
- `Mat4.MulVec3` and `Mat4.TransformVec3`: not modelled. They divide by `w`, and `TransformVec3` calls `sutil.FloatEqual`, which is not part of this model.
- `Array`, `Slice`, `Cols`, `Rows`, `Size`, `IsZero` and the `X`/`Y`/`Z`/`W` getters: `unsafe` views and accessors. The `Tensor` value covers what `FromNew` reads.
- Receiver aliasing, e.g. `t.AssignMul(t, b)`: every operation takes distinct values.
- The vector2 in-place `Scale`, `Invert`, `Normalize`, `Add`, `Sub`, `Mul`, `Clamp` and `Clamp01`: modelled by their value-returning partners only. They update the same components the same way.
- The vector2 `Invert` takes an unused `ratio` argument; the model drops it.
- Commented-out code in `quaternion.go` is not modelled.
- Division by zero becomes a precondition where the library would produce infinities:
  - `Quat.Inversed` and `Quat.Inverse` require a non-zero norm;
  - the vector4 `w` divisions require a non-zero `w`.
- Sutil.WrapPi: maps into [-π, π), as the code computes. The comment above it says [-π, π], and π itself wraps to -π. `π` is the decimal literal of Go's `math.Pi`, and the proofs use only its positivity and the constant relations.
- Quat.Norm: only states that the norm is non-negative. Its meaning is fixed by `Quat.NormZero`, `Quat.DotLaws` and `Quat.NormMultiplicative`.
- Vector2.Normalized, Vector3.Normalized, Vector4.Normalized, Quat.Normalized: the unit-length result is stated only under the hypothesis that `ool` is the reciprocal square root, since the square root is a parameter.
- Vector4.Dot: only states the `w` = 1 case directly. `Vector4.DotLaws` gives the effect of dividing by `w`.
- Quat.Mul, Quat.Mul3, Quat.Mul4: state the result only for unit factors, where the normalization is the identity.
- Convert.Mat3ToQuat: the library returns the identity quaternion for every matrix, and the model does the same; no real conversion exists to model.

## Findings

| source | as written | input that shows it | evidently intended | confidence | as-written member | corrected member |
|---|---|---|---|---|---|---|
| convert.go:18 | Column 0, row 2 of the rotation matrix is `2xw - 2wy` | `q = (0.6, 0, 0.8, 0)` has norm 1, yet the matrix sends the x axis to (-0.28, 0, 0). The conjugate of `(1, 0, 0, 1)` does not give the transpose. | `2xz - 2wy`, the standard entry, which makes the matrix the rotation q v q* | high (not executed) | Convert.QuatToMat3AsWritten | Convert.QuatToMat3 |
| vector4/vector4.go:106-108 and 119-121 | `Scaled` and `Inverted` build a 3-element literal, so `w` is 0 in the copy | `(1, 0, 0, 1).Scaled(1)` is `(1, 0, 0, 0)`. Inverting `(1, 0, 0, 1)` twice gives `(1, 0, 0, 0)`. | Keep `w`, as the in-place `Scale` and `Invert` do | high (not executed) | Vector4.ScaledAsWritten | Vector4.Scaled |
| vector4/vector4.go:92-95 | `LengthSqr` calls `LengthSqr` on its own `DividedByW` copy, which has the same type, so it recurses forever | Any vector, e.g. `(0, 0, 0, 1)` | The squared length of the dehomogenised three-component point | high (not executed) | Vector4.LengthSqrAsWrittenDiverges | Vector4.LengthSqr |
| mat3/mat3.go:159-166 | `AssignMat2x2` writes `m[1][0]` into column 0 and `m[0][1]` into column 1, so it embeds the transpose | The shear with columns (1, 0), (1, 1) maps y to (1, 1). Its 3×3 embedding maps y to (0, 1, 0). | Embed the matrix as is, as `Mat4.AssignMat2x2` does | medium (not executed) | Mat3.AssignMat2x2AsWrittenCounterexample | Mat3.AssignMat2x2 |
