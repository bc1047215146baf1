/** Two-component vectors (package vector2, vector2.go). */
module Vector2 {
  import Scalar
  import opened Generic

  datatype Vector = Vector(x: real, y: real)

  const Zero := Vector(0.0, 0.0)
  const UnitX := Vector(1.0, 0.0)
  const UnitY := Vector(0.0, 1.0)
  const UnitXY := Vector(1.0, 1.0)

  /** The vector read through the tensor interface: one row, `get(0, i)` is component i. */
  function AsTensor(v: Vector): (r: Tensor)
    ensures r.cols == 2 && r.rows == 1 && r.size == 2
    ensures r.get(0, 0) == v.x && r.get(0, 1) == v.y
  {
    Tensor(2, 1, 2, (row: int, col: int) => if col == 0 then v.x else v.y)
  }

  /** Builds a vector from `get(0, 0)` and `get(0, 1)` of any tensor, whatever its size. */
  function FromNew(other: Tensor): (r: Vector)
    ensures r.x == other.get(0, 0) && r.y == other.get(0, 1)
  {
    Vector(other.get(0, 0), other.get(0, 1))
  }

  /** Component-wise `a <= b`. */
  predicate LessEq(a: Vector, b: Vector)
  {
    a.x <= b.x && a.y <= b.y
  }

  function LengthSqr(v: Vector): (r: real)
    ensures r >= 0.0
  {
    Scalar.Square(v.x);
    Scalar.Square(v.y);
    v.x * v.x + v.y * v.y
  }

  /** The squared length vanishes exactly at the zero vector. */
  lemma LengthSqrZero(v: Vector)
    ensures LengthSqr(v) == 0.0 <==> v == Zero
  {
    if v.x != 0.0 {
      calc {
        LengthSqr(v);
        v.x * v.x + v.y * v.y;
      >= { Scalar.Square(v.y); }
        v.x * v.x;
      > { Scalar.Square(v.x); }
        0.0;
      }
    } else if v.y != 0.0 {
      calc {
        LengthSqr(v);
        v.x * v.x + v.y * v.y;
      >= { Scalar.Square(v.x); }
        v.y * v.y;
      > { Scalar.Square(v.y); }
        0.0;
      }
    }
  }

  /** Scale and Scaled: both components multiplied by `ratio`. */
  function Scaled(v: Vector, ratio: real): (r: Vector)
    ensures LengthSqr(r) == ratio * ratio * LengthSqr(v)
  {
    Vector(v.x * ratio, v.y * ratio)
  }

  /** Inverted: the opposite vector. */
  function Inverted(v: Vector): (r: Vector)
    ensures Add(v, r) == Zero
    ensures LengthSqr(r) == LengthSqr(v)
  {
    Vector(-v.x, -v.y)
  }

  function Add(a: Vector, b: Vector): Vector
  {
    Vector(a.x + b.x, a.y + b.y)
  }

  function Sub(a: Vector, b: Vector): (r: Vector)
    ensures Add(r, b) == a
  {
    Vector(a.x - b.x, a.y - b.y)
  }

  function Mul(a: Vector, b: Vector): Vector
  {
    Vector(a.x * b.x, a.y * b.y)
  }

  function Dot(a: Vector, b: Vector): real
  {
    a.x * b.x + a.y * b.y
  }

  /** Both components carry the signed area of (a, b); the second is positive for a left turn. */
  function Cross(a: Vector, b: Vector): (r: Vector)
    ensures r.x == -r.y
    ensures r.y > 0.0 <==> IsLeftWinding(a, b)
    ensures r.y < 0.0 <==> IsRightWinding(a, b)
    ensures r.y == 0.0 <==> !IsLeftWinding(a, b) && !IsRightWinding(a, b)
  {
    Vector(a.y * b.x - a.x * b.y, a.x * b.y - a.y * b.x)
  }

  /** Turning from a to b is counter-clockwise. */
  predicate IsLeftWinding(a: Vector, b: Vector)
  {
    a.x * b.y > a.y * b.x
  }

  /** Turning from a to b is clockwise. */
  predicate IsRightWinding(a: Vector, b: Vector)
  {
    a.x * b.y < a.y * b.x
  }

  /** Counter-clockwise quarter turn. */
  function Rotate90degLeft(v: Vector): (r: Vector)
    ensures LengthSqr(r) == LengthSqr(v)
    ensures Dot(v, r) == 0.0
    ensures Rotate90degRight(r) == v
  {
    Vector(-v.y, v.x)
  }

  /** Clockwise quarter turn. */
  function Rotate90degRight(v: Vector): (r: Vector)
    ensures LengthSqr(r) == LengthSqr(v)
    ensures Dot(v, r) == 0.0
  {
    Vector(v.y, -v.x)
  }

  /** Every component forced into [min, max], lower bound tested first. */
  function Clamp(v: Vector, min: Vector, max: Vector): (r: Vector)
    ensures LessEq(min, max) ==> LessEq(min, r) && LessEq(r, max)
    ensures LessEq(min, v) && LessEq(v, max) ==> r == v
    ensures Scalar.ClampsTo(v.x, min.x, max.x, r.x) && Scalar.ClampsTo(v.y, min.y, max.y, r.y)
  {
    Vector(Scalar.Clamp(v.x, min.x, max.x), Scalar.Clamp(v.y, min.y, max.y))
  }

  function Clamp01(v: Vector): (r: Vector)
    ensures LessEq(Zero, r) && LessEq(r, UnitXY)
    ensures LessEq(Zero, v) && LessEq(v, UnitXY) ==> r == v
    ensures Scalar.ClampsTo(v.x, 0.0, 1.0, r.x) && Scalar.ClampsTo(v.y, 0.0, 1.0, r.y)
  {
    Clamp(v, Zero, UnitXY)
  }

  /** Component-wise minimum; keeps a's component on a tie. */
  function Min(a: Vector, b: Vector): (r: Vector)
    ensures LessEq(r, a) && LessEq(r, b)
    ensures r.x == a.x || r.x == b.x
    ensures r.y == a.y || r.y == b.y
  {
    Vector(Scalar.Min(a.x, b.x), Scalar.Min(a.y, b.y))
  }

  /** Component-wise maximum; keeps a's component on a tie. */
  function Max(a: Vector, b: Vector): (r: Vector)
    ensures LessEq(a, r) && LessEq(b, r)
    ensures r.x == a.x || r.x == b.x
    ensures r.y == a.y || r.y == b.y
  {
    Vector(Scalar.Max(a.x, b.x), Scalar.Max(a.y, b.y))
  }

  /** Linear interpolation with the weight clamped into [0, 1]. */
  function Interpolate(a: Vector, b: Vector, t: real): (r: Vector)
    ensures t <= 0.0 ==> r == a
    ensures t >= 1.0 ==> r == b
    ensures 0.0 <= t <= 1.0 ==> r == Add(a, Scaled(Sub(b, a), t))
  {
    var t' := Scalar.UnitWeight(t);
    var t1 := 1.0 - t';
    Vector(a.x * t1 + b.x * t', a.y * t1 + b.y * t')
  }

  /**
   * Normalize and Normalized. A squared length of exactly 0 or 1 leaves the
   * vector alone; otherwise it is scaled by `ool`, which stands for the
   * 1 / sqrt(LengthSqr(v)) the library computes.
   */
  function Normalized(v: Vector, ool: real): (r: Vector)
    ensures LengthSqr(v) == 0.0 || LengthSqr(v) == 1.0 ==> r == v
    ensures LengthSqr(v) != 0.0 && ool * ool * LengthSqr(v) == 1.0 ==> LengthSqr(r) == 1.0
  {
    var l := LengthSqr(v);
    if l == 0.0 || l == 1.0 then v else Scaled(v, ool)
  }

  /** Quarter turns left and right undo each other; four left turns are the identity. */
  lemma QuarterTurns(v: Vector)
    ensures Rotate90degLeft(Rotate90degRight(v)) == v
    ensures Rotate90degRight(Rotate90degLeft(v)) == v
    ensures Rotate90degLeft(Rotate90degLeft(Rotate90degLeft(Rotate90degLeft(v)))) == v
  {
  }

  /**
   * The direction of the quarter turns: from any non-zero vector, the left
   * turn winds counter-clockwise and the right turn clockwise.
   */
  lemma RotationWinding(v: Vector)
    ensures v != Zero ==> IsLeftWinding(v, Rotate90degLeft(v))
    ensures v != Zero ==> IsRightWinding(v, Rotate90degRight(v))
  {
    Scalar.Square(v.x);
    Scalar.Square(v.y);
  }

  /** Left and right winding are mirror images and exclusive. */
  lemma WindingDuality(a: Vector, b: Vector)
    ensures IsLeftWinding(a, b) <==> IsRightWinding(b, a)
    ensures !(IsLeftWinding(a, b) && IsRightWinding(a, b))
  {
  }

  /** Dot product symmetry, and its value on a vector with itself. */
  lemma DotProperties(a: Vector, b: Vector)
    ensures Dot(a, b) == Dot(b, a)
    ensures Dot(a, a) == LengthSqr(a)
  {
  }

  /** Subtraction is addition of the inverted vector; component products commute. */
  lemma ArithmeticLaws(a: Vector, b: Vector)
    ensures Sub(a, b) == Add(a, Inverted(b))
    ensures Add(a, b) == Add(b, a)
    ensures Mul(a, b) == Mul(b, a)
    ensures Mul(a, UnitXY) == a
  {
  }

  /** Clamping into a well-formed range twice is clamping once. */
  lemma ClampIdempotent(v: Vector, min: Vector, max: Vector)
    requires LessEq(min, max)
    ensures Clamp(Clamp(v, min, max), min, max) == Clamp(v, min, max)
  {
  }

  /** Normalizing a unit vector again changes nothing, whatever factor is supplied. */
  lemma NormalizedUnitFixed(v: Vector, ool: real, ool2: real)
    requires LengthSqr(v) != 0.0 && ool * ool * LengthSqr(v) == 1.0
    ensures Normalized(Normalized(v, ool), ool2) == Normalized(v, ool)
  {
  }

  /** FromNew reads back every vector given through the tensor interface. */
  lemma FromNewRoundTrip(v: Vector)
    ensures FromNew(AsTensor(v)) == v
  {
  }

  /** Scaled multiplies both components by the same factor; factors compose, and 1 changes nothing. */
  lemma ScaledLaws(v: Vector, a: real, b: real)
    ensures Scaled(v, a) == Mul(v, Vector(a, a))
    ensures Scaled(v, 1.0) == v
    ensures Scaled(Scaled(v, a), b) == Scaled(v, a * b)
  {
    assert v.x * a * b == v.x * (a * b);
    assert v.y * a * b == v.y * (a * b);
  }
}
