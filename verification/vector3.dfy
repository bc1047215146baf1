/** Three-component vectors (package vector3, vector3.go). */
module Vector3 {
  import Scalar
  import opened Generic
  import opened Wrappers

  datatype Vector = Vector(x: real, y: real, z: real)

  const Zero := Vector(0.0, 0.0, 0.0)
  const UnitX := Vector(1.0, 0.0, 0.0)
  const UnitY := Vector(0.0, 1.0, 0.0)
  const UnitZ := Vector(0.0, 0.0, 1.0)
  const UnitXYZ := Vector(1.0, 1.0, 1.0)

  /** The vector read through the tensor interface: one row, `get(0, i)` is component i. */
  function AsTensor(v: Vector): (r: Tensor)
    ensures r.cols == 3 && r.rows == 1 && r.size == 3
    ensures r.get(0, 0) == v.x && r.get(0, 1) == v.y && r.get(0, 2) == v.z
  {
    Tensor(3, 1, 3, (row: int, col: int) => if col == 0 then v.x else if col == 1 then v.y else v.z)
  }

  /**
   * Builds a vector from any tensor of size 2, 3 or 4, reading `get(0, i)`;
   * a size-2 tensor leaves `z` zero and a size-4 one loses its last value.
   * Any other size is unsupported.
   */
  function FromNew(other: Tensor): (r: Result<Vector>)
    ensures r.Ok? <==> 2 <= other.size <= 4
    ensures r.Ok? ==> r.value.x == other.get(0, 0) && r.value.y == other.get(0, 1)
    ensures r.Ok? ==> r.value.z == (if other.size == 2 then 0.0 else other.get(0, 2))
  {
    if other.size == 2 then Ok(Vector(other.get(0, 0), other.get(0, 1), 0.0))
    else if other.size == 3 || other.size == 4 then Ok(Vector(other.get(0, 0), other.get(0, 1), other.get(0, 2)))
    else Unsupported
  }

  /** Component-wise `a <= b`. */
  predicate LessEq(a: Vector, b: Vector)
  {
    a.x <= b.x && a.y <= b.y && a.z <= b.z
  }

  predicate IsZero(v: Vector)
  {
    v.x == 0.0 && v.y == 0.0 && v.z == 0.0
  }

  function LengthSqr(v: Vector): (r: real)
    ensures r >= 0.0
  {
    Scalar.Square(v.x);
    Scalar.Square(v.y);
    Scalar.Square(v.z);
    v.x * v.x + v.y * v.y + v.z * v.z
  }

  /** Scale and Scaled: every component multiplied by `ratio`. */
  function Scaled(v: Vector, ratio: real): Vector
  {
    Vector(v.x * ratio, v.y * ratio, v.z * ratio)
  }

  /** Inverted: the opposite vector. */
  function Inverted(v: Vector): (r: Vector)
    ensures Add(v, r) == Zero
    ensures LengthSqr(r) == LengthSqr(v)
  {
    Vector(-v.x, -v.y, -v.z)
  }

  /** Absed: component-wise absolute value. */
  function Absed(v: Vector): (r: Vector)
    ensures LessEq(Zero, r)
    ensures r.x == v.x || r.x == -v.x
    ensures r.y == v.y || r.y == -v.y
    ensures r.z == v.z || r.z == -v.z
  {
    Vector(Scalar.Abs(v.x), Scalar.Abs(v.y), Scalar.Abs(v.z))
  }

  /** Abs: the in-place absolute value, one component after another. */
  method Abs(v: Vector) returns (t: Vector)
    ensures t == Absed(v)
  {
    t := v;
    t := t.(x := Scalar.Abs(t.x));
    t := t.(y := Scalar.Abs(t.y));
    t := t.(z := Scalar.Abs(t.z));
  }

  /**
   * Normalize and Normalized. A squared length of exactly 0 or 1 leaves the
   * vector alone; otherwise it is scaled by `ool`, which stands for the
   * 1 / sqrt(LengthSqr(v)) the library computes.
   */
  function Normalized(v: Vector, ool: real): (r: Vector)
    ensures LengthSqr(v) == 0.0 || LengthSqr(v) == 1.0 ==> r == v
    ensures LengthSqr(v) != 0.0 && ool * ool * LengthSqr(v) == 1.0 ==> LengthSqr(r) == 1.0
  {
    var l := LengthSqr(v);
    ScaledLength(v, ool);
    if l == 0.0 || l == 1.0 then v else Scaled(v, ool)
  }

  /**
   * A vector perpendicular to both v and the z axis; UnitX when v lies on the
   * z axis. `ool` is the reciprocal square root handed to Normalized.
   */
  function Normal(v: Vector, ool: real): (r: Vector)
    ensures v.x == 0.0 && v.y == 0.0 ==> r == UnitX
    ensures r.z == 0.0
  {
    var n := Cross(v, UnitZ);
    if IsZero(n) then UnitX else Normalized(n, ool)
  }

  function Add(a: Vector, b: Vector): Vector
  {
    Vector(a.x + b.x, a.y + b.y, a.z + b.z)
  }

  function Sub(a: Vector, b: Vector): (r: Vector)
    ensures Add(r, b) == a
  {
    Vector(a.x - b.x, a.y - b.y, a.z - b.z)
  }

  function Mul(a: Vector, b: Vector): Vector
  {
    Vector(a.x * b.x, a.y * b.y, a.z * b.z)
  }

  /** The in-place Add method: one component after another. */
  method AddInPlace(t: Vector, v: Vector) returns (r: Vector)
    ensures r == Add(t, v)
  {
    r := t;
    r := r.(x := r.x + v.x);
    r := r.(y := r.y + v.y);
    r := r.(z := r.z + v.z);
  }

  /** The in-place Sub method: one component after another. */
  method SubInPlace(t: Vector, v: Vector) returns (r: Vector)
    ensures r == Sub(t, v)
  {
    r := t;
    r := r.(x := r.x - v.x);
    r := r.(y := r.y - v.y);
    r := r.(z := r.z - v.z);
  }

  /** The in-place Mul method: one component after another. */
  method MulInPlace(t: Vector, v: Vector) returns (r: Vector)
    ensures r == Mul(t, v)
  {
    r := t;
    r := r.(x := r.x * v.x);
    r := r.(y := r.y * v.y);
    r := r.(z := r.z * v.z);
  }

  function Dot(a: Vector, b: Vector): real
  {
    a.x * b.x + a.y * b.y + a.z * b.z
  }

  /** The cross product is perpendicular to both factors. */
  function Cross(a: Vector, b: Vector): (r: Vector)
    ensures Dot(r, a) == 0.0
    ensures Dot(r, b) == 0.0
  {
    Vector(a.y * b.z - a.z * b.y, a.z * b.x - a.x * b.z, a.x * b.y - a.y * b.x)
  }

  /** Squared distance: the squared length of the difference. */
  function SquareDistance(a: Vector, b: Vector): (r: real)
    ensures r >= 0.0
    ensures a == b ==> r == 0.0
  {
    LengthSqr(Sub(a, b))
  }

  /** Every component forced into [min, max], lower bound tested first. */
  function Clamp(v: Vector, min: Vector, max: Vector): (r: Vector)
    ensures LessEq(min, max) ==> LessEq(min, r) && LessEq(r, max)
    ensures LessEq(min, v) && LessEq(v, max) ==> r == v
    ensures Scalar.ClampsTo(v.x, min.x, max.x, r.x) && Scalar.ClampsTo(v.y, min.y, max.y, r.y)
    ensures Scalar.ClampsTo(v.z, min.z, max.z, r.z)
  {
    Vector(Scalar.Clamp(v.x, min.x, max.x), Scalar.Clamp(v.y, min.y, max.y), Scalar.Clamp(v.z, min.z, max.z))
  }

  function Clamp01(v: Vector): (r: Vector)
    ensures LessEq(Zero, r) && LessEq(r, UnitXYZ)
    ensures LessEq(Zero, v) && LessEq(v, UnitXYZ) ==> r == v
    ensures Scalar.ClampsTo(v.x, 0.0, 1.0, r.x) && Scalar.ClampsTo(v.y, 0.0, 1.0, r.y)
    ensures Scalar.ClampsTo(v.z, 0.0, 1.0, r.z)
  {
    Clamp(v, Zero, UnitXYZ)
  }

  /** Component-wise minimum; keeps a's component on a tie. */
  function Min(a: Vector, b: Vector): (r: Vector)
    ensures LessEq(r, a) && LessEq(r, b)
    ensures r.x == a.x || r.x == b.x
    ensures r.y == a.y || r.y == b.y
    ensures r.z == a.z || r.z == b.z
  {
    Vector(Scalar.Min(a.x, b.x), Scalar.Min(a.y, b.y), Scalar.Min(a.z, b.z))
  }

  /** Component-wise maximum; keeps a's component on a tie. */
  function Max(a: Vector, b: Vector): (r: Vector)
    ensures LessEq(a, r) && LessEq(b, r)
    ensures r.x == a.x || r.x == b.x
    ensures r.y == a.y || r.y == b.y
    ensures r.z == a.z || r.z == b.z
  {
    Vector(Scalar.Max(a.x, b.x), Scalar.Max(a.y, b.y), Scalar.Max(a.z, b.z))
  }

  /** Linear interpolation with the weight clamped into [0, 1]. */
  function Interpolate(a: Vector, b: Vector, t: real): (r: Vector)
    ensures t <= 0.0 ==> r == a
    ensures t >= 1.0 ==> r == b
    ensures 0.0 <= t <= 1.0 ==> r == Add(a, Scaled(Sub(b, a), t))
  {
    var t' := Scalar.UnitWeight(t);
    var t1 := 1.0 - t';
    Vector(a.x * t1 + b.x * t', a.y * t1 + b.y * t', a.z * t1 + b.z * t')
  }

  /** Scaling by `ratio` multiplies the squared length by ratio². */
  lemma ScaledLength(v: Vector, ratio: real)
    ensures LengthSqr(Scaled(v, ratio)) == ratio * ratio * LengthSqr(v)
  {
    var r := Scaled(v, ratio);
    assert r.x * r.x == ratio * ratio * (v.x * v.x);
    assert r.y * r.y == ratio * ratio * (v.y * v.y);
    assert r.z * r.z == ratio * ratio * (v.z * v.z);
  }

  /** The squared length vanishes exactly at the zero vector. */
  lemma LengthSqrZero(v: Vector)
    ensures LengthSqr(v) == 0.0 <==> v == Zero
  {
    Scalar.Square(v.x);
    Scalar.Square(v.y);
    Scalar.Square(v.z);
    if v.x != 0.0 {
      calc {
        LengthSqr(v);
        v.x * v.x + (v.y * v.y + v.z * v.z);
      >= 
        v.x * v.x;
      > 
        0.0;
      }
    } else if v.y != 0.0 {
      calc {
        LengthSqr(v);
        v.y * v.y + (v.x * v.x + v.z * v.z);
      >= 
        v.y * v.y;
      > 
        0.0;
      }
    } else if v.z != 0.0 {
      calc {
        LengthSqr(v);
        v.z * v.z + (v.x * v.x + v.y * v.y);
      >= 
        v.z * v.z;
      > 
        0.0;
      }
    }
  }

  /** Subtraction is addition of the inverted vector; Add and Mul commute. */
  lemma ArithmeticLaws(a: Vector, b: Vector)
    ensures Sub(a, b) == Add(a, Inverted(b))
    ensures Add(a, b) == Add(b, a)
    ensures Mul(a, b) == Mul(b, a)
    ensures Mul(a, UnitXYZ) == a
  {
  }

  /** The cross product is anti-commutative; the dot product is symmetric. */
  lemma ProductLaws(a: Vector, b: Vector)
    ensures Cross(a, b) == Inverted(Cross(b, a))
    ensures Dot(a, b) == Dot(b, a)
    ensures Dot(a, a) == LengthSqr(a)
  {
  }

  /** Absolute value is idempotent. */
  lemma AbsIdempotent(v: Vector)
    ensures Absed(Absed(v)) == Absed(v)
  {
  }

  /** The zero branch of Normal is taken exactly for vectors on the z axis. */
  lemma NormalZeroBranch(v: Vector)
    ensures IsZero(Cross(v, UnitZ)) <==> v.x == 0.0 && v.y == 0.0
  {
  }

  /** Off the z axis, Normal is perpendicular to v. */
  lemma NormalPerpendicular(v: Vector, ool: real)
    requires !(v.x == 0.0 && v.y == 0.0)
    ensures Dot(Normal(v, ool), v) == 0.0
  {
    var n := Cross(v, UnitZ);
    assert n == Vector(v.y, -v.x, 0.0);
    assert Dot(n, v) == 0.0;
    var l := LengthSqr(n);
    if !(l == 0.0 || l == 1.0) {
      calc {
        Dot(Scaled(n, ool), v);
        (v.y * ool) * v.x + (-v.x * ool) * v.y + 0.0 * ool * v.z;
        ool * (v.y * v.x - v.x * v.y);
        0.0;
      }
    }
  }

  /** With the right reciprocal root, Normal is a unit vector. */
  lemma NormalIsUnit(v: Vector, ool: real)
    requires !(v.x == 0.0 && v.y == 0.0)
    requires ool * ool * LengthSqr(Cross(v, UnitZ)) == 1.0
    ensures LengthSqr(Normal(v, ool)) == 1.0
  {
    var n := Cross(v, UnitZ);
    assert n == Vector(v.y, -v.x, 0.0);
    assert !IsZero(n) && n != Zero;
    LengthSqrZero(n);
    assert LengthSqr(n) != 0.0;
    assert Normal(v, ool) == Normalized(n, ool);
  }

  /** Squared distance is symmetric and zero exactly between equal points. */
  lemma SquareDistanceLaws(a: Vector, b: Vector)
    ensures SquareDistance(a, b) == SquareDistance(b, a)
    ensures SquareDistance(a, b) == 0.0 <==> a == b
  {
    LengthSqrZero(Sub(a, b));
    assert Sub(a, b) == Zero <==> a == b;
    var d := Sub(a, b);
    assert Sub(b, a) == Inverted(d);
  }

  /** Clamping into a well-formed range twice is clamping once. */
  lemma ClampIdempotent(v: Vector, min: Vector, max: Vector)
    requires LessEq(min, max)
    ensures Clamp(Clamp(v, min, max), min, max) == Clamp(v, min, max)
  {
  }

  /** FromNew reads back every vector given through the tensor interface. */
  lemma FromNewRoundTrip(v: Vector)
    ensures FromNew(AsTensor(v)) == Ok(v)
  {
  }

  /**
   * The cross product's length: |a × b|² = |a|²|b|² - (a·b)². With
   * perpendicularity this fixes it up to its direction, which CrossBasis fixes.
   */
  lemma CrossMagnitude(a: Vector, b: Vector)
    ensures LengthSqr(Cross(a, b)) == LengthSqr(a) * LengthSqr(b) - Dot(a, b) * Dot(a, b)
  {
    var c := Cross(a, b);
    LagrangeAtoms(a.x, a.y, a.z, b.x, b.y, b.z, c.x, c.y, c.z, LengthSqr(a), LengthSqr(b), Dot(a, b));
  }

  /**
   * Lagrange's identity, |a × b|² = |a|²|b|² - (a·b)², with the cross
   * product, the lengths and the dot product given as plain numbers.
   */
  lemma LagrangeAtoms(a1: real, a2: real, a3: real, b1: real, b2: real, b3: real,
                      c1: real, c2: real, c3: real, la: real, lb: real, d: real)
    requires c1 == a2 * b3 - a3 * b2 && c2 == a3 * b1 - a1 * b3 && c3 == a1 * b2 - a2 * b1
    requires la == a1 * a1 + a2 * a2 + a3 * a3 && lb == b1 * b1 + b2 * b2 + b3 * b3
    requires d == a1 * b1 + a2 * b2 + a3 * b3
    ensures c1 * c1 + c2 * c2 + c3 * c3 == la * lb - d * d
  {
  }

  /** The basis is right-handed: x × y = z, y × z = x, z × x = y. */
  lemma CrossBasis()
    ensures Cross(UnitX, UnitY) == UnitZ && Cross(UnitY, UnitZ) == UnitX && Cross(UnitZ, UnitX) == UnitY
  {
    CrossComponents(UnitX, UnitY);
    CrossComponents(UnitY, UnitZ);
    CrossComponents(UnitZ, UnitX);
  }

  /** Cross's components, for unfolding at given arguments. */
  lemma CrossComponents(a: Vector, b: Vector)
    ensures Cross(a, b) == Vector(a.y * b.z - a.z * b.y, a.z * b.x - a.x * b.z, a.x * b.y - a.y * b.x)
  {
  }
}
