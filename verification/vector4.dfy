/**
 * Four-component homogeneous vectors (package vector4, vector4.go). The
 * first three components are a point scaled by the fourth, `w`; dividing by
 * `w` recovers the three-dimensional point.
 */
module Vector4 {
  import Scalar
  import Vector3
  import opened Generic
  import opened Wrappers

  datatype Vector = Vector(x: real, y: real, z: real, w: real)

  const Zero := Vector(0.0, 0.0, 0.0, 0.0)
  const UnitXW := Vector(1.0, 0.0, 0.0, 1.0)
  const UnitYW := Vector(0.0, 1.0, 0.0, 1.0)
  const UnitZW := Vector(0.0, 0.0, 1.0, 1.0)
  const UnitXYZW := Vector(1.0, 1.0, 1.0, 1.0)

  /** Component-wise `a <= b`, all four components. */
  predicate LessEq(a: Vector, b: Vector)
  {
    a.x <= b.x && a.y <= b.y && a.z <= b.z && a.w <= b.w
  }

  /** The vector read through the tensor interface: one column, `get(0, i)` is component i. */
  function AsTensor(v: Vector): (r: Tensor)
    ensures r.cols == 1 && r.rows == 4 && r.size == 4
    ensures r.get(0, 0) == v.x && r.get(0, 1) == v.y && r.get(0, 2) == v.z && r.get(0, 3) == v.w
  {
    Tensor(1, 4, 4, (col: int, row: int) =>
      if row == 0 then v.x else if row == 1 then v.y else if row == 2 then v.z else v.w)
  }

  /**
   * Builds a vector from the first column of any tensor of size 2, 3 or 4;
   * missing components are zero. Any other size is unsupported.
   */
  function FromNew(other: Tensor): (r: Result<Vector>)
    ensures r.Ok? <==> 2 <= other.size <= 4
    ensures r.Ok? ==> r.value.x == other.get(0, 0) && r.value.y == other.get(0, 1)
    ensures r.Ok? ==> r.value.z == (if other.size == 2 then 0.0 else other.get(0, 2))
    ensures r.Ok? ==> r.value.w == (if other.size == 4 then other.get(0, 3) else 0.0)
  {
    if other.size == 2 then Ok(Vector(other.get(0, 0), other.get(0, 1), 0.0, 0.0))
    else if other.size == 3 then Ok(Vector(other.get(0, 0), other.get(0, 1), other.get(0, 2), 0.0))
    else if other.size == 4 then Ok(Vector(other.get(0, 0), other.get(0, 1), other.get(0, 2), other.get(0, 3)))
    else Unsupported
  }

  /** The first three components, with no division (the Vector3 conversion). */
  function Xyz(v: Vector): Vector3.Vector
  {
    Vector3.Vector(v.x, v.y, v.z)
  }

  /**
   * The three-dimensional point the vector stands for. A `w` of exactly 1 is
   * returned without dividing.
   */
  function Vec3DividedByW(v: Vector): (r: Vector3.Vector)
    requires v.w != 0.0
    ensures v.w == 1.0 ==> r == Xyz(v)
    ensures Vector3.Scaled(r, v.w) == Xyz(v)
  {
    if v.w == 1.0 then Xyz(v)
    else
      var s := 1.0 / v.w;
      Vector3.Vector(v.x * s, v.y * s, v.z * s)
  }

  /** The copy with `w` divided out: the same point with `w` equal to 1. */
  function DividedByW(v: Vector): (r: Vector)
    requires v.w != 0.0
    ensures r.w == 1.0
    ensures Xyz(r) == Vec3DividedByW(v)
    ensures v.w == 1.0 ==> r == v
  {
    if v.w == 1.0 then v
    else
      var s := 1.0 / v.w;
      Vector(v.x * s, v.y * s, v.z * s, 1.0)
  }

  /** The in-place DivideByW: the three components first, then `w`. */
  method DivideByW(t: Vector) returns (r: Vector)
    requires t.w != 0.0
    ensures r == DividedByW(t)
  {
    r := t;
    if r.w == 1.0 {
      return;
    }
    var s := 1.0 / r.w;
    r := r.(x := r.x * s);
    r := r.(y := r.y * s);
    r := r.(z := r.z * s);
    r := r.(w := 1.0);
  }

  /** The in-place AssignVec3: a point with `w` equal to 1. */
  method AssignVec3(t: Vector, v: Vector3.Vector) returns (r: Vector)
    ensures r.w == 1.0
    ensures Vec3DividedByW(r) == v
  {
    r := t;
    r := r.(x := v.x);
    r := r.(y := v.y);
    r := r.(z := v.z);
    r := r.(w := 1.0);
  }

  /**
   * The squared length of the represented point. (The library's own
   * LengthSqr never returns: see LengthSqrAsWritten.)
   */
  function LengthSqr(v: Vector): (r: real)
    requires v.w != 0.0
    ensures r >= 0.0
    ensures v.w == 1.0 ==> r == Vector3.LengthSqr(Xyz(v))
  {
    Vector3.LengthSqr(Vec3DividedByW(v))
  }

  /**
   * LengthSqr as the library writes it: divide by `w`, then ask the result
   * (again a four-component vector) for its LengthSqr. `fuel` bounds the
   * number of calls; running out of fuel is `None`.
   */
  function LengthSqrAsWritten(v: Vector, fuel: nat): (r: Option<real>)
    requires v.w != 0.0
    decreases fuel
  {
    if fuel == 0 then None else LengthSqrAsWritten(DividedByW(v), fuel - 1)
  }

  /**
   * Why the library's LengthSqr never returns: each call passes DividedByW of
   * its argument to the next, and from the second call on that argument no
   * longer changes, so the same call repeats.
   */
  lemma LengthSqrAsWrittenRepeats(v: Vector, fuel: nat)
    requires v.w != 0.0
    ensures LengthSqrAsWritten(v, fuel + 1) == LengthSqrAsWritten(DividedByW(v), fuel)
    ensures DividedByW(DividedByW(v)) == DividedByW(v)
  {
  }

  /** However much fuel it is given, the library's LengthSqr never produces a value. */
  lemma {:induction false} LengthSqrAsWrittenDiverges(v: Vector, fuel: nat)
    requires v.w != 0.0
    ensures LengthSqrAsWritten(v, fuel) == None
    decreases fuel
  {
    if fuel > 0 {
      LengthSqrAsWrittenDiverges(DividedByW(v), fuel - 1);
    }
  }

  /** The in-place Scale: the three point components are multiplied, `w` is kept. */
  method Scale(t: Vector, ratio: real) returns (r: Vector)
    ensures r == Scaled(t, ratio)
  {
    r := t;
    r := r.(x := r.x * ratio);
    r := r.(y := r.y * ratio);
    r := r.(z := r.z * ratio);
  }

  /** The copy Scale makes: `w` kept, the represented point scaled by `ratio`. */
  function Scaled(v: Vector, ratio: real): (r: Vector)
    ensures r.w == v.w
    ensures Xyz(r) == Vector3.Scaled(Xyz(v), ratio)
  {
    Vector(v.x * ratio, v.y * ratio, v.z * ratio, v.w)
  }

  /** Scaled as the library writes it: the copy is built with `w` equal to 0. */
  function ScaledAsWritten(v: Vector, ratio: real): (r: Vector)
    ensures r.w == 0.0
    ensures Xyz(r) == Xyz(Scaled(v, ratio))
  {
    Vector(v.x * ratio, v.y * ratio, v.z * ratio, 0.0)
  }

  /** The in-place Invert (its ratio argument is unused): `w` is kept. */
  method Invert(t: Vector, ratio: real) returns (r: Vector)
    ensures r == Inverted(t)
  {
    r := t;
    r := r.(x := -r.x);
    r := r.(y := -r.y);
    r := r.(z := -r.z);
  }

  /** The copy Invert makes: the opposite point, `w` kept. */
  function Inverted(v: Vector): (r: Vector)
    ensures r.w == v.w
    ensures Vector3.Add(Xyz(v), Xyz(r)) == Vector3.Zero
  {
    Vector(-v.x, -v.y, -v.z, v.w)
  }

  /** Inverted as the library writes it: the copy is built with `w` equal to 0. */
  function InvertedAsWritten(v: Vector): (r: Vector)
    ensures r.w == 0.0
    ensures Xyz(r) == Xyz(Inverted(v))
  {
    Vector(-v.x, -v.y, -v.z, 0.0)
  }

  /** Scaling by 1 and inverting twice give the vector back, `w` included. */
  lemma ScaledInvertedIdentities(v: Vector)
    ensures Scaled(v, 1.0) == v
    ensures Inverted(Inverted(v)) == v
  {
  }

  /** The copies as written lose `w`: UnitXW scaled by 1 is not UnitXW, nor is it inverted twice. */
  lemma ScaledAsWrittenDropsW()
    ensures ScaledAsWritten(UnitXW, 1.0) != UnitXW
  {
    var s := ScaledAsWritten(UnitXW, 1.0);
    assert s.w == 0.0;
  }

  lemma InvertedAsWrittenDropsW()
    ensures InvertedAsWritten(InvertedAsWritten(UnitXW)) != UnitXW
  {
    var i := InvertedAsWritten(UnitXW);
    assert InvertedAsWritten(i).w == 0.0;
  }

  /**
   * Normalize and Normalized: the represented point normalized (with `ool`
   * standing for its reciprocal length), as a point with `w` equal to 1.
   */
  function Normalized(v: Vector, ool: real): (r: Vector)
    requires v.w != 0.0
    ensures r.w == 1.0
    ensures var l := Vector3.LengthSqr(Vec3DividedByW(v)); l == 0.0 || l == 1.0 ==> r == DividedByW(v)
    ensures var l := Vector3.LengthSqr(Vec3DividedByW(v)); l != 0.0 && ool * ool * l == 1.0 ==> LengthSqr(r) == 1.0
  {
    var n := Vector3.Normalized(Vec3DividedByW(v), ool);
    Vector(n.x, n.y, n.z, 1.0)
  }

  /** The normal of the first three components (undivided), as a point with `w` equal to 1. */
  function Normal(v: Vector, ool: real): (r: Vector)
    ensures r.w == 1.0 && r.z == 0.0
    ensures v.x == 0.0 && v.y == 0.0 ==> r == UnitXW
  {
    var n := Vector3.Normal(Xyz(v), ool);
    Vector(n.x, n.y, n.z, 1.0)
  }

  /** Normal is perpendicular to the first three components. */
  lemma NormalPerpendicular(v: Vector, ool: real)
    requires !(v.x == 0.0 && v.y == 0.0)
    ensures Vector3.Dot(Xyz(Normal(v, ool)), Xyz(v)) == 0.0
  {
    Vector3.NormalPerpendicular(Xyz(v), ool);
  }

  /** The two operands of Add and Sub can be combined: equal `w`, or both divisible. */
  predicate Combinable(a: Vector, b: Vector)
  {
    a.w == b.w || (a.w != 0.0 && b.w != 0.0)
  }

  /** Equal `w`: add the components and keep `w`; otherwise add the points and set `w` to 1. */
  function Add(a: Vector, b: Vector): (r: Vector)
    requires Combinable(a, b)
    ensures a.w == b.w ==> r.w == a.w && Xyz(r) == Vector3.Add(Xyz(a), Xyz(b))
    ensures a.w != b.w ==> r.w == 1.0 && Xyz(r) == Vector3.Add(Vec3DividedByW(a), Vec3DividedByW(b))
  {
    if a.w == b.w then Vector(a.x + b.x, a.y + b.y, a.z + b.z, a.w)
    else
      var a1 := Vec3DividedByW(a);
      var b1 := Vec3DividedByW(b);
      Vector(a1.x + b1.x, a1.y + b1.y, a1.z + b1.z, 1.0)
  }

  /** Equal `w`: subtract the components and keep `w`; otherwise subtract the points and set `w` to 1. */
  function Sub(a: Vector, b: Vector): (r: Vector)
    requires Combinable(a, b)
    ensures a.w == b.w ==> r.w == a.w && Xyz(r) == Vector3.Sub(Xyz(a), Xyz(b))
    ensures a.w != b.w ==> r.w == 1.0 && Xyz(r) == Vector3.Sub(Vec3DividedByW(a), Vec3DividedByW(b))
  {
    if a.w == b.w then Vector(a.x - b.x, a.y - b.y, a.z - b.z, a.w)
    else
      var a1 := Vec3DividedByW(a);
      var b1 := Vec3DividedByW(b);
      Vector(a1.x - b1.x, a1.y - b1.y, a1.z - b1.z, 1.0)
  }

  /** The in-place Add: with different `w`, the receiver is divided in place first. */
  method AddInPlace(t: Vector, v: Vector) returns (r: Vector)
    requires Combinable(t, v)
    ensures r == Add(t, v)
  {
    r := t;
    if r.w == v.w {
      r := r.(x := r.x + v.x);
      r := r.(y := r.y + v.y);
      r := r.(z := r.z + v.z);
      return;
    }
    r := DivideByW(r);
    var v3 := Vec3DividedByW(v);
    r := r.(x := r.x + v3.x);
    r := r.(y := r.y + v3.y);
    r := r.(z := r.z + v3.z);
  }

  /** The in-place Sub: with different `w`, the receiver is divided in place first. */
  method SubInPlace(t: Vector, v: Vector) returns (r: Vector)
    requires Combinable(t, v)
    ensures r == Sub(t, v)
  {
    r := t;
    if r.w == v.w {
      r := r.(x := r.x - v.x);
      r := r.(y := r.y - v.y);
      r := r.(z := r.z - v.z);
      return;
    }
    r := DivideByW(r);
    var v3 := Vec3DividedByW(v);
    r := r.(x := r.x - v3.x);
    r := r.(y := r.y - v3.y);
    r := r.(z := r.z - v3.z);
  }

  /** Add and Sub of two points give the sum and difference of the points they stand for. */
  lemma AddSubArePointwise(a: Vector, b: Vector)
    requires a.w != 0.0 && b.w != 0.0
    ensures Vec3DividedByW(Add(a, b)) == Vector3.Add(Vec3DividedByW(a), Vec3DividedByW(b))
    ensures Vec3DividedByW(Sub(a, b)) == Vector3.Sub(Vec3DividedByW(a), Vec3DividedByW(b))
  {
    if a.w == b.w && a.w != 1.0 {
      var s := 1.0 / a.w;
      assert (a.x + b.x) * s == a.x * s + b.x * s;
      assert (a.y + b.y) * s == a.y * s + b.y * s;
      assert (a.z + b.z) * s == a.z * s + b.z * s;
      assert (a.x - b.x) * s == a.x * s - b.x * s;
      assert (a.y - b.y) * s == a.y * s - b.y * s;
      assert (a.z - b.z) * s == a.z * s - b.z * s;
    }
  }

  /** Every component, `w` included, forced into [min, max], lower bound tested first. */
  function Clamped(v: Vector, min: Vector, max: Vector): (r: Vector)
    ensures LessEq(min, max) ==> LessEq(min, r) && LessEq(r, max)
    ensures LessEq(min, v) && LessEq(v, max) ==> r == v
    ensures Scalar.ClampsTo(v.x, min.x, max.x, r.x) && Scalar.ClampsTo(v.y, min.y, max.y, r.y)
    ensures Scalar.ClampsTo(v.z, min.z, max.z, r.z) && Scalar.ClampsTo(v.w, min.w, max.w, r.w)
  {
    Vector(Scalar.Clamp(v.x, min.x, max.x), Scalar.Clamp(v.y, min.y, max.y),
           Scalar.Clamp(v.z, min.z, max.z), Scalar.Clamp(v.w, min.w, max.w))
  }

  /** The in-place Clamp: the loop over the four components. */
  method Clamp(t: Vector, min: Vector, max: Vector) returns (r: Vector)
    ensures r == Clamped(t, min, max)
  {
    r := t;
    if r.x < min.x { r := r.(x := min.x); } else if r.x > max.x { r := r.(x := max.x); }
    if r.y < min.y { r := r.(y := min.y); } else if r.y > max.y { r := r.(y := max.y); }
    if r.z < min.z { r := r.(z := min.z); } else if r.z > max.z { r := r.(z := max.z); }
    if r.w < min.w { r := r.(w := min.w); } else if r.w > max.w { r := r.(w := max.w); }
  }

  function Clamped01(v: Vector): (r: Vector)
    ensures LessEq(Zero, r) && LessEq(r, UnitXYZW)
    ensures LessEq(Zero, v) && LessEq(v, UnitXYZW) ==> r == v
    ensures Scalar.ClampsTo(v.x, 0.0, 1.0, r.x) && Scalar.ClampsTo(v.y, 0.0, 1.0, r.y)
    ensures Scalar.ClampsTo(v.z, 0.0, 1.0, r.z) && Scalar.ClampsTo(v.w, 0.0, 1.0, r.w)
  {
    Clamped(v, Zero, UnitXYZW)
  }

  /** Clamping twice into the same well-ordered bounds is clamping once. */
  lemma ClampIdempotent(v: Vector, min: Vector, max: Vector)
    requires LessEq(min, max)
    ensures Clamped(Clamped(v, min, max), min, max) == Clamped(v, min, max)
  {
  }

  /** The dot product of the represented points. */
  function Dot(a: Vector, b: Vector): (r: real)
    requires a.w != 0.0 && b.w != 0.0
    ensures a.w == 1.0 && b.w == 1.0 ==> r == a.x * b.x + a.y * b.y + a.z * b.z
  {
    Vector3.Dot(Vec3DividedByW(a), Vec3DividedByW(b))
  }

  /** The four-component dot product. */
  function Dot4(a: Vector, b: Vector): (r: real)
    ensures a.w == 0.0 || b.w == 0.0 ==> r == Vector3.Dot(Xyz(a), Xyz(b))
    ensures r == Vector3.Dot(Xyz(a), Xyz(b)) + a.w * b.w
  {
    a.x * b.x + a.y * b.y + a.z * b.z + a.w * b.w
  }

  /** The cross product of the represented points, as a point with `w` equal to 1. */
  function Cross(a: Vector, b: Vector): (r: Vector)
    requires a.w != 0.0 && b.w != 0.0
    ensures r.w == 1.0
    ensures Dot(r, a) == 0.0 && Dot(r, b) == 0.0
    ensures Xyz(r) == Vector3.Cross(Vec3DividedByW(a), Vec3DividedByW(b))
  {
    var c := Vector3.Cross(Vec3DividedByW(a), Vec3DividedByW(b));
    Vector(c.x, c.y, c.z, 1.0)
  }

  /** Both dot products are symmetric; Dot does not change when `w` is divided out first. */
  lemma DotLaws(a: Vector, b: Vector)
    requires a.w != 0.0 && b.w != 0.0
    ensures Dot(a, b) == Dot(b, a)
    ensures Dot4(a, b) == Dot4(b, a)
    ensures Dot(DividedByW(a), b) == Dot(a, b)
  {
  }

  /** Dividing by `w` is idempotent. */
  lemma DividedByWIdempotent(v: Vector)
    requires v.w != 0.0
    ensures DividedByW(DividedByW(v)) == DividedByW(v)
    ensures Vec3DividedByW(DividedByW(v)) == Vec3DividedByW(v)
  {
  }

  /** Linear interpolation of all four components, the weight clamped into [0, 1]. */
  function Interpolate(a: Vector, b: Vector, t: real): (r: Vector)
    ensures t <= 0.0 ==> r == a
    ensures t >= 1.0 ==> r == b
    ensures 0.0 <= t <= 1.0 ==> r.w == a.w + (b.w - a.w) * t
    ensures 0.0 <= t <= 1.0 ==> Xyz(r) == Vector3.Interpolate(Xyz(a), Xyz(b), t)
  {
    var t' := Scalar.UnitWeight(t);
    var t1 := 1.0 - t';
    Vector(a.x * t1 + b.x * t', a.y * t1 + b.y * t', a.z * t1 + b.z * t', a.w * t1 + b.w * t')
  }

  /** FromNew reads back every vector given through the tensor interface. */
  lemma FromNewRoundTrip(v: Vector)
    ensures FromNew(AsTensor(v)) == Ok(v)
  {
  }

  /**
   * LengthSqr depends only on the represented point: scaling all four
   * components by the same non-zero `k` leaves it unchanged.
   */
  lemma LengthSqrHomogeneous(v: Vector, k: real)
    requires v.w != 0.0 && k != 0.0
    ensures LengthSqr(Vector(k * v.x, k * v.y, k * v.z, k * v.w)) == LengthSqr(v)
  {
    var u := Vector(k * v.x, k * v.y, k * v.z, k * v.w);
    assert u.w != 0.0;
    assert (k * v.x) / (k * v.w) == v.x / v.w;
    assert (k * v.y) / (k * v.w) == v.y / v.w;
    assert (k * v.z) / (k * v.w) == v.z / v.w;
    assert Vec3DividedByW(u) == Vec3DividedByW(v);
  }
}
