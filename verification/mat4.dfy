/** Column-major 4x4 matrices (package mat4, mat4.go). */
module Mat4 {
  import Vector3
  import Vector4
  import Mat2
  import Mat3
  import opened Generic
  import opened Wrappers

  /** Four columns; `c3.x` is the entry in column 3, row 0 (the x translation). */
  datatype Mat = Mat(c0: Vector4.Vector, c1: Vector4.Vector, c2: Vector4.Vector, c3: Vector4.Vector)

  const Zero := Mat(Vector4.Zero, Vector4.Zero, Vector4.Zero, Vector4.Zero)
  const Ident := Mat(Vector4.Vector(1.0, 0.0, 0.0, 0.0), Vector4.Vector(0.0, 1.0, 0.0, 0.0),
                     Vector4.Vector(0.0, 0.0, 1.0, 0.0), Vector4.Vector(0.0, 0.0, 0.0, 1.0))

  function Column(m: Mat, col: int): Vector4.Vector
    requires 0 <= col < 4
  {
    if col == 0 then m.c0 else if col == 1 then m.c1 else if col == 2 then m.c2 else m.c3
  }

  /** The entry at (col, row). */
  function Get(m: Mat, col: int, row: int): real
    requires 0 <= col < 4 && 0 <= row < 4
  {
    var c := Column(m, col);
    if row == 0 then c.x else if row == 1 then c.y else if row == 2 then c.z else c.w
  }

  /** The matrix read through the tensor interface. */
  function AsTensor(m: Mat): (r: Tensor)
    ensures r.cols == 4 && r.rows == 4 && r.size == 16
    ensures forall col, row | 0 <= col < 4 && 0 <= row < 4 :: r.get(col, row) == Get(m, col, row)
  {
    Tensor(4, 4, 16, (col: int, row: int) => if 0 <= col < 4 && 0 <= row < 4 then Get(m, col, row) else 0.0)
  }

  /**
   * Builds a matrix from a square tensor of order 4 or 5 by copying its
   * top-left 4x4 block; any other shape is unsupported.
   */
  function FromNew(other: Tensor): (r: Result<Mat>)
    ensures r.Ok? <==> other.cols == other.rows && 4 <= other.cols <= 5
    ensures r.Ok? ==> forall col, row | 0 <= col < 4 && 0 <= row < 4 :: Get(r.value, col, row) == other.get(col, row)
  {
    if other.cols != other.rows || other.cols < 4 || other.cols > 5 then Unsupported
    else Ok(Mat(
      Vector4.Vector(other.get(0, 0), other.get(0, 1), other.get(0, 2), other.get(0, 3)),
      Vector4.Vector(other.get(1, 0), other.get(1, 1), other.get(1, 2), other.get(1, 3)),
      Vector4.Vector(other.get(2, 0), other.get(2, 1), other.get(2, 2), other.get(2, 3)),
      Vector4.Vector(other.get(3, 0), other.get(3, 1), other.get(3, 2), other.get(3, 3))))
  }

  /** Entries other than the diagonal agree. */
  predicate SameOffDiagonal(a: Mat, b: Mat)
  {
    forall col, row | 0 <= col < 4 && 0 <= row < 4 && col != row :: Get(a, col, row) == Get(b, col, row)
  }

  /** The diagonal. */
  function Scaling(m: Mat): Vector4.Vector
  {
    Vector4.Vector(m.c0.x, m.c1.y, m.c2.z, m.c3.w)
  }

  /** Replaces the diagonal by `s`; the other entries stay. */
  function SetScaling(m: Mat, s: Vector4.Vector): (r: Mat)
    ensures Scaling(r) == s
    ensures SameOffDiagonal(r, m)
  {
    Mat(m.c0.(x := s.x), m.c1.(y := s.y), m.c2.(z := s.z), m.c3.(w := s.w))
  }

  /** Scale and Scaled: the first three diagonal entries are multiplied by `f`; everything else stays. */
  function Scaled(m: Mat, f: real): (r: Mat)
    ensures Scaling(r) == Vector4.Scaled(Scaling(m), f)
    ensures SameOffDiagonal(r, m)
    ensures Trace3(r) == Trace3(m) * f
  {
    SetScaling(m, Vector4.Vector(m.c0.x * f, m.c1.y * f, m.c2.z * f, m.c3.w))
  }

  /** Multiplies the first three diagonal entries by the components of `s`; everything else stays. */
  function ScaleVec3(m: Mat, s: Vector3.Vector): (r: Mat)
    ensures Vector4.Xyz(Scaling(r)) == Vector3.Mul(Vector4.Xyz(Scaling(m)), s)
    ensures r.c3.w == m.c3.w
    ensures SameOffDiagonal(r, m)
  {
    SetScaling(m, Vector4.Vector(m.c0.x * s.x, m.c1.y * s.y, m.c2.z * s.z, m.c3.w))
  }

  /**
   * Mul and Muled: every column scaled with the vector Scale, which leaves
   * row 3 alone; rows 0 to 2 are multiplied by `f`.
   */
  function Muled(m: Mat, f: real): (r: Mat)
    ensures forall col | 0 <= col < 4 :: Get(r, col, 3) == Get(m, col, 3)
    ensures forall col, row | 0 <= col < 4 && 0 <= row < 3 :: Get(r, col, row) == Get(m, col, row) * f
  {
    Mat(Vector4.Vector(m.c0.x * f, m.c0.y * f, m.c0.z * f, m.c0.w), Vector4.Vector(m.c1.x * f, m.c1.y * f, m.c1.z * f, m.c1.w),
        Vector4.Vector(m.c2.x * f, m.c2.y * f, m.c2.z * f, m.c2.w), Vector4.Vector(m.c3.x * f, m.c3.y * f, m.c3.z * f, m.c3.w))
  }

  /** The in-place Mul: the loop scaling one column after another. */
  method Mul(t: Mat, f: real) returns (r: Mat)
    ensures r == Muled(t, f)
  {
    r := t;
    var c := Vector4.Scale(r.c0, f);
    r := r.(c0 := c);
    c := Vector4.Scale(r.c1, f);
    r := r.(c1 := c);
    c := Vector4.Scale(r.c2, f);
    r := r.(c2 := c);
    c := Vector4.Scale(r.c3, f);
    r := r.(c3 := c);
  }

  function Trace(m: Mat): real
  {
    m.c0.x + m.c1.y + m.c2.z + m.c3.w
  }

  /** The trace of the upper-left 3x3 block. */
  function Trace3(m: Mat): (r: real)
    ensures r + m.c3.w == Trace(m)
  {
    m.c0.x + m.c1.y + m.c2.z
  }

  /** The 2x2 matrix copied column for column into the upper-left block; the rest is the identity. */
  function AssignMat2x2(m: Mat2.Mat): (r: Mat)
    ensures forall col, row | 0 <= col < 2 && 0 <= row < 2 :: Get(r, col, row) == Mat2.Get(m, col, row)
    ensures forall col, row | 0 <= col < 4 && 0 <= row < 4 && (col >= 2 || row >= 2) :: Get(r, col, row) == Get(Ident, col, row)
  {
    Mat(Vector4.Vector(m.c0.x, m.c0.y, 0.0, 0.0), Vector4.Vector(m.c1.x, m.c1.y, 0.0, 0.0),
        Vector4.Vector(0.0, 0.0, 1.0, 0.0), Vector4.Vector(0.0, 0.0, 0.0, 1.0))
  }

  /** The 3x3 matrix copied column for column into the upper-left block; the rest is the identity. */
  function AssignMat3x3(m: Mat3.Mat): (r: Mat)
    ensures forall col, row | 0 <= col < 3 && 0 <= row < 3 :: Get(r, col, row) == Mat3.Get(m, col, row)
    ensures forall col, row | 0 <= col < 4 && 0 <= row < 4 && (col == 3 || row == 3) :: Get(r, col, row) == Get(Ident, col, row)
  {
    Mat(Vector4.Vector(m.c0.x, m.c0.y, m.c0.z, 0.0), Vector4.Vector(m.c1.x, m.c1.y, m.c1.z, 0.0),
        Vector4.Vector(m.c2.x, m.c2.y, m.c2.z, 0.0), Vector4.Vector(0.0, 0.0, 0.0, 1.0))
  }

  /** The product with a column vector. */
  function MulVec4(m: Mat, v: Vector4.Vector): Vector4.Vector
  {
    Vector4.Vector(
      m.c0.x * v.x + m.c1.x * v.y + m.c2.x * v.z + m.c3.x * v.w,
      m.c0.y * v.x + m.c1.y * v.y + m.c2.y * v.z + m.c3.y * v.w,
      m.c0.z * v.x + m.c1.z * v.y + m.c2.z * v.z + m.c3.z * v.w,
      m.c0.w * v.x + m.c1.w * v.y + m.c2.w * v.z + m.c3.w * v.w)
  }

  /** The matrix product `a * b`, one column of `b` at a time. */
  function AssignMul(a: Mat, b: Mat): Mat
  {
    Mat(MulVec4(a, b.c0), MulVec4(a, b.c1), MulVec4(a, b.c2), MulVec4(a, b.c3))
  }

  /**
   * TransformVec4: the new x, y and z are computed first, `w` is written
   * next from the original components, then x, y and z.
   */
  method TransformVec4(m: Mat, v: Vector4.Vector) returns (r: Vector4.Vector)
    ensures r == MulVec4(m, v)
  {
    r := v;
    var x := m.c0.x * r.x + m.c1.x * r.y + m.c2.x * r.z + m.c3.x * r.w;
    var y := m.c0.y * r.x + m.c1.y * r.y + m.c2.y * r.z + m.c3.y * r.w;
    var z := m.c0.z * r.x + m.c1.z * r.y + m.c2.z * r.z + m.c3.z * r.w;
    r := r.(w := m.c0.w * r.x + m.c1.w * r.y + m.c2.w * r.z + m.c3.w * r.w);
    r := r.(x := x);
    r := r.(y := y);
    r := r.(z := z);
  }

  /** MulVec3W: the point (v, w) transformed, with its fourth component dropped. */
  function MulVec3W(m: Mat, v: Vector3.Vector, w: real): (r: Vector3.Vector)
    ensures r == Vector4.Xyz(MulVec4(m, Vector4.Vector(v.x, v.y, v.z, w)))
  {
    Vector3.Vector(
      m.c0.x * v.x + m.c1.x * v.y + m.c2.x * v.z + m.c3.x * w,
      m.c0.y * v.x + m.c1.y * v.y + m.c2.y * v.z + m.c3.y * w,
      m.c0.z * v.x + m.c1.z * v.y + m.c2.z * v.z + m.c3.z * w)
  }

  /**
   * TransformVec3W: x and y are computed first, z is written next from the
   * original components, then x and y.
   */
  method TransformVec3W(m: Mat, v: Vector3.Vector, w: real) returns (r: Vector3.Vector)
    ensures r == MulVec3W(m, v, w)
  {
    r := v;
    var x := m.c0.x * r.x + m.c1.x * r.y + m.c2.x * r.z + m.c3.x * w;
    var y := m.c0.y * r.x + m.c1.y * r.y + m.c2.y * r.z + m.c3.y * w;
    r := r.(z := m.c0.z * r.x + m.c1.z * r.y + m.c2.z * r.z + m.c3.z * w);
    r := r.(x := x);
    r := r.(y := y);
  }

  /** The translation part: rows 0 to 2 of column 3. */
  function Translation(m: Mat): Vector3.Vector
  {
    Vector4.Xyz(m.c3)
  }

  /** Every entry except rows 0 to 2 of column 3 agrees. */
  predicate SameOutsideTranslation(a: Mat, b: Mat)
  {
    forall col, row | 0 <= col < 4 && 0 <= row < 4 && !(col == 3 && row < 3) :: Get(a, col, row) == Get(b, col, row)
  }

  function SetTranslation(m: Mat, v: Vector3.Vector): (r: Mat)
    ensures Translation(r) == v
    ensures SameOutsideTranslation(r, m)
  {
    m.(c3 := m.c3.(x := v.x, y := v.y, z := v.z))
  }

  function Translate(m: Mat, v: Vector3.Vector): (r: Mat)
    ensures Translation(r) == Vector3.Add(Translation(m), v)
    ensures SameOutsideTranslation(r, m)
  {
    m.(c3 := m.c3.(x := m.c3.x + v.x, y := m.c3.y + v.y, z := m.c3.z + v.z))
  }

  function TranslateX(m: Mat, dx: real): (r: Mat)
    ensures Translation(r) == Vector3.Add(Translation(m), Vector3.Vector(dx, 0.0, 0.0))
    ensures SameOutsideTranslation(r, m)
  {
    m.(c3 := m.c3.(x := m.c3.x + dx))
  }

  function TranslateY(m: Mat, dy: real): (r: Mat)
    ensures Translation(r) == Vector3.Add(Translation(m), Vector3.Vector(0.0, dy, 0.0))
    ensures SameOutsideTranslation(r, m)
  {
    m.(c3 := m.c3.(y := m.c3.y + dy))
  }

  function TranslateZ(m: Mat, dz: real): (r: Mat)
    ensures Translation(r) == Vector3.Add(Translation(m), Vector3.Vector(0.0, 0.0, dz))
    ensures SameOutsideTranslation(r, m)
  {
    m.(c3 := m.c3.(z := m.c3.z + dz))
  }

  /**
   * AssignXRotation with `s` and `c` standing for the sine and cosine of
   * the angle: every entry is overwritten, so the old matrix plays no part.
   */
  function XRotation(s: real, c: real): Mat
  {
    Mat(Vector4.Vector(1.0, 0.0, 0.0, 0.0), Vector4.Vector(0.0, c, s, 0.0),
        Vector4.Vector(0.0, -s, c, 0.0), Vector4.Vector(0.0, 0.0, 0.0, 1.0))
  }

  /** AssignYRotation with `s` and `c` standing for the sine and cosine of the angle. */
  function YRotation(s: real, c: real): Mat
  {
    Mat(Vector4.Vector(c, 0.0, -s, 0.0), Vector4.Vector(0.0, 1.0, 0.0, 0.0),
        Vector4.Vector(s, 0.0, c, 0.0), Vector4.Vector(0.0, 0.0, 0.0, 1.0))
  }

  /** AssignZRotation with `s` and `c` standing for the sine and cosine of the angle. */
  function ZRotation(s: real, c: real): Mat
  {
    Mat(Vector4.Vector(c, s, 0.0, 0.0), Vector4.Vector(-s, c, 0.0, 0.0),
        Vector4.Vector(0.0, 0.0, 1.0, 0.0), Vector4.Vector(0.0, 0.0, 0.0, 1.0))
  }

  /** FromNew reads back every matrix given through the tensor interface. */
  lemma FromNewRoundTrip(m: Mat)
    ensures FromNew(AsTensor(m)) == Ok(m)
  {
    var t := AsTensor(m);
    assert t.get(0, 0) == m.c0.x && t.get(0, 1) == m.c0.y && t.get(0, 2) == m.c0.z && t.get(0, 3) == m.c0.w;
    assert t.get(1, 0) == m.c1.x && t.get(1, 1) == m.c1.y && t.get(1, 2) == m.c1.z && t.get(1, 3) == m.c1.w;
    assert t.get(2, 0) == m.c2.x && t.get(2, 1) == m.c2.y && t.get(2, 2) == m.c2.z && t.get(2, 3) == m.c2.w;
    assert t.get(3, 0) == m.c3.x && t.get(3, 1) == m.c3.y && t.get(3, 2) == m.c3.z && t.get(3, 3) == m.c3.w;
  }

  /** Scaling reads back what SetScaling wrote, and writing the diagonal back changes nothing. */
  lemma ScalingRoundTrip(m: Mat, s: Vector4.Vector)
    ensures Scaling(SetScaling(m, s)) == s
    ensures SetScaling(m, Scaling(m)) == m
    ensures SetScaling(SetScaling(m, s), Scaling(m)) == m
  {
  }

  /** Translation reads back what SetTranslation wrote; the three single-axis moves make one Translate. */
  lemma TranslationLaws(m: Mat, v: Vector3.Vector)
    ensures Translation(SetTranslation(m, v)) == v
    ensures SetTranslation(m, Translation(m)) == m
    ensures TranslateZ(TranslateY(TranslateX(m, v.x), v.y), v.z) == Translate(m, v)
    ensures Translate(m, v) == SetTranslation(m, Vector3.Add(Translation(m), v))
  {
  }

  /** A translation matrix moves a point (x, y, z, 1) by the translation. */
  lemma TranslationMovesPoints(v: Vector3.Vector, p: Vector3.Vector)
    ensures MulVec4(SetTranslation(Ident, v), Vector4.Vector(p.x, p.y, p.z, 1.0))
         == Vector4.Vector(p.x + v.x, p.y + v.y, p.z + v.z, 1.0)
  {
  }

  /** Column-major storage: the product with a unit vector is the matching column. */
  lemma MulVec4Columns(m: Mat)
    ensures MulVec4(m, Vector4.Vector(1.0, 0.0, 0.0, 0.0)) == m.c0
    ensures MulVec4(m, Vector4.Vector(0.0, 1.0, 0.0, 0.0)) == m.c1
    ensures MulVec4(m, Vector4.Vector(0.0, 0.0, 1.0, 0.0)) == m.c2
    ensures MulVec4(m, Vector4.Vector(0.0, 0.0, 0.0, 1.0)) == m.c3
  {
  }

  /** Ident is the identity of the matrix-vector and matrix-matrix products. */
  lemma IdentLaws(a: Mat, v: Vector4.Vector)
    ensures MulVec4(Ident, v) == v
    ensures AssignMul(Ident, a) == a
    ensures AssignMul(a, Ident) == a
  {
  }

  /**
   * One row of `(a * b) v == a (b v)`: `a0 .. a3` is the row of `a`, `p0 .. p3`
   * the same row of `a * b`, and `q0 .. q3` the vector `b v`.
   */
  lemma RowComposes(a0: real, a1: real, a2: real, a3: real,
                    b00: real, b01: real, b02: real, b03: real, b10: real, b11: real, b12: real, b13: real,
                    b20: real, b21: real, b22: real, b23: real, b30: real, b31: real, b32: real, b33: real,
                    v0: real, v1: real, v2: real, v3: real,
                    p0: real, p1: real, p2: real, p3: real, q0: real, q1: real, q2: real, q3: real)
    requires p0 == a0 * b00 + a1 * b01 + a2 * b02 + a3 * b03 && p1 == a0 * b10 + a1 * b11 + a2 * b12 + a3 * b13
    requires p2 == a0 * b20 + a1 * b21 + a2 * b22 + a3 * b23 && p3 == a0 * b30 + a1 * b31 + a2 * b32 + a3 * b33
    requires q0 == b00 * v0 + b10 * v1 + b20 * v2 + b30 * v3 && q1 == b01 * v0 + b11 * v1 + b21 * v2 + b31 * v3
    requires q2 == b02 * v0 + b12 * v1 + b22 * v2 + b32 * v3 && q3 == b03 * v0 + b13 * v1 + b23 * v2 + b33 * v3
    ensures p0 * v0 + p1 * v1 + p2 * v2 + p3 * v3 == a0 * q0 + a1 * q1 + a2 * q2 + a3 * q3
  {
    calc {
      p0 * v0 + p1 * v1 + p2 * v2 + p3 * v3;
      (a0 * b00 + a1 * b01 + a2 * b02 + a3 * b03) * v0 + (a0 * b10 + a1 * b11 + a2 * b12 + a3 * b13) * v1
        + (a0 * b20 + a1 * b21 + a2 * b22 + a3 * b23) * v2 + (a0 * b30 + a1 * b31 + a2 * b32 + a3 * b33) * v3;
      a0 * (b00 * v0 + b10 * v1 + b20 * v2 + b30 * v3) + a1 * (b01 * v0 + b11 * v1 + b21 * v2 + b31 * v3)
        + a2 * (b02 * v0 + b12 * v1 + b22 * v2 + b32 * v3) + a3 * (b03 * v0 + b13 * v1 + b23 * v2 + b33 * v3);
      a0 * q0 + a1 * q1 + a2 * q2 + a3 * q3;
    }
  }

  /** The product matrix acts as the two factors applied in turn. */
  lemma AssignMulComposes(a: Mat, b: Mat, v: Vector4.Vector)
    ensures MulVec4(AssignMul(a, b), v) == MulVec4(a, MulVec4(b, v))
  {
    var l, r := MulVec4(AssignMul(a, b), v), MulVec4(a, MulVec4(b, v));
    ComposesX(a, b, v);
    ComposesY(a, b, v);
    ComposesZ(a, b, v);
    ComposesW(a, b, v);
    assert l.x == r.x && l.y == r.y && l.z == r.z && l.w == r.w;
  }

  /** Row x of AssignMulComposes. */
  lemma ComposesX(a: Mat, b: Mat, v: Vector4.Vector)
    ensures MulVec4(AssignMul(a, b), v).x == MulVec4(a, MulVec4(b, v)).x
  {
    var ab, bv := AssignMul(a, b), MulVec4(b, v);
    RowComposes(a.c0.x, a.c1.x, a.c2.x, a.c3.x, b.c0.x, b.c0.y, b.c0.z, b.c0.w, b.c1.x, b.c1.y, b.c1.z, b.c1.w,
                b.c2.x, b.c2.y, b.c2.z, b.c2.w, b.c3.x, b.c3.y, b.c3.z, b.c3.w, v.x, v.y, v.z, v.w,
                ab.c0.x, ab.c1.x, ab.c2.x, ab.c3.x, bv.x, bv.y, bv.z, bv.w);
  }

  /** Row y of AssignMulComposes. */
  lemma ComposesY(a: Mat, b: Mat, v: Vector4.Vector)
    ensures MulVec4(AssignMul(a, b), v).y == MulVec4(a, MulVec4(b, v)).y
  {
    var ab, bv := AssignMul(a, b), MulVec4(b, v);
    RowComposes(a.c0.y, a.c1.y, a.c2.y, a.c3.y, b.c0.x, b.c0.y, b.c0.z, b.c0.w, b.c1.x, b.c1.y, b.c1.z, b.c1.w,
                b.c2.x, b.c2.y, b.c2.z, b.c2.w, b.c3.x, b.c3.y, b.c3.z, b.c3.w, v.x, v.y, v.z, v.w,
                ab.c0.y, ab.c1.y, ab.c2.y, ab.c3.y, bv.x, bv.y, bv.z, bv.w);
  }

  /** Row z of AssignMulComposes. */
  lemma ComposesZ(a: Mat, b: Mat, v: Vector4.Vector)
    ensures MulVec4(AssignMul(a, b), v).z == MulVec4(a, MulVec4(b, v)).z
  {
    var ab, bv := AssignMul(a, b), MulVec4(b, v);
    RowComposes(a.c0.z, a.c1.z, a.c2.z, a.c3.z, b.c0.x, b.c0.y, b.c0.z, b.c0.w, b.c1.x, b.c1.y, b.c1.z, b.c1.w,
                b.c2.x, b.c2.y, b.c2.z, b.c2.w, b.c3.x, b.c3.y, b.c3.z, b.c3.w, v.x, v.y, v.z, v.w,
                ab.c0.z, ab.c1.z, ab.c2.z, ab.c3.z, bv.x, bv.y, bv.z, bv.w);
  }

  /** Row w of AssignMulComposes. */
  lemma ComposesW(a: Mat, b: Mat, v: Vector4.Vector)
    ensures MulVec4(AssignMul(a, b), v).w == MulVec4(a, MulVec4(b, v)).w
  {
    var ab, bv := AssignMul(a, b), MulVec4(b, v);
    RowComposes(a.c0.w, a.c1.w, a.c2.w, a.c3.w, b.c0.x, b.c0.y, b.c0.z, b.c0.w, b.c1.x, b.c1.y, b.c1.z, b.c1.w,
                b.c2.x, b.c2.y, b.c2.z, b.c2.w, b.c3.x, b.c3.y, b.c3.z, b.c3.w, v.x, v.y, v.z, v.w,
                ab.c0.w, ab.c1.w, ab.c2.w, ab.c3.w, bv.x, bv.y, bv.z, bv.w);
  }

  /** The embedded 3x3 matrix acts on (v, w) as the 3x3 matrix on v, keeping w. */
  lemma AssignMat3x3Acts(m: Mat3.Mat, v: Vector3.Vector, w: real)
    ensures var p := Mat3.MulVec3(m, v); MulVec4(AssignMat3x3(m), Vector4.Vector(v.x, v.y, v.z, w)) == Vector4.Vector(p.x, p.y, p.z, w)
    ensures AssignMat3x3(Mat3.Ident) == Ident
    ensures Trace(AssignMat3x3(m)) == Mat3.Trace(m) + 1.0
  {
  }

  /**
   * Embedding a 2x2 matrix directly agrees with embedding it into 3x3
   * column for column and then into 4x4; the 3x3 embedding as written does not.
   */
  lemma EmbeddingsAgree(m: Mat2.Mat)
    ensures AssignMat3x3(Mat3.AssignMat2x2(m)) == AssignMat2x2(m)
    ensures AssignMat3x3(Mat3.AssignMat2x2AsWritten(m)) == AssignMat2x2(Mat2.Transpose(m))
    ensures AssignMat2x2(Mat2.Ident) == Ident
  {
  }

  /** MulVec3W leaves `w` out of the result and `v` untouched; with `w` = 1 it applies the translation. */
  lemma MulVec3WTranslates(v: Vector3.Vector, p: Vector3.Vector)
    ensures MulVec3W(SetTranslation(Ident, v), p, 1.0) == Vector3.Add(p, v)
    ensures MulVec3W(SetTranslation(Ident, v), p, 0.0) == p
  {
  }

  /** Muled by 1 changes nothing; Scaled by 1 changes nothing. */
  lemma ScaleByOne(m: Mat)
    ensures Muled(m, 1.0) == m
    ensures Scaled(m, 1.0) == m
  {
  }

  /** A zero angle (s = 0, c = 1) builds the identity. */
  lemma RotationsAtZero()
    ensures XRotation(0.0, 1.0) == Ident
    ensures YRotation(0.0, 1.0) == Ident
    ensures ZRotation(0.0, 1.0) == Ident
  {
    var x, y, z := XRotation(0.0, 1.0), YRotation(0.0, 1.0), ZRotation(0.0, 1.0);
    assert x.c0 == Ident.c0 && x.c1 == Ident.c1 && x.c2 == Ident.c2 && x.c3 == Ident.c3;
    assert y.c0 == Ident.c0 && y.c1 == Ident.c1 && y.c2 == Ident.c2 && y.c3 == Ident.c3;
    assert z.c0 == Ident.c0 && z.c1 == Ident.c1 && z.c2 == Ident.c2 && z.c3 == Ident.c3;
  }

  /** Each rotation leaves the points of its own axis where they are. */
  lemma RotationsFixAxis(s: real, c: real, t: real)
    ensures MulVec4(XRotation(s, c), Vector4.Vector(t, 0.0, 0.0, 1.0)) == Vector4.Vector(t, 0.0, 0.0, 1.0)
    ensures MulVec4(YRotation(s, c), Vector4.Vector(0.0, t, 0.0, 1.0)) == Vector4.Vector(0.0, t, 0.0, 1.0)
    ensures MulVec4(ZRotation(s, c), Vector4.Vector(0.0, 0.0, t, 1.0)) == Vector4.Vector(0.0, 0.0, t, 1.0)
  {
  }

  /** Quarter turns (s = 1, c = 0) follow the right-hand rule: y to z, z to x, x to y. */
  lemma RotationsQuarterTurn()
    ensures MulVec4(XRotation(1.0, 0.0), Vector4.UnitYW) == Vector4.UnitZW
    ensures MulVec4(YRotation(1.0, 0.0), Vector4.UnitZW) == Vector4.UnitXW
    ensures MulVec4(ZRotation(1.0, 0.0), Vector4.UnitXW) == Vector4.UnitYW
  {
    var x, y, z := XRotation(1.0, 0.0), YRotation(1.0, 0.0), ZRotation(1.0, 0.0);
    assert x.c1 == Vector4.Vector(0.0, 0.0, 1.0, 0.0);
    assert y.c2 == Vector4.Vector(1.0, 0.0, 0.0, 0.0);
    assert z.c0 == Vector4.Vector(0.0, 1.0, 0.0, 0.0);
  }

  /** With s² + c² = 1, the rotation by the opposite angle (-s, c) undoes the rotation. */
  lemma RotationsInverse(s: real, c: real)
    requires s * s + c * c == 1.0
    ensures AssignMul(XRotation(s, c), XRotation(-s, c)) == Ident
    ensures AssignMul(YRotation(s, c), YRotation(-s, c)) == Ident
    ensures AssignMul(ZRotation(s, c), ZRotation(-s, c)) == Ident
  {
  }

  /** Rotations about one axis compose by the angle-addition formulas. */
  lemma RotationsCompose(s1: real, c1: real, s2: real, c2: real)
    ensures AssignMul(XRotation(s1, c1), XRotation(s2, c2)) == XRotation(s1 * c2 + c1 * s2, c1 * c2 - s1 * s2)
    ensures AssignMul(YRotation(s1, c1), YRotation(s2, c2)) == YRotation(s1 * c2 + c1 * s2, c1 * c2 - s1 * s2)
    ensures AssignMul(ZRotation(s1, c1), ZRotation(s2, c2)) == ZRotation(s1 * c2 + c1 * s2, c1 * c2 - s1 * s2)
  {
  }
}
