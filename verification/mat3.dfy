/** Column-major 3x3 matrices (package mat3, mat3.go). */
module Mat3 {
  import Vector2
  import Vector3
  import Mat2
  import opened Generic
  import opened Wrappers

  /** Three columns; `c2.x` is the entry in column 2, row 0. */
  datatype Mat = Mat(c0: Vector3.Vector, c1: Vector3.Vector, c2: Vector3.Vector)

  const Zero := Mat(Vector3.Zero, Vector3.Zero, Vector3.Zero)
  const Ident := Mat(Vector3.UnitX, Vector3.UnitY, Vector3.UnitZ)

  function Column(m: Mat, col: int): Vector3.Vector
    requires 0 <= col < 3
  {
    if col == 0 then m.c0 else if col == 1 then m.c1 else m.c2
  }

  /** The entry at (col, row). */
  function Get(m: Mat, col: int, row: int): real
    requires 0 <= col < 3 && 0 <= row < 3
  {
    var c := Column(m, col);
    if row == 0 then c.x else if row == 1 then c.y else c.z
  }

  /** The matrix read through the tensor interface. */
  function AsTensor(m: Mat): (r: Tensor)
    ensures r.cols == 3 && r.rows == 3 && r.size == 9
    ensures forall col, row | 0 <= col < 3 && 0 <= row < 3 :: r.get(col, row) == Get(m, col, row)
  {
    Tensor(3, 3, 9, (col: int, row: int) => if 0 <= col < 3 && 0 <= row < 3 then Get(m, col, row) else 0.0)
  }

  /**
   * Builds a matrix from a square tensor of order 3 or 4 by copying its
   * top-left 3x3 block; any other shape is unsupported.
   */
  function FromNew(other: Tensor): (r: Result<Mat>)
    ensures r.Ok? <==> other.cols == other.rows && 3 <= other.cols <= 4
    ensures r.Ok? ==> forall col, row | 0 <= col < 3 && 0 <= row < 3 :: Get(r.value, col, row) == other.get(col, row)
  {
    if other.cols != other.rows || other.cols < 3 || other.cols > 4 then Unsupported
    else Ok(Mat(
      Vector3.Vector(other.get(0, 0), other.get(0, 1), other.get(0, 2)),
      Vector3.Vector(other.get(1, 0), other.get(1, 1), other.get(1, 2)),
      Vector3.Vector(other.get(2, 0), other.get(2, 1), other.get(2, 2))))
  }

  /** Entries other than the diagonal agree. */
  predicate SameOffDiagonal(a: Mat, b: Mat)
  {
    forall col, row | 0 <= col < 3 && 0 <= row < 3 && col != row :: Get(a, col, row) == Get(b, col, row)
  }

  /** The diagonal. */
  function Scaling(m: Mat): Vector3.Vector
  {
    Vector3.Vector(m.c0.x, m.c1.y, m.c2.z)
  }

  /** Replaces the diagonal by `s`; the other entries stay. */
  function SetScaling(m: Mat, s: Vector3.Vector): (r: Mat)
    ensures Scaling(r) == s
    ensures SameOffDiagonal(r, m)
  {
    Mat(m.c0.(x := s.x), m.c1.(y := s.y), m.c2.(z := s.z))
  }

  /** Scale and Scaled: the diagonal is multiplied by `f`; the other entries stay. */
  function Scaled(m: Mat, f: real): (r: Mat)
    ensures Scaling(r) == Vector3.Mul(Scaling(m), Vector3.Vector(f, f, f))
    ensures SameOffDiagonal(r, m)
    ensures Trace(r) == Trace(m) * f
  {
    SetScaling(m, Vector3.Vector(m.c0.x * f, m.c1.y * f, m.c2.z * f))
  }

  /** Multiplies the first two diagonal entries by the components of `s`; the rest stays. */
  function ScaleVec2(m: Mat, s: Vector2.Vector): (r: Mat)
    ensures Scaling(r) == Vector3.Mul(Scaling(m), Vector3.Vector(s.x, s.y, 1.0))
    ensures SameOffDiagonal(r, m)
  {
    SetScaling(m, Vector3.Vector(m.c0.x * s.x, m.c1.y * s.y, m.c2.z))
  }

  /** The translation part of a 2D affine transform: rows 0 and 1 of column 2. */
  function Translation(m: Mat): Vector2.Vector
  {
    Vector2.Vector(m.c2.x, m.c2.y)
  }

  /** Every entry except rows 0 and 1 of column 2 agrees. */
  predicate SameOutsideTranslation(a: Mat, b: Mat)
  {
    forall col, row | 0 <= col < 3 && 0 <= row < 3 && !(col == 2 && row < 2) :: Get(a, col, row) == Get(b, col, row)
  }

  function SetTranslation(m: Mat, s: Vector2.Vector): (r: Mat)
    ensures Translation(r) == s
    ensures SameOutsideTranslation(r, m)
  {
    m.(c2 := m.c2.(x := s.x, y := s.y))
  }

  function Translate(m: Mat, s: Vector2.Vector): (r: Mat)
    ensures Translation(r) == Vector2.Add(Translation(m), s)
    ensures SameOutsideTranslation(r, m)
  {
    m.(c2 := m.c2.(x := m.c2.x + s.x, y := m.c2.y + s.y))
  }

  function TranslateX(m: Mat, dx: real): (r: Mat)
    ensures Translation(r) == Vector2.Vector(m.c2.x + dx, m.c2.y)
    ensures SameOutsideTranslation(r, m)
  {
    m.(c2 := m.c2.(x := m.c2.x + dx))
  }

  function TranslateY(m: Mat, dy: real): (r: Mat)
    ensures Translation(r) == Vector2.Vector(m.c2.x, m.c2.y + dy)
    ensures SameOutsideTranslation(r, m)
  {
    m.(c2 := m.c2.(y := m.c2.y + dy))
  }

  function Trace(m: Mat): real
  {
    m.c0.x + m.c1.y + m.c2.z
  }

  /** The product with a column vector. */
  function MulVec3(m: Mat, v: Vector3.Vector): Vector3.Vector
  {
    Vector3.Vector(
      m.c0.x * v.x + m.c1.x * v.y + m.c2.x * v.z,
      m.c0.y * v.x + m.c1.y * v.y + m.c2.y * v.z,
      m.c0.z * v.x + m.c1.z * v.y + m.c2.z * v.z)
  }

  /** The matrix product `a * b`, one column of `b` at a time. */
  function AssignMul(a: Mat, b: Mat): Mat
  {
    Mat(MulVec3(a, b.c0), MulVec3(a, b.c1), MulVec3(a, b.c2))
  }

  /**
   * AssignMat2x2 as the library writes it: row r of the 2x2 matrix becomes
   * column r of the upper-left block, so the block holds `m` transposed; the
   * rest is the identity.
   */
  function AssignMat2x2AsWritten(m: Mat2.Mat): (r: Mat)
    ensures forall col, row | 0 <= col < 2 && 0 <= row < 2 :: Get(r, col, row) == Mat2.Get(m, row, col)
    ensures forall col, row | 0 <= col < 3 && 0 <= row < 3 && (col == 2 || row == 2) :: Get(r, col, row) == Get(Ident, col, row)
  {
    Mat(Vector3.Vector(m.c0.x, m.c1.x, 0.0), Vector3.Vector(m.c0.y, m.c1.y, 0.0), Vector3.Vector(0.0, 0.0, 1.0))
  }

  /**
   * The embedding of a 2x2 matrix in the upper-left block, column for column
   * as the 4x4 embedding does; the rest is the identity.
   */
  function AssignMat2x2(m: Mat2.Mat): (r: Mat)
    ensures forall col, row | 0 <= col < 2 && 0 <= row < 2 :: Get(r, col, row) == Mat2.Get(m, col, row)
    ensures forall col, row | 0 <= col < 3 && 0 <= row < 3 && (col == 2 || row == 2) :: Get(r, col, row) == Get(Ident, col, row)
  {
    Mat(Vector3.Vector(m.c0.x, m.c0.y, 0.0), Vector3.Vector(m.c1.x, m.c1.y, 0.0), Vector3.Vector(0.0, 0.0, 1.0))
  }

  /** The transposed matrix. */
  function Transposed(m: Mat): Mat
  {
    Mat(Vector3.Vector(m.c0.x, m.c1.x, m.c2.x), Vector3.Vector(m.c0.y, m.c1.y, m.c2.y), Vector3.Vector(m.c0.z, m.c1.z, m.c2.z))
  }

  /** FromNew reads back every matrix given through the tensor interface. */
  lemma FromNewRoundTrip(m: Mat)
    ensures FromNew(AsTensor(m)) == Ok(m)
  {
    var t := AsTensor(m);
    assert t.get(0, 0) == m.c0.x && t.get(0, 1) == m.c0.y && t.get(0, 2) == m.c0.z;
    assert t.get(1, 0) == m.c1.x && t.get(1, 1) == m.c1.y && t.get(1, 2) == m.c1.z;
    assert t.get(2, 0) == m.c2.x && t.get(2, 1) == m.c2.y && t.get(2, 2) == m.c2.z;
  }

  /** Scaling reads back what SetScaling wrote, and writing the diagonal back changes nothing. */
  lemma ScalingRoundTrip(m: Mat, s: Vector3.Vector)
    ensures Scaling(SetScaling(m, s)) == s
    ensures SetScaling(m, Scaling(m)) == m
    ensures SetScaling(SetScaling(m, s), Scaling(m)) == m
  {
  }

  /** Translation reads back what SetTranslation wrote; the two single-axis moves make one Translate. */
  lemma TranslationLaws(m: Mat, s: Vector2.Vector)
    ensures Translation(SetTranslation(m, s)) == s
    ensures SetTranslation(m, Translation(m)) == m
    ensures TranslateY(TranslateX(m, s.x), s.y) == Translate(m, s)
    ensures Translate(m, s) == SetTranslation(m, Vector2.Add(Translation(m), s))
  {
  }

  /** A translation matrix moves a point (x, y, 1) by the translation. */
  lemma TranslationMovesPoints(s: Vector2.Vector, p: Vector2.Vector)
    ensures MulVec3(SetTranslation(Ident, s), Vector3.Vector(p.x, p.y, 1.0)) == Vector3.Vector(p.x + s.x, p.y + s.y, 1.0)
  {
  }

  /** Column-major storage: the product with a unit vector is the matching column. */
  lemma MulVec3Columns(m: Mat)
    ensures MulVec3(m, Vector3.UnitX) == m.c0
    ensures MulVec3(m, Vector3.UnitY) == m.c1
    ensures MulVec3(m, Vector3.UnitZ) == m.c2
  {
  }

  /** Ident is the identity of the matrix-vector and matrix-matrix products. */
  lemma IdentLaws(a: Mat, v: Vector3.Vector)
    ensures MulVec3(Ident, v) == v
    ensures AssignMul(Ident, a) == a
    ensures AssignMul(a, Ident) == a
  {
  }

  /**
   * One row of `(a * b) v == a (b v)` on plain reals: (a0, a1, a2) is a row
   * of `a`, `p` that row of `a * b`, and `q` the vector `b v`.
   */
  lemma RowComposes(a0: real, a1: real, a2: real, b00: real, b01: real, b02: real, b10: real, b11: real, b12: real,
                    b20: real, b21: real, b22: real, v0: real, v1: real, v2: real,
                    p0: real, p1: real, p2: real, q0: real, q1: real, q2: real)
    requires p0 == a0 * b00 + a1 * b01 + a2 * b02 && p1 == a0 * b10 + a1 * b11 + a2 * b12
    requires p2 == a0 * b20 + a1 * b21 + a2 * b22
    requires q0 == b00 * v0 + b10 * v1 + b20 * v2 && q1 == b01 * v0 + b11 * v1 + b21 * v2
    requires q2 == b02 * v0 + b12 * v1 + b22 * v2
    ensures p0 * v0 + p1 * v1 + p2 * v2 == a0 * q0 + a1 * q1 + a2 * q2
  {
    calc {
      p0 * v0 + p1 * v1 + p2 * v2;
      (a0 * b00 + a1 * b01 + a2 * b02) * v0 + (a0 * b10 + a1 * b11 + a2 * b12) * v1 + (a0 * b20 + a1 * b21 + a2 * b22) * v2;
      a0 * (b00 * v0 + b10 * v1 + b20 * v2) + a1 * (b01 * v0 + b11 * v1 + b21 * v2) + a2 * (b02 * v0 + b12 * v1 + b22 * v2);
      a0 * q0 + a1 * q1 + a2 * q2;
    }
  }

  /** The product matrix acts as the two factors applied in turn. */
  lemma AssignMulComposes(a: Mat, b: Mat, v: Vector3.Vector)
    ensures MulVec3(AssignMul(a, b), v) == MulVec3(a, MulVec3(b, v))
  {
    var l, r := MulVec3(AssignMul(a, b), v), MulVec3(a, MulVec3(b, v));
    ComposesX(a, b, v);
    ComposesY(a, b, v);
    ComposesZ(a, b, v);
    assert l.x == r.x && l.y == r.y && l.z == r.z;
  }

  /** Row x of AssignMulComposes. */
  lemma ComposesX(a: Mat, b: Mat, v: Vector3.Vector)
    ensures MulVec3(AssignMul(a, b), v).x == MulVec3(a, MulVec3(b, v)).x
  {
    var ab, bv := AssignMul(a, b), MulVec3(b, v);
    RowComposes(a.c0.x, a.c1.x, a.c2.x, b.c0.x, b.c0.y, b.c0.z, b.c1.x, b.c1.y, b.c1.z, b.c2.x, b.c2.y, b.c2.z,
                v.x, v.y, v.z, ab.c0.x, ab.c1.x, ab.c2.x, bv.x, bv.y, bv.z);
  }

  /** Row y of AssignMulComposes. */
  lemma ComposesY(a: Mat, b: Mat, v: Vector3.Vector)
    ensures MulVec3(AssignMul(a, b), v).y == MulVec3(a, MulVec3(b, v)).y
  {
    var ab, bv := AssignMul(a, b), MulVec3(b, v);
    RowComposes(a.c0.y, a.c1.y, a.c2.y, b.c0.x, b.c0.y, b.c0.z, b.c1.x, b.c1.y, b.c1.z, b.c2.x, b.c2.y, b.c2.z,
                v.x, v.y, v.z, ab.c0.y, ab.c1.y, ab.c2.y, bv.x, bv.y, bv.z);
  }

  /** Row z of AssignMulComposes. */
  lemma ComposesZ(a: Mat, b: Mat, v: Vector3.Vector)
    ensures MulVec3(AssignMul(a, b), v).z == MulVec3(a, MulVec3(b, v)).z
  {
    var ab, bv := AssignMul(a, b), MulVec3(b, v);
    RowComposes(a.c0.z, a.c1.z, a.c2.z, b.c0.x, b.c0.y, b.c0.z, b.c1.x, b.c1.y, b.c1.z, b.c2.x, b.c2.y, b.c2.z,
                v.x, v.y, v.z, ab.c0.z, ab.c1.z, ab.c2.z, bv.x, bv.y, bv.z);
  }

  /** The matrix product is associative. */
  lemma AssignMulAssociative(a: Mat, b: Mat, c: Mat)
    ensures AssignMul(AssignMul(a, b), c) == AssignMul(a, AssignMul(b, c))
  {
    AssignMulComposes(a, b, c.c0);
    AssignMulComposes(a, b, c.c1);
    AssignMulComposes(a, b, c.c2);
  }

  /** The embedding as written is the column-for-column embedding of the transpose, and keeps the trace plus one. */
  lemma AssignMat2x2AsWrittenTransposes(m: Mat2.Mat)
    ensures AssignMat2x2AsWritten(m) == AssignMat2x2(Mat2.Transpose(m))
    ensures Trace(AssignMat2x2AsWritten(m)) == Mat2.Trace(m) + 1.0
  {
  }

  /** The column-for-column embedding acts as `m` on (x, y) and keeps the third component. */
  lemma AssignMat2x2Acts(m: Mat2.Mat, v: Vector2.Vector, z: real)
    ensures var p := Mat2.MulVec2(m, v); MulVec3(AssignMat2x2(m), Vector3.Vector(v.x, v.y, z)) == Vector3.Vector(p.x, p.y, z)
    ensures Trace(AssignMat2x2(m)) == Mat2.Trace(m) + 1.0
    ensures AssignMat2x2(Mat2.Ident) == Ident
  {
  }

  /** The embedding as written does not act as `m`: a shear that sends (0, 1) to (1, 1) is applied transposed. */
  lemma AssignMat2x2AsWrittenCounterexample()
    ensures var m := Mat2.Mat(Vector2.Vector(1.0, 0.0), Vector2.Vector(1.0, 1.0));
            Mat2.MulVec2(m, Vector2.UnitY) == Vector2.Vector(1.0, 1.0)
            && MulVec3(AssignMat2x2AsWritten(m), Vector3.UnitY) == Vector3.Vector(0.0, 1.0, 0.0)
  {
  }
}
