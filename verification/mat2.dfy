/** Column-major 2x2 matrices (package mat2, mat2.go). */
module Mat2 {
  import Vector2
  import opened Generic
  import opened Wrappers

  /** Two columns; `c0.y` is the entry in column 0, row 1. */
  datatype Mat = Mat(c0: Vector2.Vector, c1: Vector2.Vector)

  const Zero := Mat(Vector2.Zero, Vector2.Zero)
  const Ident := Mat(Vector2.UnitX, Vector2.UnitY)

  /** The entry at (col, row). */
  function Get(m: Mat, col: int, row: int): real
    requires 0 <= col < 2 && 0 <= row < 2
  {
    var c := if col == 0 then m.c0 else m.c1;
    if row == 0 then c.x else c.y
  }

  /** The matrix read through the tensor interface. */
  function AsTensor(m: Mat): (r: Tensor)
    ensures r.cols == 2 && r.rows == 2 && r.size == 4
    ensures forall col, row | 0 <= col < 2 && 0 <= row < 2 :: r.get(col, row) == Get(m, col, row)
  {
    Tensor(2, 2, 4, (col: int, row: int) => if 0 <= col < 2 && 0 <= row < 2 then Get(m, col, row) else 0.0)
  }

  /**
   * Builds a matrix from a square tensor of order 2 to 4 by copying its
   * top-left 2x2 block; any other shape is unsupported.
   */
  function FromNew(other: Tensor): (r: Result<Mat>)
    ensures r.Ok? <==> other.cols == other.rows && 2 <= other.cols <= 4
    ensures r.Ok? ==> forall col, row | 0 <= col < 2 && 0 <= row < 2 :: Get(r.value, col, row) == other.get(col, row)
  {
    if other.cols != other.rows || other.cols < 2 || other.cols > 4 then Unsupported
    else Ok(Mat(Vector2.Vector(other.get(0, 0), other.get(0, 1)), Vector2.Vector(other.get(1, 0), other.get(1, 1))))
  }

  /** The diagonal. */
  function Scaling(m: Mat): Vector2.Vector
  {
    Vector2.Vector(m.c0.x, m.c1.y)
  }

  /** Replaces the diagonal by `s`; the other entries stay. */
  function SetScaling(m: Mat, s: Vector2.Vector): (r: Mat)
    ensures Scaling(r) == s
    ensures r.c0.y == m.c0.y && r.c1.x == m.c1.x
  {
    m.(c0 := m.c0.(x := s.x), c1 := m.c1.(y := s.y))
  }

  /** Scale and Scaled: the diagonal is multiplied by `f`; the other entries stay. */
  function Scaled(m: Mat, f: real): (r: Mat)
    ensures Scaling(r) == Vector2.Scaled(Scaling(m), f)
    ensures r.c0.y == m.c0.y && r.c1.x == m.c1.x
    ensures Trace(r) == Trace(m) * f
  {
    SetScaling(m, Vector2.Scaled(Scaling(m), f))
  }

  function Trace(m: Mat): real
  {
    m.c0.x + m.c1.y
  }

  /** The product with a column vector: the columns weighted by the components of `v`. */
  function MulVec2(m: Mat, v: Vector2.Vector): Vector2.Vector
  {
    Vector2.Vector(m.c0.x * v.x + m.c1.x * v.y, m.c0.y * v.x + m.c1.y * v.y)
  }

  /** The matrix product `a * b`, one column of `b` at a time. */
  function AssignMul(a: Mat, b: Mat): Mat
  {
    Mat(MulVec2(a, b.c0), MulVec2(a, b.c1))
  }

  /** Swaps the two off-diagonal entries. */
  function Transpose(m: Mat): (r: Mat)
    ensures forall col, row | 0 <= col < 2 && 0 <= row < 2 :: Get(r, col, row) == Get(m, row, col)
  {
    Mat(Vector2.Vector(m.c0.x, m.c1.x), Vector2.Vector(m.c0.y, m.c1.y))
  }

  /** FromNew reads back every matrix given through the tensor interface. */
  lemma FromNewRoundTrip(m: Mat)
    ensures FromNew(AsTensor(m)) == Ok(m)
  {
    var t := AsTensor(m);
    assert t.get(0, 0) == m.c0.x && t.get(0, 1) == m.c0.y;
    assert t.get(1, 0) == m.c1.x && t.get(1, 1) == m.c1.y;
  }

  /** Scaling reads back what SetScaling wrote, and writing the diagonal back changes nothing. */
  lemma ScalingRoundTrip(m: Mat, s: Vector2.Vector)
    ensures Scaling(SetScaling(m, s)) == s
    ensures SetScaling(m, Scaling(m)) == m
    ensures SetScaling(SetScaling(m, s), Scaling(m)) == m
  {
  }

  /** Column-major storage: the product weights column j by component j of `v`. */
  lemma MulVec2Columns(m: Mat, v: Vector2.Vector)
    ensures MulVec2(m, v) == Vector2.Add(Vector2.Scaled(m.c0, v.x), Vector2.Scaled(m.c1, v.y))
    ensures MulVec2(m, Vector2.UnitX) == m.c0 && MulVec2(m, Vector2.UnitY) == m.c1
  {
  }

  /** Ident is the identity of the matrix-vector and matrix-matrix products. */
  lemma IdentLaws(a: Mat, v: Vector2.Vector)
    ensures MulVec2(Ident, v) == v
    ensures AssignMul(Ident, a) == a
    ensures AssignMul(a, Ident) == a
  {
  }

  /** The product matrix acts as the two factors applied in turn. */
  lemma AssignMulComposes(a: Mat, b: Mat, v: Vector2.Vector)
    ensures MulVec2(AssignMul(a, b), v) == MulVec2(a, MulVec2(b, v))
  {
  }

  /** The matrix product is associative. */
  lemma AssignMulAssociative(a: Mat, b: Mat, c: Mat)
    ensures AssignMul(AssignMul(a, b), c) == AssignMul(a, AssignMul(b, c))
  {
    AssignMulComposes(a, b, c.c0);
    AssignMulComposes(a, b, c.c1);
  }

  /** Transposing twice gives the matrix back; the trace is unchanged; the transpose is the adjoint and reverses products. */
  lemma TransposeLaws(m: Mat, n: Mat, u: Vector2.Vector, v: Vector2.Vector)
    ensures Transpose(Transpose(m)) == m
    ensures Trace(Transpose(m)) == Trace(m)
    ensures Vector2.Dot(MulVec2(Transpose(m), u), v) == Vector2.Dot(u, MulVec2(m, v))
    ensures Transpose(AssignMul(m, n)) == AssignMul(Transpose(n), Transpose(m))
  {
  }
}
