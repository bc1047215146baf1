/**
 * Conversions between quaternions and 3x3 rotation matrices (convert.go).
 * A unit quaternion q rotates a vector v by the sandwich product q v q*,
 * where v is read as the pure quaternion (v, 0); QuatToMat3 is meant to
 * build the matrix of that rotation.
 */
module Convert {
  import Vector3
  import Mat3
  import Quat

  /**
   * QuatToMat3 exactly as convert.go writes it: the third entry of column 0
   * reads 2xw - 2wy where the rotation matrix has 2xz - 2wy.
   */
  function QuatToMat3AsWritten(q: Quat.Quat): (r: Mat3.Mat)
    ensures q == Quat.Ident ==> r == Mat3.Ident
  {
    Mat3.Mat(
      Vector3.Vector(1.0 - 2.0 * q.y * q.y - 2.0 * q.z * q.z, 2.0 * q.x * q.y + 2.0 * q.w * q.z, 2.0 * q.x * q.w - 2.0 * q.w * q.y),
      Vector3.Vector(2.0 * q.x * q.y - 2.0 * q.w * q.z, 1.0 - 2.0 * q.x * q.x - 2.0 * q.z * q.z, 2.0 * q.y * q.z + 2.0 * q.w * q.x),
      Vector3.Vector(2.0 * q.x * q.z + 2.0 * q.w * q.y, 2.0 * q.y * q.z - 2.0 * q.w * q.x, 1.0 - 2.0 * q.x * q.x - 2.0 * q.y * q.y))
  }

  /** QuatToMat3 with the column-0 entry corrected to 2xz - 2wy; the rest is as written. */
  function QuatToMat3(q: Quat.Quat): (r: Mat3.Mat)
    ensures q == Quat.Ident ==> r == Mat3.Ident
  {
    Mat3.Mat(
      Vector3.Vector(1.0 - 2.0 * q.y * q.y - 2.0 * q.z * q.z, 2.0 * q.x * q.y + 2.0 * q.w * q.z, 2.0 * q.x * q.z - 2.0 * q.w * q.y),
      Vector3.Vector(2.0 * q.x * q.y - 2.0 * q.w * q.z, 1.0 - 2.0 * q.x * q.x - 2.0 * q.z * q.z, 2.0 * q.y * q.z + 2.0 * q.w * q.x),
      Vector3.Vector(2.0 * q.x * q.z + 2.0 * q.w * q.y, 2.0 * q.y * q.z - 2.0 * q.w * q.x, 1.0 - 2.0 * q.x * q.x - 2.0 * q.y * q.y))
  }

  /** Mat3ToQuat ignores its matrix and returns the identity rotation. */
  function Mat3ToQuat(m: Mat3.Mat): (r: Quat.Quat)
    ensures QuatToMat3(r) == Mat3.Ident
  {
    Quat.Ident
  }

  /** A vector as the pure quaternion (v, 0). */
  function Pure(v: Vector3.Vector): Quat.Quat
  {
    Quat.Quat(v.x, v.y, v.z, 0.0)
  }

  /** The vector part of a quaternion. */
  function VectorPart(q: Quat.Quat): Vector3.Vector
  {
    Vector3.Vector(q.x, q.y, q.z)
  }

  /** The sandwich product q v q*, the rotation of v by q. */
  function Sandwich(q: Quat.Quat, v: Vector3.Vector): Quat.Quat
  {
    Quat.Product(Quat.Product(q, Pure(v)), Quat.Conjugated(q))
  }

  /**
   * The matrix of v |-> q v q* for any q: the rotation matrix with the
   * diagonal written in its homogeneous form (w*w + x*x - y*y - z*z, ...).
   */
  function SandwichMatrix(q: Quat.Quat): Mat3.Mat
  {
    Mat3.Mat(
      Vector3.Vector(q.w * q.w + q.x * q.x - q.y * q.y - q.z * q.z, 2.0 * q.x * q.y + 2.0 * q.w * q.z, 2.0 * q.x * q.z - 2.0 * q.w * q.y),
      Vector3.Vector(2.0 * q.x * q.y - 2.0 * q.w * q.z, q.w * q.w - q.x * q.x + q.y * q.y - q.z * q.z, 2.0 * q.y * q.z + 2.0 * q.w * q.x),
      Vector3.Vector(2.0 * q.x * q.z + 2.0 * q.w * q.y, 2.0 * q.y * q.z - 2.0 * q.w * q.x, q.w * q.w - q.x * q.x - q.y * q.y + q.z * q.z))
  }

  /**
   * The sandwich product, one component at a time, on plain reals: with
   * p = q (v, 0), the product p q* expands to the sandwich matrix times v,
   * and its scalar part vanishes.
   */
  lemma SandwichX(x: real, y: real, z: real, w: real, vx: real, vy: real, vz: real,
                  px: real, py: real, pz: real, pw: real, e0: real, e1: real, e2: real)
    requires Quat.IsProduct(x, y, z, w, vx, vy, vz, 0.0, px, py, pz, pw)
    requires e0 == w * w + x * x - y * y - z * z && e1 == 2.0 * x * y - 2.0 * w * z && e2 == 2.0 * x * z + 2.0 * w * y
    ensures pw * (-x) + px * w + py * (-z) - pz * (-y) == e0 * vx + e1 * vy + e2 * vz
  {
    calc {
      pw * (-x) + px * w + py * (-z) - pz * (-y);
      (w * 0.0 - x * vx - y * vy - z * vz) * (-x) + (w * vx + x * 0.0 + y * vz - z * vy) * w + (w * vy + y * 0.0 + z * vx - x * vz) * (-z) - (w * vz + z * 0.0 + x * vy - y * vx) * (-y);
      w * w * vx + 2.0 * w * y * vz - 2.0 * w * z * vy + x * x * vx + 2.0 * x * y * vy + 2.0 * x * z * vz - y * y * vx - z * z * vx;
      (w * w + x * x - y * y - z * z) * vx + (2.0 * x * y - 2.0 * w * z) * vy + (2.0 * x * z + 2.0 * w * y) * vz;
      e0 * vx + e1 * vy + e2 * vz;
    }
  }

  lemma SandwichY(x: real, y: real, z: real, w: real, vx: real, vy: real, vz: real,
                  px: real, py: real, pz: real, pw: real, e0: real, e1: real, e2: real)
    requires Quat.IsProduct(x, y, z, w, vx, vy, vz, 0.0, px, py, pz, pw)
    requires e0 == 2.0 * x * y + 2.0 * w * z && e1 == w * w - x * x + y * y - z * z && e2 == 2.0 * y * z - 2.0 * w * x
    ensures pw * (-y) + py * w + pz * (-x) - px * (-z) == e0 * vx + e1 * vy + e2 * vz
  {
    calc {
      pw * (-y) + py * w + pz * (-x) - px * (-z);
      (w * 0.0 - x * vx - y * vy - z * vz) * (-y) + (w * vy + y * 0.0 + z * vx - x * vz) * w + (w * vz + z * 0.0 + x * vy - y * vx) * (-x) - (w * vx + x * 0.0 + y * vz - z * vy) * (-z);
      w * w * vy - 2.0 * w * x * vz + 2.0 * w * z * vx - x * x * vy + 2.0 * x * y * vx + y * y * vy + 2.0 * y * z * vz - z * z * vy;
      (2.0 * x * y + 2.0 * w * z) * vx + (w * w - x * x + y * y - z * z) * vy + (2.0 * y * z - 2.0 * w * x) * vz;
      e0 * vx + e1 * vy + e2 * vz;
    }
  }

  lemma SandwichZ(x: real, y: real, z: real, w: real, vx: real, vy: real, vz: real,
                  px: real, py: real, pz: real, pw: real, e0: real, e1: real, e2: real)
    requires Quat.IsProduct(x, y, z, w, vx, vy, vz, 0.0, px, py, pz, pw)
    requires e0 == 2.0 * x * z - 2.0 * w * y && e1 == 2.0 * y * z + 2.0 * w * x && e2 == w * w - x * x - y * y + z * z
    ensures pw * (-z) + pz * w + px * (-y) - py * (-x) == e0 * vx + e1 * vy + e2 * vz
  {
    calc {
      pw * (-z) + pz * w + px * (-y) - py * (-x);
      (w * 0.0 - x * vx - y * vy - z * vz) * (-z) + (w * vz + z * 0.0 + x * vy - y * vx) * w + (w * vx + x * 0.0 + y * vz - z * vy) * (-y) - (w * vy + y * 0.0 + z * vx - x * vz) * (-x);
      w * w * vz + 2.0 * w * x * vy - 2.0 * w * y * vx - x * x * vz + 2.0 * x * z * vx - y * y * vz + 2.0 * y * z * vy + z * z * vz;
      (2.0 * x * z - 2.0 * w * y) * vx + (2.0 * y * z + 2.0 * w * x) * vy + (w * w - x * x - y * y + z * z) * vz;
      e0 * vx + e1 * vy + e2 * vz;
    }
  }

  lemma SandwichW(x: real, y: real, z: real, w: real, vx: real, vy: real, vz: real,
                  px: real, py: real, pz: real, pw: real)
    requires Quat.IsProduct(x, y, z, w, vx, vy, vz, 0.0, px, py, pz, pw)
    ensures pw * w - px * (-x) - py * (-y) - pz * (-z) == 0.0
  {
    calc {
      pw * w - px * (-x) - py * (-y) - pz * (-z);
      (w * 0.0 - x * vx - y * vy - z * vz) * w - (w * vx + x * 0.0 + y * vz - z * vy) * (-x) - (w * vy + y * 0.0 + z * vx - x * vz) * (-y) - (w * vz + z * 0.0 + x * vy - y * vx) * (-z);
      0.0;
    }
  }

  /** Each component of the sandwich product, on quaternions. */
  lemma SandwichComponentX(q: Quat.Quat, v: Vector3.Vector)
    ensures Sandwich(q, v).x == Mat3.MulVec3(SandwichMatrix(q), v).x
  {
    var p := Quat.Product(q, Pure(v));
    Quat.ProductIsProduct(q, Pure(v));
    var m := SandwichMatrix(q);
    assert Sandwich(q, v).x == p.w * (-q.x) + p.x * q.w + p.y * (-q.z) - p.z * (-q.y);
    SandwichX(q.x, q.y, q.z, q.w, v.x, v.y, v.z, p.x, p.y, p.z, p.w, m.c0.x, m.c1.x, m.c2.x);
  }

  lemma SandwichComponentY(q: Quat.Quat, v: Vector3.Vector)
    ensures Sandwich(q, v).y == Mat3.MulVec3(SandwichMatrix(q), v).y
  {
    var p := Quat.Product(q, Pure(v));
    Quat.ProductIsProduct(q, Pure(v));
    var m := SandwichMatrix(q);
    assert Sandwich(q, v).y == p.w * (-q.y) + p.y * q.w + p.z * (-q.x) - p.x * (-q.z);
    SandwichY(q.x, q.y, q.z, q.w, v.x, v.y, v.z, p.x, p.y, p.z, p.w, m.c0.y, m.c1.y, m.c2.y);
  }

  lemma SandwichComponentZ(q: Quat.Quat, v: Vector3.Vector)
    ensures Sandwich(q, v).z == Mat3.MulVec3(SandwichMatrix(q), v).z
  {
    var p := Quat.Product(q, Pure(v));
    Quat.ProductIsProduct(q, Pure(v));
    var m := SandwichMatrix(q);
    assert Sandwich(q, v).z == p.w * (-q.z) + p.z * q.w + p.x * (-q.y) - p.y * (-q.x);
    SandwichZ(q.x, q.y, q.z, q.w, v.x, v.y, v.z, p.x, p.y, p.z, p.w, m.c0.z, m.c1.z, m.c2.z);
  }

  lemma SandwichComponentW(q: Quat.Quat, v: Vector3.Vector)
    ensures Sandwich(q, v).w == 0.0
  {
    var p := Quat.Product(q, Pure(v));
    Quat.ProductIsProduct(q, Pure(v));
    assert Sandwich(q, v).w == p.w * q.w - p.x * (-q.x) - p.y * (-q.y) - p.z * (-q.z);
    SandwichW(q.x, q.y, q.z, q.w, v.x, v.y, v.z, p.x, p.y, p.z, p.w);
  }

  /** The sandwich product maps a pure quaternion to a pure one, by the sandwich matrix. */
  lemma SandwichIsLinear(q: Quat.Quat, v: Vector3.Vector)
    ensures VectorPart(Sandwich(q, v)) == Mat3.MulVec3(SandwichMatrix(q), v)
    ensures Sandwich(q, v).w == 0.0
  {
    SandwichComponentX(q, v);
    SandwichComponentY(q, v);
    SandwichComponentZ(q, v);
    SandwichComponentW(q, v);
  }

  /** For a unit quaternion the sandwich matrix is the (corrected) QuatToMat3. */
  lemma UnitSandwichMatrix(q: Quat.Quat)
    requires Quat.Norm(q) == 1.0
    ensures SandwichMatrix(q) == QuatToMat3(q)
  {
  }

  /** QuatToMat3 of a unit quaternion rotates every vector as q v q* does. */
  lemma QuatToMat3Rotates(q: Quat.Quat, v: Vector3.Vector)
    requires Quat.Norm(q) == 1.0
    ensures Mat3.MulVec3(QuatToMat3(q), v) == VectorPart(Sandwich(q, v))
  {
    SandwichIsLinear(q, v);
    UnitSandwichMatrix(q);
  }

  /** QuatToMat3 of a unit quaternion preserves lengths. */
  lemma QuatToMat3PreservesLength(q: Quat.Quat, v: Vector3.Vector)
    requires Quat.Norm(q) == 1.0
    ensures Vector3.LengthSqr(Mat3.MulVec3(QuatToMat3(q), v)) == Vector3.LengthSqr(v)
  {
    var p, s := Quat.Product(q, Pure(v)), Sandwich(q, v);
    QuatToMat3Rotates(q, v);
    SandwichIsLinear(q, v);
    Quat.NormMultiplicative(q, Pure(v));
    Quat.NormMultiplicative(p, Quat.Conjugated(q));
    Quat.ConjugateNorm(q);
    calc {
      Vector3.LengthSqr(VectorPart(s));
      s.x * s.x + s.y * s.y + s.z * s.z;
      { assert s.w * s.w == 0.0; }
      Quat.Norm(s);
      Quat.Norm(p) * Quat.Norm(Quat.Conjugated(q));
      Quat.Norm(p) * 1.0;
      Quat.Norm(q) * Quat.Norm(Pure(v));
      1.0 * Quat.Norm(Pure(v));
      Vector3.LengthSqr(v);
    }
  }

  /** The rotation matrix's trace, and for a unit quaternion the 4w^2 - 1 that Mat3ToQuat would invert. */
  lemma QuatToMat3Trace(q: Quat.Quat)
    ensures Mat3.Trace(QuatToMat3(q)) == 3.0 - 4.0 * (q.x * q.x + q.y * q.y + q.z * q.z)
    ensures Mat3.Trace(QuatToMat3AsWritten(q)) == Mat3.Trace(QuatToMat3(q))
    ensures Quat.Norm(q) == 1.0 ==> Mat3.Trace(QuatToMat3(q)) == 4.0 * q.w * q.w - 1.0
  {
  }

  /** q and -q give the same matrix, in both versions. */
  lemma QuatToMat3Negated(q: Quat.Quat)
    ensures QuatToMat3(Quat.Scaled(q, -1.0)) == QuatToMat3(q)
    ensures QuatToMat3AsWritten(Quat.Scaled(q, -1.0)) == QuatToMat3AsWritten(q)
  {
  }

  /** The conjugate quaternion gives the transposed matrix, the inverse rotation. */
  lemma QuatToMat3Conjugated(q: Quat.Quat)
    ensures QuatToMat3(Quat.Conjugated(q)) == Mat3.Transposed(QuatToMat3(q))
  {
    var c, m := QuatToMat3(Quat.Quat(-q.x, -q.y, -q.z, q.w)), QuatToMat3(q);
    assert c.c0 == Vector3.Vector(m.c0.x, m.c1.x, m.c2.x);
    assert c.c1 == Vector3.Vector(m.c0.y, m.c1.y, m.c2.y);
    assert c.c2 == Vector3.Vector(m.c0.z, m.c1.z, m.c2.z);
  }

  /** The two versions agree exactly when x = 0 or z = w. */
  lemma AsWrittenAgreesIff(q: Quat.Quat)
    ensures QuatToMat3AsWritten(q) == QuatToMat3(q) <==> q.x == 0.0 || q.z == q.w
  {
    calc {
      (2.0 * q.x * q.w - 2.0 * q.w * q.y) - (2.0 * q.x * q.z - 2.0 * q.w * q.y);
      2.0 * q.x * (q.w - q.z);
    }
    if q.x != 0.0 && q.z != q.w {
      assert q.w - q.z != 0.0;
      assert q.x * (q.w - q.z) != 0.0;
    }
  }

  /** The column-0, row-2 entries that tell the two sides apart at q = (1, 0, 0, 1). */
  lemma AsWrittenConjugateEntries()
    ensures QuatToMat3AsWritten(Quat.Conjugated(Quat.Quat(1.0, 0.0, 0.0, 1.0))).c0.z == -2.0
    ensures Mat3.Transposed(QuatToMat3AsWritten(Quat.Quat(1.0, 0.0, 0.0, 1.0))).c0.z == 0.0
  {
  }

  /** As written, the conjugate does not give the transpose: q = (1, 0, 0, 1). */
  lemma AsWrittenConjugateCounterexample()
    ensures QuatToMat3AsWritten(Quat.Conjugated(Quat.Quat(1.0, 0.0, 0.0, 1.0)))
         != Mat3.Transposed(QuatToMat3AsWritten(Quat.Quat(1.0, 0.0, 0.0, 1.0)))
  {
    AsWrittenConjugateEntries();
  }

  /**
   * As written, the matrix of a unit quaternion need not preserve lengths:
   * q = (0.6, 0, 0.8, 0) sends the unit x axis to (-0.28, 0, 0).
   */
  lemma AsWrittenNotRotation()
    ensures Quat.Norm(Quat.Quat(0.6, 0.0, 0.8, 0.0)) == 1.0
    ensures Vector3.LengthSqr(Mat3.MulVec3(QuatToMat3AsWritten(Quat.Quat(0.6, 0.0, 0.8, 0.0)), Vector3.UnitX))
         != Vector3.LengthSqr(Vector3.UnitX)
  {
    var m := QuatToMat3AsWritten(Quat.Quat(0.6, 0.0, 0.8, 0.0));
    assert m.c0 == Vector3.Vector(-0.28, 0.0, 0.0);
    assert Mat3.MulVec3(m, Vector3.UnitX) == Vector3.Vector(-0.28, 0.0, 0.0);
  }

  /** The quaternion Mat3ToQuat returns stands for the identity matrix. */
  lemma Mat3ToQuatIsIdentity(m: Mat3.Mat)
    ensures QuatToMat3(Mat3ToQuat(m)) == Mat3.Ident
    ensures QuatToMat3AsWritten(Mat3ToQuat(m)) == Mat3.Ident
  {
  }

  /** Converting a quaternion to a matrix and back returns it only when it is the identity. */
  lemma Mat3ToQuatRoundTrip(q: Quat.Quat)
    ensures Mat3ToQuat(QuatToMat3(q)) == q <==> q == Quat.Ident
  {
  }
}
