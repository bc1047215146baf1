/**
 * Quaternions (package quat, quaternion.go), stored as (x, y, z, w) with
 * the vector part first and the scalar part `w` last.
 */
module Quat {
  import Scalar
  import Vector4

  datatype Quat = Quat(x: real, y: real, z: real, w: real)

  const Zero := Quat(0.0, 0.0, 0.0, 0.0)
  const Ident := Quat(0.0, 0.0, 0.0, 1.0)

  /** FromVec4: the same four numbers read as a quaternion, `w` as the scalar part. */
  function FromVec4(v: Vector4.Vector): (r: Quat)
    ensures r.w == v.w && Vec4(r) == v
  {
    Quat(v.x, v.y, v.z, v.w)
  }

  /** Vec4: the same four numbers read as a homogeneous vector. */
  function Vec4(q: Quat): (r: Vector4.Vector)
    ensures r.w == q.w && r.x == q.x && r.y == q.y && r.z == q.z
  {
    Vector4.Vector(q.x, q.y, q.z, q.w)
  }

  /** The squared norm (the library's Norm), the sum of the four squares. */
  function Norm(q: Quat): (r: real)
    ensures r >= 0.0
  {
    Scalar.Square(q.x);
    Scalar.Square(q.y);
    Scalar.Square(q.z);
    Scalar.Square(q.w);
    q.x * q.x + q.y * q.y + q.z * q.z + q.w * q.w
  }

  /** The four-component dot product, summed from `w`. */
  function Dot(a: Quat, b: Quat): real
  {
    a.w * b.w + a.x * b.x + a.y * b.y + a.z * b.z
  }

  /** Scale and Scaled: all four components multiplied by `c`. */
  function Scaled(q: Quat, c: real): Quat
  {
    Quat(q.x * c, q.y * c, q.z * c, q.w * c)
  }

  /** The in-place Scale, one component after another. */
  method Scale(t: Quat, c: real) returns (r: Quat)
    ensures r == Scaled(t, c)
  {
    r := t;
    r := r.(x := r.x * c);
    r := r.(y := r.y * c);
    r := r.(z := r.z * c);
    r := r.(w := r.w * c);
  }

  /**
   * Normalize and Normalized. A norm of exactly 0 or 1 leaves the
   * quaternion alone; otherwise it is scaled by `ool`, which stands for the
   * 1 / sqrt(Norm(q)) the library computes.
   */
  function Normalized(q: Quat, ool: real): (r: Quat)
    ensures Norm(q) == 0.0 || Norm(q) == 1.0 ==> r == q
    ensures Norm(q) != 0.0 && ool * ool * Norm(q) == 1.0 ==> Norm(r) == 1.0
  {
    var norm := Norm(q);
    ScaledNorm(q, ool);
    if norm != 1.0 && norm != 0.0 then Scaled(q, ool) else q
  }

  /** The in-place Normalize. */
  method Normalize(t: Quat, ool: real) returns (r: Quat)
    ensures r == Normalized(t, ool)
  {
    r := t;
    var norm := Norm(r);
    if norm != 1.0 && norm != 0.0 {
      r := r.(x := r.x * ool);
      r := r.(y := r.y * ool);
      r := r.(z := r.z * ool);
      r := r.(w := r.w * ool);
    }
  }

  /** The conjugate: the vector part negated, `w` kept. */
  function Conjugated(q: Quat): Quat
  {
    Quat(-q.x, -q.y, -q.z, q.w)
  }

  /** The in-place Conjugate. */
  method Conjugate(t: Quat) returns (r: Quat)
    ensures r == Conjugated(t)
  {
    r := t;
    r := r.(x := -r.x);
    r := r.(y := -r.y);
    r := r.(z := -r.z);
  }

  /**
   * Inverse and Inversed: the conjugate scaled by the reciprocal of
   * Dot(q, q). A zero quaternion would divide by zero.
   */
  function Inversed(q: Quat): (r: Quat)
    requires Dot(q, q) != 0.0
    ensures Norm(q) == 1.0 ==> r == Conjugated(q)
  {
    Scaled(Conjugated(q), 1.0 / Dot(q, q))
  }

  /** The in-place Inverse: the inverse is computed first, then copied in. */
  method Inverse(t: Quat) returns (r: Quat)
    requires Dot(t, t) != 0.0
    ensures r == Inversed(t)
  {
    var inv := Scaled(Conjugated(t), 1.0 / Dot(t, t));
    r := t;
    r := r.(x := inv.x);
    r := r.(y := inv.y);
    r := r.(z := inv.z);
    r := r.(w := inv.w);
  }

  /** The Hamilton product `a b` that Mul computes before normalizing. */
  function Product(a: Quat, b: Quat): Quat
  {
    Quat(
      a.w * b.x + a.x * b.w + a.y * b.z - a.z * b.y,
      a.w * b.y + a.y * b.w + a.z * b.x - a.x * b.z,
      a.w * b.z + a.z * b.w + a.x * b.y - a.y * b.x,
      a.w * b.w - a.x * b.x - a.y * b.y - a.z * b.z)
  }

  /** Mul: the Hamilton product, normalized with the reciprocal root `ool` of its norm. */
  function Mul(a: Quat, b: Quat, ool: real): (r: Quat)
    ensures Norm(a) == 1.0 && Norm(b) == 1.0 ==> r == Product(a, b)
  {
    NormMultiplicative(a, b);
    Normalized(Product(a, b), ool)
  }

  /** Mul3: two normalized products in turn, with one reciprocal root for each. */
  function Mul3(a: Quat, b: Quat, c: Quat, ool1: real, ool2: real): (r: Quat)
    ensures Norm(a) == 1.0 && Norm(b) == 1.0 && Norm(c) == 1.0 ==> r == Product(Product(a, b), c)
  {
    var q := Mul(a, b, ool1);
    NormMultiplicative(a, b);
    Mul(q, c, ool2)
  }

  /** Mul4: three normalized products in turn, with one reciprocal root for each. */
  function Mul4(a: Quat, b: Quat, c: Quat, d: Quat, ool1: real, ool2: real, ool3: real): (r: Quat)
    ensures Norm(a) == 1.0 && Norm(b) == 1.0 && Norm(c) == 1.0 && Norm(d) == 1.0
        ==> r == Product(Product(Product(a, b), c), d)
  {
    var q := Mul(a, b, ool1);
    NormMultiplicative(a, b);
    var q' := Mul(q, c, ool2);
    NormMultiplicative(q, c);
    Mul(q', d, ool3)
  }

  /** Scaling by `c` multiplies the norm by c² and the dot product with the original by c. */
  lemma ScaledNorm(q: Quat, c: real)
    ensures Norm(Scaled(q, c)) == c * c * Norm(q)
    ensures Dot(Scaled(q, c), q) == c * Norm(q)
  {
    var r := Scaled(q, c);
    assert r.x * r.x == c * c * (q.x * q.x);
    assert r.y * r.y == c * c * (q.y * q.y);
    assert r.z * r.z == c * c * (q.z * q.z);
    assert r.w * r.w == c * c * (q.w * q.w);
  }

  /** Scalings compose by multiplying the factors; scaling by 1 changes nothing. */
  lemma ScaledComposes(q: Quat, a: real, b: real)
    ensures Scaled(Scaled(q, a), b) == Scaled(q, a * b)
    ensures Scaled(q, 1.0) == q
  {
  }

  /** The norm of a product is the product of the norms. */
  lemma NormMultiplicative(a: Quat, b: Quat)
    ensures Norm(Product(a, b)) == Norm(a) * Norm(b)
  {
    var p := Product(a, b);
    ProductIsProduct(a, b);
    FourSquares(a.x, a.y, a.z, a.w, b.x, b.y, b.z, b.w, p.x, p.y, p.z, p.w, Norm(a), Norm(b));
  }

  /** The norm vanishes exactly at the zero quaternion. */
  lemma NormZero(q: Quat)
    ensures Norm(q) == 0.0 <==> q == Zero
  {
    Scalar.Square(q.x);
    Scalar.Square(q.y);
    Scalar.Square(q.z);
    Scalar.Square(q.w);
    if q.x != 0.0 {
      calc {
        Norm(q);
        q.x * q.x + (q.y * q.y + q.z * q.z + q.w * q.w);
      >=
        q.x * q.x;
      >
        0.0;
      }
    } else if q.y != 0.0 {
      calc {
        Norm(q);
        q.y * q.y + (q.x * q.x + q.z * q.z + q.w * q.w);
      >=
        q.y * q.y;
      >
        0.0;
      }
    } else if q.z != 0.0 {
      calc {
        Norm(q);
        q.z * q.z + (q.x * q.x + q.y * q.y + q.w * q.w);
      >=
        q.z * q.z;
      >
        0.0;
      }
    } else if q.w != 0.0 {
      calc {
        Norm(q);
        q.w * q.w + (q.x * q.x + q.y * q.y + q.z * q.z);
      >=
        q.w * q.w;
      >
        0.0;
      }
    }
  }

  /** Dot is symmetric, and the dot product of q with itself is its norm. */
  lemma DotLaws(a: Quat, b: Quat)
    ensures Dot(a, b) == Dot(b, a)
    ensures Dot(a, a) == Norm(a)
  {
  }

  /** The conjugate keeps the scalar part and the norm; its dot with q is w^2 minus the vector part's squares. */
  lemma ConjugateNorm(q: Quat)
    ensures Conjugated(q).w == q.w
    ensures Norm(Conjugated(q)) == Norm(q)
    ensures Dot(Conjugated(q), q) == q.w * q.w - q.x * q.x - q.y * q.y - q.z * q.z
  {
  }

  /** Conjugating twice gives the quaternion back. */
  lemma ConjugateInvolution(q: Quat)
    ensures Conjugated(Conjugated(q)) == q
  {
  }

  /** The conjugate of a product is the product of the conjugates in reverse order. */
  lemma ConjugateOfProduct(a: Quat, b: Quat)
    ensures Conjugated(Product(a, b)) == Product(Conjugated(b), Conjugated(a))
  {
  }

  /** Ident is a two-sided identity of the product, so Mul by Ident only normalizes. */
  lemma IdentLaws(q: Quat, ool: real)
    ensures Product(Ident, q) == q
    ensures Product(q, Ident) == q
    ensures Mul(Ident, q, ool) == Normalized(q, ool)
    ensures Mul(q, Ident, ool) == Normalized(q, ool)
  {
  }

  /** A quaternion times its conjugate is the real quaternion of its norm, in either order. */
  lemma ProductWithConjugate(q: Quat)
    ensures Product(q, Conjugated(q)) == Quat(0.0, 0.0, 0.0, Norm(q))
    ensures Product(Conjugated(q), q) == Quat(0.0, 0.0, 0.0, Norm(q))
  {
  }

  /**
   * The four components of a Hamilton product `p = a c`, as a relation
   * between plain reals.
   */
  predicate IsProduct(ax: real, ay: real, az: real, aw: real, cx: real, cy: real, cz: real, cw: real,
                      px: real, py: real, pz: real, pw: real)
  {
    && px == aw * cx + ax * cw + ay * cz - az * cy
    && py == aw * cy + ay * cw + az * cx - ax * cz
    && pz == aw * cz + az * cw + ax * cy - ay * cx
    && pw == aw * cw - ax * cx - ay * cy - az * cz
  }

  /** Product computes the Hamilton product. */
  lemma ProductIsProduct(a: Quat, b: Quat)
    ensures var p := Product(a, b); IsProduct(a.x, a.y, a.z, a.w, b.x, b.y, b.z, b.w, p.x, p.y, p.z, p.w)
  {
  }

  /** The square of component x of a Hamilton product, expanded. */
  lemma ProductSquareX(ax: real, ay: real, az: real, aw: real, cx: real, cy: real, cz: real, cw: real, p: real)
    requires p == aw * cx + ax * cw + ay * cz - az * cy
    ensures p * p == aw * aw * cx * cx + 2.0 * aw * ax * cw * cx + 2.0 * aw * ay * cx * cz - 2.0 * aw * az * cx * cy + ax * ax * cw * cw + 2.0 * ax * ay * cw * cz - 2.0 * ax * az * cw * cy + ay * ay * cz * cz - 2.0 * ay * az * cy * cz + az * az * cy * cy
  {
    calc {
      p * p;
      (aw * cx + ax * cw + ay * cz - az * cy) * (aw * cx + ax * cw + ay * cz - az * cy);
      aw * aw * cx * cx + 2.0 * aw * ax * cw * cx + 2.0 * aw * ay * cx * cz - 2.0 * aw * az * cx * cy + ax * ax * cw * cw + 2.0 * ax * ay * cw * cz - 2.0 * ax * az * cw * cy + ay * ay * cz * cz - 2.0 * ay * az * cy * cz + az * az * cy * cy;
    }
  }

  /** The square of component y of a Hamilton product, expanded. */
  lemma ProductSquareY(ax: real, ay: real, az: real, aw: real, cx: real, cy: real, cz: real, cw: real, p: real)
    requires p == aw * cy + ay * cw + az * cx - ax * cz
    ensures p * p == aw * aw * cy * cy - 2.0 * aw * ax * cy * cz + 2.0 * aw * ay * cw * cy + 2.0 * aw * az * cx * cy + ax * ax * cz * cz - 2.0 * ax * ay * cw * cz - 2.0 * ax * az * cx * cz + ay * ay * cw * cw + 2.0 * ay * az * cw * cx + az * az * cx * cx
  {
    calc {
      p * p;
      (aw * cy + ay * cw + az * cx - ax * cz) * (aw * cy + ay * cw + az * cx - ax * cz);
      aw * aw * cy * cy - 2.0 * aw * ax * cy * cz + 2.0 * aw * ay * cw * cy + 2.0 * aw * az * cx * cy + ax * ax * cz * cz - 2.0 * ax * ay * cw * cz - 2.0 * ax * az * cx * cz + ay * ay * cw * cw + 2.0 * ay * az * cw * cx + az * az * cx * cx;
    }
  }

  /** The square of component z of a Hamilton product, expanded. */
  lemma ProductSquareZ(ax: real, ay: real, az: real, aw: real, cx: real, cy: real, cz: real, cw: real, p: real)
    requires p == aw * cz + az * cw + ax * cy - ay * cx
    ensures p * p == aw * aw * cz * cz + 2.0 * aw * ax * cy * cz - 2.0 * aw * ay * cx * cz + 2.0 * aw * az * cw * cz + ax * ax * cy * cy - 2.0 * ax * ay * cx * cy + 2.0 * ax * az * cw * cy + ay * ay * cx * cx - 2.0 * ay * az * cw * cx + az * az * cw * cw
  {
    calc {
      p * p;
      (aw * cz + az * cw + ax * cy - ay * cx) * (aw * cz + az * cw + ax * cy - ay * cx);
      aw * aw * cz * cz + 2.0 * aw * ax * cy * cz - 2.0 * aw * ay * cx * cz + 2.0 * aw * az * cw * cz + ax * ax * cy * cy - 2.0 * ax * ay * cx * cy + 2.0 * ax * az * cw * cy + ay * ay * cx * cx - 2.0 * ay * az * cw * cx + az * az * cw * cw;
    }
  }

  /** The square of component w of a Hamilton product, expanded. */
  lemma ProductSquareW(ax: real, ay: real, az: real, aw: real, cx: real, cy: real, cz: real, cw: real, p: real)
    requires p == aw * cw - ax * cx - ay * cy - az * cz
    ensures p * p == aw * aw * cw * cw - 2.0 * aw * ax * cw * cx - 2.0 * aw * ay * cw * cy - 2.0 * aw * az * cw * cz + ax * ax * cx * cx + 2.0 * ax * ay * cx * cy + 2.0 * ax * az * cx * cz + ay * ay * cy * cy + 2.0 * ay * az * cy * cz + az * az * cz * cz
  {
    calc {
      p * p;
      (aw * cw - ax * cx - ay * cy - az * cz) * (aw * cw - ax * cx - ay * cy - az * cz);
      aw * aw * cw * cw - 2.0 * aw * ax * cw * cx - 2.0 * aw * ay * cw * cy - 2.0 * aw * az * cw * cz + ax * ax * cx * cx + 2.0 * ax * ay * cx * cy + 2.0 * ax * az * cx * cz + ay * ay * cy * cy + 2.0 * ay * az * cy * cz + az * az * cz * cz;
    }
  }

  /** A product of two sums of four squares, expanded. */
  lemma ProductOfNorms(ax: real, ay: real, az: real, aw: real, cx: real, cy: real, cz: real, cw: real, na: real, nc: real)
    requires na == ax * ax + ay * ay + az * az + aw * aw && nc == cx * cx + cy * cy + cz * cz + cw * cw
    ensures na * nc == aw * aw * cw * cw + aw * aw * cx * cx + aw * aw * cy * cy + aw * aw * cz * cz + ax * ax * cw * cw + ax * ax * cx * cx + ax * ax * cy * cy + ax * ax * cz * cz + ay * ay * cw * cw + ay * ay * cx * cx + ay * ay * cy * cy + ay * ay * cz * cz + az * az * cw * cw + az * az * cx * cx + az * az * cy * cy + az * az * cz * cz
  {
    calc {
      na * nc;
      (ax * ax + ay * ay + az * az + aw * aw) * (cx * cx + cy * cy + cz * cz + cw * cw);
      aw * aw * cw * cw + aw * aw * cx * cx + aw * aw * cy * cy + aw * aw * cz * cz + ax * ax * cw * cw + ax * ax * cx * cx + ax * ax * cy * cy + ax * ax * cz * cz + ay * ay * cw * cw + ay * ay * cx * cx + ay * ay * cy * cy + ay * ay * cz * cz + az * az * cw * cw + az * az * cx * cx + az * az * cy * cy + az * az * cz * cz;
    }
  }

  /** The four-square identity on plain reals: the norm of p = a c is the product of the norms. */
  lemma FourSquares(ax: real, ay: real, az: real, aw: real, cx: real, cy: real, cz: real, cw: real,
                    px: real, py: real, pz: real, pw: real, na: real, nc: real)
    requires IsProduct(ax, ay, az, aw, cx, cy, cz, cw, px, py, pz, pw)
    requires na == ax * ax + ay * ay + az * az + aw * aw && nc == cx * cx + cy * cy + cz * cz + cw * cw
    ensures px * px + py * py + pz * pz + pw * pw == na * nc
  {
    ProductSquareX(ax, ay, az, aw, cx, cy, cz, cw, px);
    ProductSquareY(ax, ay, az, aw, cx, cy, cz, cw, py);
    ProductSquareZ(ax, ay, az, aw, cx, cy, cz, cw, pz);
    ProductSquareW(ax, ay, az, aw, cx, cy, cz, cw, pw);
    ProductOfNorms(ax, ay, az, aw, cx, cy, cz, cw, na, nc);
  }

  /** Scaling a factor by `k` scales each component of the product by `k` (one lemma per component). */
  lemma ScaledRightX(a: Quat, b: Quat, k: real)
    ensures Product(a, Scaled(b, k)).x == Product(a, b).x * k
  {
    calc {
      Product(a, Scaled(b, k)).x;
      a.w * (b.x * k) + a.x * (b.w * k) + a.y * (b.z * k) - a.z * (b.y * k);
      (a.w * b.x + a.x * b.w + a.y * b.z - a.z * b.y) * k;
      Product(a, b).x * k;
    }
  }

  lemma ScaledRightY(a: Quat, b: Quat, k: real)
    ensures Product(a, Scaled(b, k)).y == Product(a, b).y * k
  {
    calc {
      Product(a, Scaled(b, k)).y;
      a.w * (b.y * k) + a.y * (b.w * k) + a.z * (b.x * k) - a.x * (b.z * k);
      (a.w * b.y + a.y * b.w + a.z * b.x - a.x * b.z) * k;
      Product(a, b).y * k;
    }
  }

  lemma ScaledRightZ(a: Quat, b: Quat, k: real)
    ensures Product(a, Scaled(b, k)).z == Product(a, b).z * k
  {
    calc {
      Product(a, Scaled(b, k)).z;
      a.w * (b.z * k) + a.z * (b.w * k) + a.x * (b.y * k) - a.y * (b.x * k);
      (a.w * b.z + a.z * b.w + a.x * b.y - a.y * b.x) * k;
      Product(a, b).z * k;
    }
  }

  lemma ScaledRightW(a: Quat, b: Quat, k: real)
    ensures Product(a, Scaled(b, k)).w == Product(a, b).w * k
  {
    calc {
      Product(a, Scaled(b, k)).w;
      a.w * (b.w * k) - a.x * (b.x * k) - a.y * (b.y * k) - a.z * (b.z * k);
      (a.w * b.w - a.x * b.x - a.y * b.y - a.z * b.z) * k;
      Product(a, b).w * k;
    }
  }

  lemma ScaledLeftX(a: Quat, b: Quat, k: real)
    ensures Product(Scaled(a, k), b).x == Product(a, b).x * k
  {
    calc {
      Product(Scaled(a, k), b).x;
      (a.w * k) * b.x + (a.x * k) * b.w + (a.y * k) * b.z - (a.z * k) * b.y;
      (a.w * b.x + a.x * b.w + a.y * b.z - a.z * b.y) * k;
      Product(a, b).x * k;
    }
  }

  lemma ScaledLeftY(a: Quat, b: Quat, k: real)
    ensures Product(Scaled(a, k), b).y == Product(a, b).y * k
  {
    calc {
      Product(Scaled(a, k), b).y;
      (a.w * k) * b.y + (a.y * k) * b.w + (a.z * k) * b.x - (a.x * k) * b.z;
      (a.w * b.y + a.y * b.w + a.z * b.x - a.x * b.z) * k;
      Product(a, b).y * k;
    }
  }

  lemma ScaledLeftZ(a: Quat, b: Quat, k: real)
    ensures Product(Scaled(a, k), b).z == Product(a, b).z * k
  {
    calc {
      Product(Scaled(a, k), b).z;
      (a.w * k) * b.z + (a.z * k) * b.w + (a.x * k) * b.y - (a.y * k) * b.x;
      (a.w * b.z + a.z * b.w + a.x * b.y - a.y * b.x) * k;
      Product(a, b).z * k;
    }
  }

  lemma ScaledLeftW(a: Quat, b: Quat, k: real)
    ensures Product(Scaled(a, k), b).w == Product(a, b).w * k
  {
    calc {
      Product(Scaled(a, k), b).w;
      (a.w * k) * b.w - (a.x * k) * b.x - (a.y * k) * b.y - (a.z * k) * b.z;
      (a.w * b.w - a.x * b.x - a.y * b.y - a.z * b.z) * k;
      Product(a, b).w * k;
    }
  }

  /** Scaling either factor scales the product. */
  lemma ProductScales(a: Quat, b: Quat, k: real)
    ensures Product(a, Scaled(b, k)) == Scaled(Product(a, b), k)
    ensures Product(Scaled(a, k), b) == Scaled(Product(a, b), k)
  {
    ScaledRightX(a, b, k);
    ScaledRightY(a, b, k);
    ScaledRightZ(a, b, k);
    ScaledRightW(a, b, k);
    ScaledLeftX(a, b, k);
    ScaledLeftY(a, b, k);
    ScaledLeftZ(a, b, k);
    ScaledLeftW(a, b, k);
  }

  /** The inverse undoes the product from either side. */
  lemma InverseLaws(q: Quat)
    requires Dot(q, q) != 0.0
    ensures Product(q, Inversed(q)) == Ident
    ensures Product(Inversed(q), q) == Ident
  {
    var n := Dot(q, q);
    DotLaws(q, q);
    ProductWithConjugate(q);
    ProductScales(q, Conjugated(q), 1.0 / n);
    ProductScales(Conjugated(q), q, 1.0 / n);
    assert n * (1.0 / n) == 1.0;
  }

  /**
   * Associativity on plain reals: with `s = a m` and `t = m n`, the products
   * `s n` and `a t` agree component by component (one lemma per component).
   */
  lemma AssociativeX(ax: real, ay: real, az: real, aw: real, mx: real, my: real, mz: real, mw: real,
                    nx: real, ny: real, nz: real, nw: real, sx: real, sy: real, sz: real, sw: real,
                    tx: real, ty: real, tz: real, tw: real)
    requires IsProduct(ax, ay, az, aw, mx, my, mz, mw, sx, sy, sz, sw)
    requires IsProduct(mx, my, mz, mw, nx, ny, nz, nw, tx, ty, tz, tw)
    ensures sw * nx + sx * nw + sy * nz - sz * ny == aw * tx + ax * tw + ay * tz - az * ty
  {
    calc {
      sw * nx + sx * nw + sy * nz - sz * ny;
      (aw * mw - ax * mx - ay * my - az * mz) * nx + (aw * mx + ax * mw + ay * mz - az * my) * nw + (aw * my + ay * mw + az * mx - ax * mz) * nz - (aw * mz + az * mw + ax * my - ay * mx) * ny;
      aw * mw * nx + aw * mx * nw + aw * my * nz - aw * mz * ny + ax * mw * nw - ax * mx * nx - ax * my * ny - ax * mz * nz + ay * mw * nz + ay * mx * ny - ay * my * nx + ay * mz * nw - az * mw * ny + az * mx * nz - az * my * nw - az * mz * nx;
      aw * (mw * nx + mx * nw + my * nz - mz * ny) + ax * (mw * nw - mx * nx - my * ny - mz * nz) + ay * (mw * nz + mz * nw + mx * ny - my * nx) - az * (mw * ny + my * nw + mz * nx - mx * nz);
      aw * tx + ax * tw + ay * tz - az * ty;
    }
  }

  lemma AssociativeY(ax: real, ay: real, az: real, aw: real, mx: real, my: real, mz: real, mw: real,
                    nx: real, ny: real, nz: real, nw: real, sx: real, sy: real, sz: real, sw: real,
                    tx: real, ty: real, tz: real, tw: real)
    requires IsProduct(ax, ay, az, aw, mx, my, mz, mw, sx, sy, sz, sw)
    requires IsProduct(mx, my, mz, mw, nx, ny, nz, nw, tx, ty, tz, tw)
    ensures sw * ny + sy * nw + sz * nx - sx * nz == aw * ty + ay * tw + az * tx - ax * tz
  {
    calc {
      sw * ny + sy * nw + sz * nx - sx * nz;
      (aw * mw - ax * mx - ay * my - az * mz) * ny + (aw * my + ay * mw + az * mx - ax * mz) * nw + (aw * mz + az * mw + ax * my - ay * mx) * nx - (aw * mx + ax * mw + ay * mz - az * my) * nz;
      aw * mw * ny - aw * mx * nz + aw * my * nw + aw * mz * nx - ax * mw * nz - ax * mx * ny + ax * my * nx - ax * mz * nw + ay * mw * nw - ay * mx * nx - ay * my * ny - ay * mz * nz + az * mw * nx + az * mx * nw + az * my * nz - az * mz * ny;
      aw * (mw * ny + my * nw + mz * nx - mx * nz) + ay * (mw * nw - mx * nx - my * ny - mz * nz) + az * (mw * nx + mx * nw + my * nz - mz * ny) - ax * (mw * nz + mz * nw + mx * ny - my * nx);
      aw * ty + ay * tw + az * tx - ax * tz;
    }
  }

  lemma AssociativeZ(ax: real, ay: real, az: real, aw: real, mx: real, my: real, mz: real, mw: real,
                    nx: real, ny: real, nz: real, nw: real, sx: real, sy: real, sz: real, sw: real,
                    tx: real, ty: real, tz: real, tw: real)
    requires IsProduct(ax, ay, az, aw, mx, my, mz, mw, sx, sy, sz, sw)
    requires IsProduct(mx, my, mz, mw, nx, ny, nz, nw, tx, ty, tz, tw)
    ensures sw * nz + sz * nw + sx * ny - sy * nx == aw * tz + az * tw + ax * ty - ay * tx
  {
    calc {
      sw * nz + sz * nw + sx * ny - sy * nx;
      (aw * mw - ax * mx - ay * my - az * mz) * nz + (aw * mz + az * mw + ax * my - ay * mx) * nw + (aw * mx + ax * mw + ay * mz - az * my) * ny - (aw * my + ay * mw + az * mx - ax * mz) * nx;
      aw * mw * nz + aw * mx * ny - aw * my * nx + aw * mz * nw + ax * mw * ny - ax * mx * nz + ax * my * nw + ax * mz * nx - ay * mw * nx - ay * mx * nw - ay * my * nz + ay * mz * ny + az * mw * nw - az * mx * nx - az * my * ny - az * mz * nz;
      aw * (mw * nz + mz * nw + mx * ny - my * nx) + az * (mw * nw - mx * nx - my * ny - mz * nz) + ax * (mw * ny + my * nw + mz * nx - mx * nz) - ay * (mw * nx + mx * nw + my * nz - mz * ny);
      aw * tz + az * tw + ax * ty - ay * tx;
    }
  }

  lemma AssociativeW(ax: real, ay: real, az: real, aw: real, mx: real, my: real, mz: real, mw: real,
                    nx: real, ny: real, nz: real, nw: real, sx: real, sy: real, sz: real, sw: real,
                    tx: real, ty: real, tz: real, tw: real)
    requires IsProduct(ax, ay, az, aw, mx, my, mz, mw, sx, sy, sz, sw)
    requires IsProduct(mx, my, mz, mw, nx, ny, nz, nw, tx, ty, tz, tw)
    ensures sw * nw - sx * nx - sy * ny - sz * nz == aw * tw - ax * tx - ay * ty - az * tz
  {
    calc {
      sw * nw - sx * nx - sy * ny - sz * nz;
      (aw * mw - ax * mx - ay * my - az * mz) * nw - (aw * mx + ax * mw + ay * mz - az * my) * nx - (aw * my + ay * mw + az * mx - ax * mz) * ny - (aw * mz + az * mw + ax * my - ay * mx) * nz;
      aw * mw * nw - aw * mx * nx - aw * my * ny - aw * mz * nz - ax * mw * nx - ax * mx * nw - ax * my * nz + ax * mz * ny - ay * mw * ny + ay * mx * nz - ay * my * nw - ay * mz * nx - az * mw * nz - az * mx * ny + az * my * nx - az * mz * nw;
      aw * (mw * nw - mx * nx - my * ny - mz * nz) - ax * (mw * nx + mx * nw + my * nz - mz * ny) - ay * (mw * ny + my * nw + mz * nx - mx * nz) - az * (mw * nz + mz * nw + mx * ny - my * nx);
      aw * tw - ax * tx - ay * ty - az * tz;
    }
  }

  /** The Hamilton product is associative. */
  lemma ProductAssociative(a: Quat, b: Quat, c: Quat)
    ensures Product(Product(a, b), c) == Product(a, Product(b, c))
  {
    var ab, bc := Product(a, b), Product(b, c);
    ProductIsProduct(a, b);
    ProductIsProduct(b, c);
    AssociativeX(a.x, a.y, a.z, a.w, b.x, b.y, b.z, b.w, c.x, c.y, c.z, c.w,
                  ab.x, ab.y, ab.z, ab.w, bc.x, bc.y, bc.z, bc.w);
    AssociativeY(a.x, a.y, a.z, a.w, b.x, b.y, b.z, b.w, c.x, c.y, c.z, c.w,
                  ab.x, ab.y, ab.z, ab.w, bc.x, bc.y, bc.z, bc.w);
    AssociativeZ(a.x, a.y, a.z, a.w, b.x, b.y, b.z, b.w, c.x, c.y, c.z, c.w,
                  ab.x, ab.y, ab.z, ab.w, bc.x, bc.y, bc.z, bc.w);
    AssociativeW(a.x, a.y, a.z, a.w, b.x, b.y, b.z, b.w, c.x, c.y, c.z, c.w,
                  ab.x, ab.y, ab.z, ab.w, bc.x, bc.y, bc.z, bc.w);
  }

  /** Reading a quaternion as a vector and back changes nothing, in either order. */
  lemma Vec4RoundTrip(q: Quat, v: Vector4.Vector)
    ensures FromVec4(Vec4(q)) == q
    ensures Vec4(FromVec4(v)) == v
    ensures Norm(FromVec4(v)) == Vector4.Dot4(v, v)
  {
  }
}
