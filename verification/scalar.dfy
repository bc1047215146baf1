/** Per-component helpers shared by the vector packages. */
module Scalar {

  /**
   * `r` is what one step of the Clamp loop makes of `c`: below `lo` it
   * becomes `lo`; otherwise above `hi` it becomes `hi`; otherwise it stays.
   */
  predicate ClampsTo(c: real, lo: real, hi: real, r: real)
  {
    && (c < lo ==> r == lo)
    && (lo <= c && c > hi ==> r == hi)
    && (lo <= c <= hi ==> r == c)
  }

  /** One step of the Clamp loop: below `lo` gives `lo`, else above `hi` gives `hi`. */
  function Clamp(c: real, lo: real, hi: real): (r: real)
    ensures ClampsTo(c, lo, hi, r)
    ensures lo <= hi ==> lo <= r <= hi
    ensures lo <= c <= hi ==> r == c
    ensures r == c || r == lo || r == hi
  {
    if c < lo then lo else if c > hi then hi else c
  }

  /** The smaller of two reals; keeps `a` on a tie, as the vector Min functions do. */
  function Min(a: real, b: real): (r: real)
    ensures r <= a && r <= b
    ensures r == a || r == b
  {
    if a > b then b else a
  }

  /** The larger of two reals; keeps `a` on a tie, as the vector Max functions do. */
  function Max(a: real, b: real): (r: real)
    ensures a <= r && b <= r
    ensures r == a || r == b
  {
    if a < b then b else a
  }

  /** math.Abs on an exact real. */
  function Abs(a: real): (r: real)
    ensures r >= 0.0
    ensures r == a || r == -a
  {
    if a < 0.0 then -a else a
  }

  /** The interpolation weight after the Interpolate functions clamp it into [0, 1]. */
  function UnitWeight(t: real): (r: real)
    ensures 0.0 <= r <= 1.0
    ensures t <= 0.0 ==> r == 0.0
    ensures t >= 1.0 ==> r == 1.0
    ensures 0.0 <= t <= 1.0 ==> r == t
  {
    var t0 := if t < 0.0 then 0.0 else t;
    if t0 > 1.0 then 1.0 else t0
  }

  /** A square is non-negative, and positive away from zero. */
  lemma Square(a: real)
    ensures a * a >= 0.0
    ensures a != 0.0 ==> a * a > 0.0
    ensures a == 0.0 ==> a * a == 0.0
  {
    if a < 0.0 {
      PositiveSquare(-a);
      assert a * a == (-a) * (-a);
    } else if a > 0.0 {
      PositiveSquare(a);
    }
  }

  lemma PositiveSquare(b: real)
    requires b > 0.0
    ensures b * b > 0.0
  {
  }

  /** A sum of two squares is positive unless both terms are zero. */
  lemma SumOfSquares(a: real, b: real)
    requires a != 0.0 || b != 0.0
    ensures a * a + b * b > 0.0
  {
    Square(a);
    Square(b);
  }
}
