/**
 * Angle constants and angle wrapping (package sutil).
 *
 * KPi is the exact decimal literal the Go math package gives for pi; every
 * proof below uses only that it is positive and the relations between the
 * derived constants.
 */
module Sutil {

  const KPi: real := 3.14159265358979323846264338327950288419716939937510582097494459
  const K2Pi: real := KPi * 2.0
  const KPiOver2: real := KPi / 2.0
  const K1OverPi: real := 1.0 / KPi
  const K1Over2Pi: real := 1.0 / K2Pi
  const Rad2Deg: real := 180.0 / KPi
  const Deg2Rad: real := KPi / 180.0

  /** The derived constants agree with KPi as untyped Go constants do. */
  lemma ConstantRelations()
    ensures KPi > 0.0
    ensures K2Pi == 2.0 * KPi && KPiOver2 * 2.0 == KPi
    ensures K1Over2Pi * K2Pi == 1.0
    ensures K1OverPi * KPi == 1.0
    ensures Rad2Deg * Deg2Rad == 1.0
  {
  }

  /** `d` is a whole number of turns of 2 pi. */
  predicate IsWholeTurns(d: real)
  {
    (d * K1Over2Pi).Floor as real == d * K1Over2Pi
  }

  /** Angle wrapping: shift by pi, subtract whole turns, shift back. */
  function WrapPi(theta: real): (r: real)
    ensures -KPi <= r < KPi
    ensures IsWholeTurns(r - theta)
    ensures -KPi <= theta < KPi ==> r == theta
  {
    var shifted := theta + KPi;
    var turns := (shifted * K1Over2Pi).Floor;
    ReduceTurns(shifted);
    ShiftByTurns(turns);
    shifted - turns as real * K2Pi - KPi
  }

  /** Subtracting the floor of u / 2pi whole turns leaves u in [0, 2pi). */
  lemma ReduceTurns(u: real)
    ensures 0.0 <= u - (u * K1Over2Pi).Floor as real * K2Pi < K2Pi
    ensures 0.0 <= u < K2Pi ==> (u * K1Over2Pi).Floor == 0
  {
    ConstantRelations();
    var q := u * K1Over2Pi;
    var k := q.Floor;
    assert k as real <= q < k as real + 1.0;
    assert q * K2Pi == u;
    assert k as real * K2Pi <= u;
    assert u < (k as real + 1.0) * K2Pi;
  }

  /** A shift by k whole turns is a whole number of turns. */
  lemma ShiftByTurns(k: int)
    ensures IsWholeTurns(-(k as real) * K2Pi)
  {
    ConstantRelations();
    var kr := -(k as real);
    calc {
      kr * K2Pi * K1Over2Pi;
      kr * (K2Pi * K1Over2Pi);
      kr;
    }
    assert (kr as real).Floor == -k;
  }

  /** WrapPi sends pi to -pi: the range is half-open at the top. */
  lemma WrapPiOfPi()
    ensures WrapPi(KPi) == -KPi
  {
    ConstantRelations();
    assert (KPi + KPi) * K1Over2Pi == 1.0;
  }

  /** Wrapping twice is wrapping once. */
  lemma WrapPiIdempotent(theta: real)
    ensures WrapPi(WrapPi(theta)) == WrapPi(theta)
  {
  }

  /** WrapPi does not see whole turns added to its argument. */
  lemma {:induction false} WrapPiPeriodic(theta: real)
    ensures WrapPi(theta + K2Pi) == WrapPi(theta)
  {
    ConstantRelations();
    var u := theta + KPi;
    var q := u * K1Over2Pi;
    assert (u + K2Pi) * K1Over2Pi == q + 1.0;
    assert (q + 1.0).Floor == q.Floor + 1;
  }
}
