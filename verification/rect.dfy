/** Axis-aligned rectangles (package vector2, rect.go). */
module Rect {
  import opened Vector2

  datatype Rect = Rect(min: Vector, max: Vector)

  /** Min does not exceed Max on either axis. */
  predicate WellFormed(t: Rect)
  {
    LessEq(t.min, t.max)
  }

  predicate ContainsPoint(t: Rect, p: Vector)
  {
    p.x >= t.min.x && p.x <= t.max.x && p.y >= t.min.y && p.y <= t.max.y
  }

  predicate Contains(t: Rect, o: Rect)
  {
    o.min.x >= t.min.x && o.max.x <= t.max.x && o.min.y >= t.min.y && o.max.y <= t.max.y
  }

  /** The source tests the overlap from both sides and accepts either. */
  predicate Intersects(t: Rect, o: Rect)
  {
    || (o.min.x <= t.max.x && o.max.x >= t.min.x && o.min.y <= t.max.y && o.max.y >= t.min.y)
    || (t.min.x <= o.max.x && t.max.x >= o.min.x && t.min.y <= o.max.y && t.max.y >= o.min.y)
  }

  /** Containment is a preorder. */
  lemma ContainsPreorder(a: Rect, b: Rect, c: Rect)
    ensures Contains(a, a)
    ensures Contains(a, b) && Contains(b, c) ==> Contains(a, c)
  {
  }

  /** A point of a contained rectangle is a point of the container. */
  lemma ContainsPointMonotone(t: Rect, o: Rect, p: Vector)
    requires Contains(t, o) && ContainsPoint(o, p)
    ensures ContainsPoint(t, p)
  {
  }

  /** The two disjuncts of Intersects say the same thing, so the test is symmetric. */
  lemma IntersectsSymmetric(t: Rect, o: Rect)
    ensures Intersects(t, o) <==> Intersects(o, t)
    ensures Intersects(t, o) <==>
      (o.min.x <= t.max.x && o.max.x >= t.min.x && o.min.y <= t.max.y && o.max.y >= t.min.y)
  {
  }

  /** Rectangles sharing a point intersect. */
  lemma CommonPointIntersects(t: Rect, o: Rect, p: Vector)
    requires ContainsPoint(t, p) && ContainsPoint(o, p)
    ensures Intersects(t, o)
  {
  }

  /** A well-formed rectangle intersects any rectangle containing it. */
  lemma ContainedIntersects(t: Rect, o: Rect)
    requires WellFormed(o) && Contains(t, o)
    ensures Intersects(t, o)
  {
  }

  /** Without well-formedness the previous lemma fails: an inverted rectangle can be contained but disjoint. */
  lemma ContainedInvertedNeedNotIntersect()
    ensures var t := Rect(Vector(0.0, 0.0), Vector(1.0, 1.0));
            var o := Rect(Vector(2.0, 0.0), Vector(0.5, 1.0));
            Contains(t, o) && !Intersects(t, o)
  {
  }
}
