/** Axis-aligned boxes (package vector3, box.go). */
module Box {
  import opened Vector3
  import opened Wrappers

  datatype Box = Box(min: Vector, max: Vector)

  /** Min does not exceed Max on any axis. */
  predicate WellFormed(t: Box)
  {
    LessEq(t.min, t.max)
  }

  predicate ContainsPoint(t: Box, p: Vector)
  {
    && p.x >= t.min.x && p.x <= t.max.x
    && p.y >= t.min.y && p.y <= t.max.y
    && p.z >= t.min.z && p.z <= t.max.z
  }

  /** The midpoint of the two corners lies in every well-formed box. */
  function Center(t: Box): (r: Vector)
    ensures WellFormed(t) ==> ContainsPoint(t, r)
    ensures Add(Sub(r, t.min), Sub(r, t.max)) == Zero
  {
    Scaled(Add(t.min, t.max), 0.5)
  }

  /** The axis-by-axis separation test, in the source's order. */
  predicate Intersects(t: Box, o: Box)
  {
    if t.min.x > o.max.x || t.max.x < o.min.x then false
    else if t.min.y > o.max.y || t.max.y < o.min.y then false
    else if t.min.z > o.max.z || t.max.z < o.min.z then false
    else true
  }

  /**
   * The same tests as Intersects, returning the overlap box (or nothing,
   * the nil pointer of the source). The overlap holds exactly the points
   * common to both boxes.
   */
  function Intersects2(t: Box, o: Box): (r: Option<Box>)
    ensures r.Some? <==> Intersects(t, o)
    ensures r.Some? ==> r.value.min == Max(t.min, o.min) && r.value.max == Min(t.max, o.max)
    ensures r.Some? ==> forall p :: ContainsPoint(r.value, p) <==> ContainsPoint(t, p) && ContainsPoint(o, p)
    ensures r.Some? && WellFormed(t) && WellFormed(o) ==> WellFormed(r.value)
  {
    if t.min.x > o.max.x || t.max.x < o.min.x then None
    else if t.min.y > o.max.y || t.max.y < o.min.y then None
    else if t.min.z > o.max.z || t.max.z < o.min.z then None
    else Some(Box(
      Vector(Scalar.Max(t.min.x, o.min.x), Scalar.Max(t.min.y, o.min.y), Scalar.Max(t.min.z, o.min.z)),
      Vector(Scalar.Min(t.max.x, o.max.x), Scalar.Min(t.max.y, o.max.y), Scalar.Min(t.max.z, o.max.z))))
  }

  /** The box spanning both arguments: every point of either lies in it. */
  function Joined(a: Box, o: Box): (r: Box)
    ensures forall p :: ContainsPoint(a, p) || ContainsPoint(o, p) ==> ContainsPoint(r, p)
    ensures WellFormed(a) || WellFormed(o) ==> WellFormed(r)
    ensures r.min == Vector3.Min(a.min, o.min) && r.max == Vector3.Max(a.max, o.max)
  {
    Box(Vector3.Min(a.min, o.min), Vector3.Max(a.max, o.max))
  }

  /** The in-place Join: Min is replaced first, then Max. */
  method Join(t: Box, o: Box) returns (r: Box)
    ensures r == Joined(t, o)
  {
    r := t;
    r := r.(min := Vector3.Min(r.min, o.min));
    r := r.(max := Vector3.Max(r.max, o.max));
  }

  /** The separation test does not depend on the order of the boxes. */
  lemma IntersectsSymmetric(t: Box, o: Box)
    ensures Intersects(t, o) <==> Intersects(o, t)
  {
  }

  /** Boxes sharing a point intersect. */
  lemma CommonPointIntersects(t: Box, o: Box, p: Vector)
    requires ContainsPoint(t, p) && ContainsPoint(o, p)
    ensures Intersects(t, o)
  {
  }

  /** Intersecting well-formed boxes share a point: the centre of their overlap. */
  lemma IntersectingBoxesSharePoint(t: Box, o: Box)
    requires WellFormed(t) && WellFormed(o) && Intersects(t, o)
    ensures ContainsPoint(t, Center(Intersects2(t, o).value))
    ensures ContainsPoint(o, Center(Intersects2(t, o).value))
  {
    var i := Intersects2(t, o).value;
    assert ContainsPoint(i, Center(i));
  }

  /** Joining a box with itself gives it back. */
  lemma JoinedSelf(b: Box)
    ensures Joined(b, b) == b
  {
  }

  /** Joining is symmetric up to ties, which give equal values. */
  lemma JoinedSymmetric(a: Box, o: Box)
    ensures Joined(a, o) == Joined(o, a)
  {
  }
}
