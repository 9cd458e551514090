/**
 * Axis-aligned box colliders: the overlap test and the push-out rule that
 * separates two overlapping boxes along the axis of least penetration.
 */
module Collisions {
  import opened Geometry

  /** A collider's value: its center and the distance from the center to each face. */
  datatype Box = Box(center: Vec3, range: Vec3)

  function Abs(x: real): real { if x < 0.0 then -x else x }

  /**
   * The separating-axis test, one axis after another: the boxes are apart as soon
   * as the centers lie at least the summed ranges apart on some axis, so boxes
   * that only touch do not intersect.
   */
  function Intersects(a: Box, b: Box): bool
  {
    if Abs(a.center.x - b.center.x) >= a.range.x + b.range.x then false
    else if Abs(a.center.y - b.center.y) >= a.range.y + b.range.y then false
    else if Abs(a.center.z - b.center.z) >= a.range.z + b.range.z then false
    else true
  }

  /** The open extents of the two boxes on one axis share a point. */
  predicate OpenOverlap(ca: real, ra: real, cb: real, rb: real)
  {
    ca - ra < cb + rb && cb - rb < ca + ra
  }

  /** The test agrees with overlap of the open extents on all three axes. */
  lemma IntersectsIffOverlap(a: Box, b: Box)
    ensures Intersects(a, b) <==>
      && OpenOverlap(a.center.x, a.range.x, b.center.x, b.range.x)
      && OpenOverlap(a.center.y, a.range.y, b.center.y, b.range.y)
      && OpenOverlap(a.center.z, a.range.z, b.center.z, b.range.z)
  {
  }

  lemma IntersectsSymmetric(a: Box, b: Box)
    ensures Intersects(a, b) == Intersects(b, a)
  {
  }

  /**
   * The push along one axis: the overlap measured from A's low side (`toLow`,
   * A's max minus B's min) or from its high side (`toHigh`, B's max minus A's
   * min); -toLow when that is the smaller one, toHigh otherwise.
   */
  function AxisPush(ca: real, ra: real, cb: real, rb: real): real
  {
    var toLow := (ca + ra) - (cb - rb);
    var toHigh := (cb + rb) - (ca - ra);
    if toLow < toHigh then -toLow else toHigh
  }

  /** The three per-axis pushes, before the tie-break. */
  function Candidates(a: Box, b: Box): Vec3
  {
    Vec3(AxisPush(a.center.x, a.range.x, b.center.x, b.range.x),
         AxisPush(a.center.y, a.range.y, b.center.y, b.range.y),
         AxisPush(a.center.z, a.range.z, b.center.z, b.range.z))
  }

  /**
   * The tie-break: X against Y first, dropping Y when X is strictly shorter and
   * X otherwise; then Z against whichever of them is left (Y when X was
   * dropped to zero), dropping the other when Z is strictly shorter and Z
   * otherwise.
   */
  function TieBreak(c: Vec3): Vec3
  {
    var (x1, y1) := if c.x * c.x < c.y * c.y then (c.x, 0.0) else (0.0, c.y);
    if x1 == 0.0 then
      if c.z * c.z < y1 * y1 then Vec3(x1, 0.0, c.z) else Vec3(x1, y1, 0.0)
    else
      if c.z * c.z < x1 * x1 then Vec3(0.0, y1, c.z) else Vec3(x1, y1, 0.0)
  }

  function PushDirection(a: Box, b: Box): Vec3
  {
    TieBreak(Candidates(a, b))
  }

  predicate AtMostOneAxis(d: Vec3)
  {
    (d.y == 0.0 && d.z == 0.0) || (d.x == 0.0 && d.z == 0.0) || (d.x == 0.0 && d.y == 0.0)
  }

  /** Whatever the boxes, the push moves along one axis at most. */
  lemma PushOnOneAxis(a: Box, b: Box)
    ensures AtMostOneAxis(PushDirection(a, b))
  {
  }

  /** The push on one axis is non-zero when the open extents overlap there. */
  lemma AxisPushNonZero(ca: real, ra: real, cb: real, rb: real)
    requires OpenOverlap(ca, ra, cb, rb)
    ensures AxisPush(ca, ra, cb, rb) != 0.0
  {
  }

  /**
   * For intersecting boxes the tie-break keeps exactly one of the three pushes,
   * and one that is no longer than either of the others.
   */
  lemma ShortestPushKept(a: Box, b: Box)
    requires Intersects(a, b)
    ensures var c, d := Candidates(a, b), PushDirection(a, b);
      || (d == Vec3(c.x, 0.0, 0.0) && c.x * c.x <= c.y * c.y && c.x * c.x <= c.z * c.z)
      || (d == Vec3(0.0, c.y, 0.0) && c.y * c.y <= c.x * c.x && c.y * c.y <= c.z * c.z)
      || (d == Vec3(0.0, 0.0, c.z) && c.z * c.z <= c.x * c.x && c.z * c.z <= c.y * c.y)
  {
    IntersectsIffOverlap(a, b);
    AxisPushNonZero(a.center.x, a.range.x, b.center.x, b.range.x);
    AxisPushNonZero(a.center.y, a.range.y, b.center.y, b.range.y);
    AxisPushNonZero(a.center.z, a.range.z, b.center.z, b.range.z);
    var c := Candidates(a, b);
    if c.x * c.x < c.y * c.y {
      assert c.x * c.x > 0.0 by { SquarePositive(c.x); }
    }
  }

  lemma SquarePositive(x: real)
    requires x != 0.0
    ensures x * x > 0.0
  {
    if x < 0.0 {
      assert x * x == (-x) * (-x);
    }
  }

  /** A box whose center is moved by `s` times the direction. */
  function Moved(box: Box, d: Vec3, s: real): Box
  {
    Box(Add(box.center, Scale(d, s)), box.range)
  }

  /** The slide: A takes four fifths of the push, B gives way by the remaining fifth. */
  const SlideSpeed: real := 0.8

  /**
   * After the push the boxes no longer intersect: on the kept axis the centers
   * end up exactly the summed ranges apart, so the boxes touch there.
   */
  lemma PushSeparates(a: Box, b: Box)
    requires Intersects(a, b)
    ensures var d := PushDirection(a, b);
      !Intersects(Moved(a, d, SlideSpeed), Moved(b, d, -(1.0 - SlideSpeed)))
  {
    ShortestPushKept(a, b);
  }

  /** A collider component: the box is updated in place by HandleCollision. */
  class ColliderAABB {
    var center: Vec3
    var range: Vec3

    constructor (center: Vec3, range: Vec3)
      ensures this.center == center && this.range == range
    {
      this.center := center;
      this.range := range;
    }

    function Value(): Box
      reads this
    {
      Box(center, range)
    }
  }

  /**
   * Moves intersecting colliders apart: A by four fifths of the push direction,
   * B back by one fifth, ranges untouched. Colliders that do not intersect stay
   * where they are. When A and B are the same collider, both moves apply to it.
   */
  method HandleCollision(a: ColliderAABB, b: ColliderAABB)
    modifies a, b
    ensures a.range == old(a.range) && b.range == old(b.range)
    ensures !Intersects(old(a.Value()), old(b.Value())) ==> a.center == old(a.center) && b.center == old(b.center)
    ensures Intersects(old(a.Value()), old(b.Value())) && a != b ==>
      var d := PushDirection(old(a.Value()), old(b.Value()));
      && a.center == Add(old(a.center), Scale(d, SlideSpeed))
      && b.center == Sub(old(b.center), Scale(d, 1.0 - SlideSpeed))
      && Sub(a.center, b.center) == Add(Sub(old(a.center), old(b.center)), d)
    ensures Intersects(old(a.Value()), old(b.Value())) && a == b ==>
      var d := PushDirection(old(a.Value()), old(a.Value()));
      a.center == Sub(Add(old(a.center), Scale(d, SlideSpeed)), Scale(d, 1.0 - SlideSpeed))
  {
    if Intersects(a.Value(), b.Value()) {
      var direction := PushDirection(a.Value(), b.Value());
      a.center := Add(a.center, Scale(direction, SlideSpeed));
      b.center := Sub(b.center, Scale(direction, 1.0 - SlideSpeed));
    }
  }
}
