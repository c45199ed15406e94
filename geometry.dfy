/** Axis-aligned rectangles and the clamping helper shared by the physics and
    collision code. Coordinates are exact reals: the rounding of the game's `float`
    arithmetic is not modelled. */
module Geometry {

  /** A rectangle given by its top-left corner, width and height (y grows downwards). */
  datatype Rect = Rect(x: real, y: real, w: real, h: real)

  /** Overlap test of two rectangles with strict inequalities on every side, so
      rectangles that only share an edge do not intersect. */
  predicate IntersectsWith(a: Rect, b: Rect)
  {
    a.x < b.x + b.w && b.x < a.x + a.w && a.y < b.y + b.h && b.y < a.y + a.h
  }

  lemma IntersectsWithSymmetric(a: Rect, b: Rect)
    ensures IntersectsWith(a, b) == IntersectsWith(b, a)
  {
  }

  /** `inner` lies `margin` inside `outer` on each of its four sides. */
  predicate Inset(inner: Rect, outer: Rect, margin: real)
  {
    && inner.x == outer.x + margin
    && inner.y == outer.y + margin
    && inner.x + inner.w == outer.x + outer.w - margin
    && inner.y + inner.h == outer.y + outer.h - margin
  }

  function Max(a: real, b: real): real { if a >= b then a else b }

  function Min(a: real, b: real): real { if a <= b then a else b }

  /** `Max(lo, Min(v, hi))`: `v` pushed into the closed interval [lo, hi]. */
  function Clamp(lo: real, hi: real, v: real): (r: real)
    requires lo <= hi
    ensures lo <= r <= hi
    ensures lo <= v <= hi ==> r == v
    ensures v < lo ==> r == lo
    ensures hi < v ==> r == hi
  {
    Max(lo, Min(v, hi))
  }

  lemma ClampMonotone(lo: real, hi: real, u: real, v: real)
    requires lo <= hi && u <= v
    ensures Clamp(lo, hi, u) <= Clamp(lo, hi, v)
  {
  }
}
