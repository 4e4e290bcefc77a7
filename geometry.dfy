/** Axis-aligned rectangles in world coordinates (y grows downwards) and the
    two overlap tests the game uses: the general one and the head-clearance
    probe above the player. */
module Geometry {

  /** A rectangle with top-left corner (x, y), width w and height h. */
  datatype Rect = Rect(x: real, y: real, w: real, h: real)

  /** The x-coordinate of the right edge. */
  function RightEdge(r: Rect): real
  {
    r.x + r.w
  }

  /** Overlap on both axes; every comparison is strict, so rectangles that
      only share an edge do not intersect. */
  predicate Intersects(a: Rect, b: Rect)
  {
    a.x < b.x + b.w &&
    a.x + a.w > b.x &&
    a.y < b.y + b.h &&
    a.y + a.h > b.y
  }

  /** The point (px, py) lies strictly inside r. */
  predicate Inside(r: Rect, px: real, py: real)
  {
    r.x < px < r.x + r.w && r.y < py < r.y + r.h
  }

  lemma IntersectsSymmetric(a: Rect, b: Rect)
    ensures Intersects(a, b) == Intersects(b, a)
  {
  }

  /** Touching along an edge, or lying wholly on one side, is no overlap. */
  lemma SeparatedDoNotIntersect(a: Rect, b: Rect)
    requires a.x + a.w <= b.x || b.x + b.w <= a.x || a.y + a.h <= b.y || b.y + b.h <= a.y
    ensures !Intersects(a, b)
  {
  }

  /** For rectangles of positive size the strict test means exactly that the
      two rectangles have an interior point in common. */
  lemma IntersectsIffSharedPoint(a: Rect, b: Rect)
    requires a.w > 0.0 && a.h > 0.0 && b.w > 0.0 && b.h > 0.0
    ensures Intersects(a, b) <==> exists px: real, py: real :: Inside(a, px, py) && Inside(b, px, py)
  {
    if Intersects(a, b) {
      var left := if a.x < b.x then b.x else a.x;
      var right := if a.x + a.w < b.x + b.w then a.x + a.w else b.x + b.w;
      var top := if a.y < b.y then b.y else a.y;
      var bottom := if a.y + a.h < b.y + b.h then a.y + a.h else b.y + b.h;
      var px, py := (left + right) / 2.0, (top + bottom) / 2.0;
      assert Inside(a, px, py) && Inside(b, px, py);
    }
  }

  /** The 5-unit-high strip directly above a body of the given rectangle. */
  function HeadProbe(body: Rect): Rect
  {
    Rect(body.x, body.y - 5.0, body.w, 5.0)
  }

  /** isPlayerInLowSpace: some platform reaches into the strip above the head
      (`Array.prototype.some`, scanning from the front). */
  function InLowSpace(body: Rect, platforms: seq<Rect>): (r: bool)
    ensures r <==> exists i :: 0 <= i < |platforms| && Intersects(HeadProbe(body), platforms[i])
  {
    if platforms == [] then false
    else if Intersects(HeadProbe(body), platforms[0]) then true
    else
      var rest := InLowSpace(body, platforms[1..]);
      assert forall i :: 1 <= i < |platforms| ==> platforms[i] == platforms[1..][i - 1];
      rest
  }

  /** The surface a body stands on never counts as a low ceiling. */
  lemma StandingSurfaceIsNoCeiling(body: Rect, p: Rect)
    requires body.h > 0.0 && p.y == body.y + body.h
    ensures !Intersects(HeadProbe(body), p)
  {
  }
}
