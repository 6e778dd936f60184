/** The laws behind panning and zooming: how the zoom level steps, and what a change of
    offset does to the screen image of the plane. */
module Viewport {
  import opened Geometry

  /** The zoom level after one wheel tick of `zooming`: times 1.1 going in while below 100,
      times 0.9 going out while above 0.1, unchanged otherwise. */
  function ZoomScale(s: real, wheel: int): (r: real)
    ensures s > 0.0 ==> r > 0.0
    ensures s < 110.0 ==> r < 110.0
    ensures s > 0.09 ==> r > 0.09
  {
    if wheel > 0 && s < 100.0 then s * 1.1
    else if wheel < 0 && s > 0.1 then s * 0.9
    else s
  }

  /** The zoom level grows exactly on an upward tick below 100 (by 1.1), shrinks exactly on a
      downward tick above 0.1 (by 0.9), and stays put in every other case. */
  lemma ZoomScaleRule(s: real, wheel: int)
    requires s > 0.0
    ensures ZoomScale(s, wheel) > s <==> wheel > 0 && s < 100.0
    ensures ZoomScale(s, wheel) < s <==> wheel < 0 && s > 0.1
    ensures ZoomScale(s, wheel) > s ==> ZoomScale(s, wheel) == s * 1.1
    ensures ZoomScale(s, wheel) < s ==> ZoomScale(s, wheel) == s * 0.9
  {
    if wheel > 0 && s < 100.0 {
      assert s * 1.1 > s;
    } else if wheel < 0 && s > 0.1 {
      assert s * 0.9 < s;
    }
  }

  /** One tick in and one tick out from 1 ends at 0.99: the steps are multiplicative and do not undo each other. */
  lemma ZoomInThenOut()
    ensures ZoomScale(1.0, 1) == 1.1
    ensures ZoomScale(ZoomScale(1.0, 1), -1) == 0.99
    ensures ZoomScale(ZoomScale(1.0, 1), -1) != 1.0
  {
    assert ZoomScale(1.0, 1) == 1.1;
    assert ZoomScale(1.1, -1) == 1.1 * 0.9;
  }

  /** The zoom level after a sequence of wheel ticks, one `zooming` call each. */
  function ZoomAll(s: real, wheels: seq<int>): real
    decreases wheels
  {
    if wheels == [] then s else ZoomAll(ZoomScale(s, wheels[0]), wheels[1..])
  }

  /** However many ticks arrive, a zoom level inside (0.09, 110) stays inside it: the checks
      before each step let it pass 100 or 0.1 by one step at most. */
  lemma {:induction false} ZoomAllBounded(s: real, wheels: seq<int>)
    requires 0.09 < s < 110.0
    ensures 0.09 < ZoomAll(s, wheels) < 110.0
    decreases wheels
  {
    if wheels != [] {
      ZoomAllBounded(ZoomScale(s, wheels[0]), wheels[1..]);
    }
  }

  /** The view with its offset moved by a pointer delta (dx, dy) divided by the scale. */
  function Panned(v: View, dx: real, dy: real): (w: View)
    requires v.scale > 0.0
    ensures w.scale == v.scale && w.size == v.size
  {
    v.(offset := Point(v.offset.x + dx / v.scale, v.offset.y + dy / v.scale))
  }

  /** Panning by a pointer delta moves the unrounded screen image of every plane point by
      exactly that delta. */
  lemma PanShiftsImage(v: View, p: Point, dx: real, dy: real)
    requires v.scale > 0.0
    ensures Unrounded(Panned(v, dx, dy), p) == Point(Unrounded(v, p).x + dx, Unrounded(v, p).y + dy)
  {
    var s := v.scale;
    assert (p.x + (v.offset.x + dx / s)) * s == (p.x + v.offset.x) * s + (dx / s) * s;
    assert (v.offset.y + dy / s - p.y) * s == (v.offset.y - p.y) * s + (dy / s) * s;
  }

  /** At a fixed scale the plane point under a given pixel fixes the offset: two views that
      agree there have the same offset. */
  lemma PinDeterminesOffset(a: View, b: View, m: Pixel)
    requires a.scale > 0.0 && a.scale == b.scale
    requires ScreenToPlane(a, m) == ScreenToPlane(b, m)
    ensures a.offset == b.offset
  {
  }

  /** The offset correction `zooming` applies: the plane point under the pointer before the
      zoom minus the one under it at the new scale, subtracted in X and added in Y. */
  function PinnedOffset(v: View, m: Pixel, s2: real): (o: Point)
    requires v.scale > 0.0 && s2 > 0.0
    ensures ScreenToPlane(v.(offset := o, scale := s2), m) == ScreenToPlane(v, m)
    ensures s2 == v.scale ==> o == v.offset
  {
    var before := ScreenToPlane(v, m);
    var after := ScreenToPlane(v.(scale := s2), m);
    Point(v.offset.x - (before.x - after.x), v.offset.y + (before.y - after.y))
  }
}
