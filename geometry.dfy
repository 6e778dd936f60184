/** The coordinate transform of the cartesian plane: plane space (Y grows upward)
    to pixel space (Y grows downward) and back, and the scaling of lengths. */
module Geometry {

  /** A point of the plane, in plane units. */
  datatype Point = Point(x: real, y: real)

  /** A pixel of the drawing surface. */
  datatype Pixel = Pixel(x: int, y: int)

  /** Surface dimensions in pixels. */
  datatype Size = Size(width: nat, height: nat)

  /** What every transform reads of a plane: its offset, its zoom level and its surface size. */
  datatype View = View(offset: Point, scale: real, size: Size)

  function Abs(x: real): real { if x < 0.0 then -x else x }

  /** Python's built-in `round` on a number: the nearest integer, a tie going to the even one. */
  function Round(x: real): (r: int)
    ensures r == x.Floor || r == x.Floor + 1
    ensures Abs(r as real - x) <= 0.5
    ensures Abs(r as real - x) == 0.5 ==> r % 2 == 0
  {
    var n := (x + 0.5).Floor;
    if n as real == x + 0.5 && n % 2 != 0 then n - 1 else n
  }

  lemma RoundOfInteger(n: int)
    ensures Round(n as real) == n
  {
    assert (n as real + 0.5).Floor == n;
  }

  /** Two ties: 0.5 rounds down to 0 and 1.5 rounds up to 2. */
  lemma TiesToEven()
    ensures Round(0.5) == 0 && Round(1.5) == 2
  {
    assert (1.0).Floor == 1;
    assert (2.0).Floor == 2;
  }

  /** The screen image of a plane point before it is rounded to a pixel. */
  function Unrounded(v: View, p: Point): Point
  {
    Point((p.x + v.offset.x) * v.scale, (v.offset.y - p.y) * v.scale)
  }

  /** `plane_to_screen`: shift by the offset, scale, flip Y, round each coordinate. The pixel is
      within half a pixel of the unrounded image in each coordinate. */
  function PlaneToScreen(v: View, p: Point): (q: Pixel)
    ensures Abs(q.x as real - Unrounded(v, p).x) <= 0.5
    ensures Abs(q.y as real - Unrounded(v, p).y) <= 0.5
  {
    var u := Unrounded(v, p);
    Pixel(Round(u.x), Round(u.y))
  }

  /** The exact inverse of the unrounded transform: the plane point whose unrounded screen
      image is `u`. */
  function Unscaled(v: View, u: Point): (p: Point)
    requires v.scale > 0.0
    ensures Unrounded(v, p) == u
  {
    Point(u.x / v.scale - v.offset.x, v.offset.y - u.y / v.scale)
  }

  /** `Unscaled` also undoes the unrounded transform from the plane side. */
  lemma UnscaledOfUnrounded(v: View, p: Point)
    requires v.scale > 0.0
    ensures Unscaled(v, Unrounded(v, p)) == p
  {
  }

  /** `screen_to_plane`: the plane point whose unrounded image is exactly the given pixel. */
  function ScreenToPlane(v: View, q: Pixel): (p: Point)
    requires v.scale > 0.0
    ensures Unrounded(v, p) == Point(q.x as real, q.y as real)
  {
    Unscaled(v, Point(q.x as real, q.y as real))
  }

  /** `scale`: a plane length in whole pixels. */
  function Scale(v: View, d: real): (r: int)
    ensures Abs(r as real - d * v.scale) <= 0.5
  {
    Round(d * v.scale)
  }

  /** An error of at most half a pixel on screen is at most 1/(2s) plane units. */
  lemma HalfPixelInPlaneUnits(e: real, s: real)
    requires s > 0.0 && Abs(e) <= 0.5
    ensures Abs(e / s) <= 1.0 / (2.0 * s)
  {
    assert Abs(e / s) == Abs(e) / s;
    assert 1.0 / (2.0 * s) == 0.5 / s;
    assert Abs(e) / s <= 0.5 / s;
  }

  /** Along X: a pixel within half a pixel of `ux = (px + o) * s` maps back within 1/(2s)
      of `px`. */
  lemma BackWithinHalfPixelX(o: real, s: real, px: real, ux: real, qx: int)
    requires s > 0.0 && ux == (px + o) * s && Abs(qx as real - ux) <= 0.5
    ensures Abs((qx as real / s - o) - px) <= 1.0 / (2.0 * s)
  {
    var e := qx as real - ux;
    assert (qx as real / s - o) - px == e / s;
    HalfPixelInPlaneUnits(e, s);
  }

  /** Along Y: a pixel within half a pixel of `uy = (o - py) * s` maps back within 1/(2s)
      of `py`. */
  lemma BackWithinHalfPixelY(o: real, s: real, py: real, uy: real, qy: int)
    requires s > 0.0 && uy == (o - py) * s && Abs(qy as real - uy) <= 0.5
    ensures Abs((o - qy as real / s) - py) <= 1.0 / (2.0 * s)
  {
    var e := uy - qy as real;
    assert (o - qy as real / s) - py == e / s;
    HalfPixelInPlaneUnits(e, s);
  }

  /** Plane to screen and back moves each coordinate by at most half a pixel, that is
      by at most 1/(2 * scale factor) plane units. */
  lemma RoundTripWithinHalfPixel(v: View, p: Point)
    requires v.scale > 0.0
    ensures Abs(ScreenToPlane(v, PlaneToScreen(v, p)).x - p.x) <= 1.0 / (2.0 * v.scale)
    ensures Abs(ScreenToPlane(v, PlaneToScreen(v, p)).y - p.y) <= 1.0 / (2.0 * v.scale)
  {
    var u := Unrounded(v, p);
    var q := PlaneToScreen(v, p);
    BackWithinHalfPixelX(v.offset.x, v.scale, p.x, u.x, q.x);
    BackWithinHalfPixelY(v.offset.y, v.scale, p.y, u.y, q.y);
  }

  /** A whole pixel taken to the plane and back is the same pixel. */
  lemma PixelRoundTrip(v: View, q: Pixel)
    requires v.scale > 0.0
    ensures PlaneToScreen(v, ScreenToPlane(v, q)) == q
  {
    RoundOfInteger(q.x);
    RoundOfInteger(q.y);
  }
}
