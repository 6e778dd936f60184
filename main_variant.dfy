/** The rectangle visibility test that only the second copy of the plane class has. Its
    transforms, pan, zoom, events and update are those of module Plane. */
module MainVariant {
  import opened Geometry
  import opened Scene

  /** Both screen corners lie beyond the same edge of the surface, each edge compared strictly,
      so a corner exactly on the right or bottom edge is not beyond it. */
  predicate BeyondOneEdge(size: Size, a: Pixel, b: Pixel)
  {
    (a.x < 0 && b.x < 0) || (a.x > size.width && b.x > size.width)
    || (a.y < 0 && b.y < 0) || (a.y > size.height && b.y > size.height)
  }

  /** The far corner `is_in_screen` tests: `width - 1` to the right, `height + 1` below. */
  function FarCorner(p: Point, width: int, height: int): Point
  {
    Point(p.x + width as real - 1.0, p.y - height as real - 1.0)
  }

  /** `is_in_screen`: a rectangle (1 x 1 unless given) is taken as visible unless both tested
      corners lie beyond the same edge. */
  predicate IsInScreen(v: View, p: Point, width: int := 1, height: int := 1)
  {
    !BeyondOneEdge(v.size, PlaneToScreen(v, p), PlaneToScreen(v, FarCorner(p, width, height)))
  }

  /** A rectangle whose first corner is drawn inside the closed surface rectangle passes,
      whatever its width and height. */
  lemma CornerOnSurfaceIsInScreen(v: View, p: Point, width: int, height: int)
    requires var a := PlaneToScreen(v, p);
             0 <= a.x <= v.size.width && 0 <= a.y <= v.size.height
    ensures IsInScreen(v, p, width, height)
  {
  }

  /** With the default width and height of 1, the second corner tested is (p.x, p.y - 2). */
  lemma DefaultFarCorner(v: View, p: Point)
    ensures IsInScreen(v, p)
            == !BeyondOneEdge(v.size, PlaneToScreen(v, p), PlaneToScreen(v, Point(p.x, p.y - 2.0)))
  {
    assert FarCorner(p, 1, 1) == Point(p.x, p.y - 2.0);
  }

  /** On a 10 x 10 surface at scale 1 and offset 0, the plane point (10, 0) is drawn at pixel
      (10, 0): the rectangle test counts it as visible, while a path does not plot that pixel. */
  lemma RightEdgeDiffersFromPathTest()
    ensures var v := View(Point(0.0, 0.0), 1.0, Size(10, 10));
            IsInScreen(v, Point(10.0, 0.0), 1, 1)
            && !InScreen(v.size, PlaneToScreen(v, Point(10.0, 0.0)))
  {
    var v := View(Point(0.0, 0.0), 1.0, Size(10, 10));
    IntegerPointAtUnitScale(v, 10, 0);
    IntegerPointAtUnitScale(v, 10, -2);
    assert FarCorner(Point(10.0, 0.0), 1, 1) == Point(10 as real, -2 as real);
  }

  /** At scale 1 and offset 0 a point with whole coordinates (a, b) is drawn at pixel (a, -b). */
  lemma IntegerPointAtUnitScale(v: View, a: int, b: int)
    requires v.offset == Point(0.0, 0.0) && v.scale == 1.0
    ensures PlaneToScreen(v, Point(a as real, b as real)) == Pixel(a, -b)
  {
    assert Unrounded(v, Point(a as real, b as real)) == Point(a as real, (-b) as real);
    RoundOfInteger(a);
    RoundOfInteger(-b);
  }
}
