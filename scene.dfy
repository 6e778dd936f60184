/** The scene shapes (circle, rectangle, line, path) and the free drawing facade. Drawing
    does not touch a surface: each draw yields the primitive command it would issue. */
module Scene {
  import opened Geometry

  /** Colours are opaque here: only the two named ones the plane itself uses, and RGB triples. */
  datatype Color = Black | White | Rgb(r: int, g: int, b: int)

  /** One primitive call on the drawing surface. `width` is a border or stroke width in pixels. */
  datatype DrawCmd =
    | Fill(color: Color)
    | LineCmd(color: Color, start: Pixel, end: Pixel, width: int)
    | CircleCmd(color: Color, center: Pixel, radius: int, width: int)
    | RectCmd(color: Color, topLeft: Pixel, w: int, h: int, width: int)
    | SetAt(at: Pixel, color: Color)

  /** A circle: centre and radius in plane units, border width in pixels (0 fills it). */
  datatype Circle = Circle(color: Color, center: Point, radius: real, width: int)
  {
    /** The centre goes through the transform; the radius is scaled to pixels. */
    function Draw(v: View): (cmd: DrawCmd)
      ensures cmd.CircleCmd? && cmd.color == color && cmd.width == width
      ensures cmd.center == PlaneToScreen(v, center)
      ensures Abs(cmd.radius as real - radius * v.scale) <= 0.5
    {
      CircleCmd(color, PlaneToScreen(v, center), Scale(v, radius), width)
    }
  }

  /** A rectangle: top-left corner, width and height in plane units, border width in pixels. */
  datatype Rect = Rect(color: Color, corner: Point, width: real, height: real, lineWidth: int)
  {
    /** Only the top-left corner goes through the transform; width and height are each
        scaled to pixels on their own. */
    function Draw(v: View): (cmd: DrawCmd)
      ensures cmd.RectCmd? && cmd.color == color && cmd.width == lineWidth
      ensures cmd.topLeft == PlaneToScreen(v, corner)
      ensures Abs(cmd.w as real - width * v.scale) <= 0.5
      ensures Abs(cmd.h as real - height * v.scale) <= 0.5
    {
      RectCmd(color, PlaneToScreen(v, corner), Scale(v, width), Scale(v, height), lineWidth)
    }
  }

  /** A line segment between two plane points, with a stroke width in pixels. */
  datatype Line = Line(color: Color, start: Point, end: Point, width: int)
  {
    /** Both endpoints go through the transform, each drawn within half a pixel of its exact
        screen image; the stroke width is not scaled. */
    function Draw(v: View): (cmd: DrawCmd)
      ensures cmd.LineCmd? && cmd.color == color && cmd.width == width
      ensures Abs(cmd.start.x as real - Unrounded(v, start).x) <= 0.5
      ensures Abs(cmd.start.y as real - Unrounded(v, start).y) <= 0.5
      ensures Abs(cmd.end.x as real - Unrounded(v, end).x) <= 0.5
      ensures Abs(cmd.end.y as real - Unrounded(v, end).y) <= 0.5
    {
      LineCmd(color, PlaneToScreen(v, start), PlaneToScreen(v, end), width)
    }
  }

  /** The drawn endpoints of a line, read back into the plane, lie within 1/(2 * scale factor)
      of the line's own endpoints in each coordinate. */
  lemma LineEndsNearPoints(v: View, l: Line)
    requires v.scale > 0.0
    ensures var cmd := l.Draw(v);
            var a, b := ScreenToPlane(v, cmd.start), ScreenToPlane(v, cmd.end);
            Abs(a.x - l.start.x) <= 1.0 / (2.0 * v.scale) && Abs(a.y - l.start.y) <= 1.0 / (2.0 * v.scale)
            && Abs(b.x - l.end.x) <= 1.0 / (2.0 * v.scale) && Abs(b.y - l.end.y) <= 1.0 / (2.0 * v.scale)
  {
    RoundTripWithinHalfPixel(v, l.start);
    RoundTripWithinHalfPixel(v, l.end);
  }

  /** Scaling width and height is not the same as transforming the opposite corner: at scale 1
      with a corner at x = 0.5, a width of 1 is drawn 1 pixel wide, while the corners map to
      x = 0 and x = 2 (both ties round to even). */
  lemma RectScalesSidesNotCorners()
    ensures var v := View(Point(0.0, 0.0), 1.0, Size(10, 10));
            var r := Rect(Black, Point(0.5, 0.0), 1.0, 1.0, 0);
            r.Draw(v).w == 1
            && PlaneToScreen(v, Point(1.5, 0.0)).x - PlaneToScreen(v, r.corner).x == 2
  {
    var v := View(Point(0.0, 0.0), 1.0, Size(10, 10));
    UnitRectWidth(v, Rect(Black, Point(0.5, 0.0), 1.0, 1.0, 0));
    CornersAtTies(v);
  }

  lemma UnitRectWidth(v: View, r: Rect)
    requires v.scale == 1.0 && r.width == 1.0
    ensures r.Draw(v).w == 1
  {
    RoundOfInteger(1);
  }

  lemma CornersAtTies(v: View)
    requires v == View(Point(0.0, 0.0), 1.0, Size(10, 10))
    ensures PlaneToScreen(v, Point(0.5, 0.0)).x == 0 && PlaneToScreen(v, Point(1.5, 0.0)).x == 2
  {
    TiesToEven();
    assert Unrounded(v, Point(0.5, 0.0)).x == 0.5;
    assert Unrounded(v, Point(1.5, 0.0)).x == 1.5;
  }

  /** Two roundings and one more half pixel: rounding each end moves a distance by at most 1. */
  lemma RoundedDistance(v: View, p: Point, q: Point, d: real, w: int)
    requires Unrounded(v, q).x - Unrounded(v, p).x == d && Abs(w as real - d) <= 0.5
    ensures Abs(w as real - (PlaneToScreen(v, q).x - PlaneToScreen(v, p).x) as real) <= 1.5
  {
    var a, b := Unrounded(v, p).x, Unrounded(v, q).x;
    assert Abs(Round(a) as real - a) <= 0.5 && Abs(Round(b) as real - b) <= 0.5;
  }

  /** The unrounded images of two points a plane width `w` apart in X are `w * scale` apart. */
  lemma EdgeDistance(v: View, c: Point, w: real)
    ensures Unrounded(v, Point(c.x + w, c.y)).x - Unrounded(v, c).x == w * v.scale
  {
    var o, s := v.offset.x, v.scale;
    assert (c.x + w + o) * s == (c.x + o) * s + w * s;
  }

  /** At most one and a half pixels separate the drawn width of a rectangle from the distance
      between the screen images of its two X edges. */
  lemma RectWidthNearCornerDistance(v: View, r: Rect)
    ensures Abs(r.Draw(v).w as real
                - (PlaneToScreen(v, Point(r.corner.x + r.width, r.corner.y)).x
                   - PlaneToScreen(v, r.corner).x) as real) <= 1.5
  {
    EdgeDistance(v, r.corner, r.width);
    RoundedDistance(v, r.corner, Point(r.corner.x + r.width, r.corner.y), r.width * v.scale, r.Draw(v).w);
  }

  /** `_is_in_screen` of a path: the pixel lies in [0, width) x [0, height). */
  predicate InScreen(size: Size, q: Pixel)
  {
    0 <= q.x < size.width && 0 <= q.y < size.height
  }

  /** The pixels a path plots, in path order: each point's screen image, when on screen. */
  function PlotPath(v: View, color: Color, pts: seq<Point>): (cmds: seq<DrawCmd>)
    ensures |cmds| <= |pts|
  {
    if pts == [] then []
    else
      var q := PlaneToScreen(v, pts[|pts| - 1]);
      PlotPath(v, color, pts[..|pts| - 1]) + (if InScreen(v.size, q) then [SetAt(q, color)] else [])
  }

  /** Plotting a concatenation plots the first part, then the second. */
  lemma {:induction false} PlotPathAppend(v: View, color: Color, a: seq<Point>, b: seq<Point>)
    ensures PlotPath(v, color, a + b) == PlotPath(v, color, a) + PlotPath(v, color, b)
    decreases |b|
  {
    if b == [] {
      assert a + b == a;
    } else {
      var n := |b| - 1;
      assert (a + b)[..|a + b| - 1] == a + b[..n];
      assert (a + b)[|a + b| - 1] == b[n];
      PlotPathAppend(v, color, a, b[..n]);
    }
  }

  /** Every command of a plotted path is a single on-screen pixel, in the path's colour, that
      is the screen image of one of the path's points. */
  lemma {:induction false} PlotPathSound(v: View, color: Color, pts: seq<Point>)
    ensures forall c :: c in PlotPath(v, color, pts) ==>
              c.SetAt? && c.color == color && InScreen(v.size, c.at)
              && exists i :: 0 <= i < |pts| && PlaneToScreen(v, pts[i]) == c.at
    decreases |pts|
  {
    if pts != [] {
      var n := |pts| - 1;
      PlotPathSound(v, color, pts[..n]);
      forall c | c in PlotPath(v, color, pts)
        ensures exists i :: 0 <= i < |pts| && PlaneToScreen(v, pts[i]) == c.at
      {
        if c in PlotPath(v, color, pts[..n]) {
          var i :| 0 <= i < n && PlaneToScreen(v, pts[..n][i]) == c.at;
          assert pts[i] == pts[..n][i];
        } else {
          assert PlaneToScreen(v, pts[n]) == c.at;
        }
      }
    }
  }

  /** Every point whose screen image is on screen is plotted. */
  lemma {:induction false} PlotPathComplete(v: View, color: Color, pts: seq<Point>, i: int)
    requires 0 <= i < |pts| && InScreen(v.size, PlaneToScreen(v, pts[i]))
    ensures SetAt(PlaneToScreen(v, pts[i]), color) in PlotPath(v, color, pts)
    decreases |pts|
  {
    var n := |pts| - 1;
    if i < n {
      assert pts[..n][i] == pts[i];
      PlotPathComplete(v, color, pts[..n], i);
    }
  }

  /** `Path.add_points` trimming: with a positive cap, keep the most recent `cap` points. */
  function Trimmed<T>(s: seq<T>, cap: int): (r: seq<T>)
    ensures cap > 0 ==> |r| == if |s| < cap then |s| else cap
    ensures |r| <= |s| && r == s[|s| - |r|..]
    ensures cap <= 0 ==> r == s
  {
    if |s| > cap && cap > 0 then s[|s| - cap..] else s
  }

  /** Trimming after each batch keeps exactly what trimming once after all of them would:
      the most recent `cap` points of everything ever added, in order. */
  lemma TrimmedTwice<T>(s: seq<T>, t: seq<T>, cap: int)
    ensures Trimmed(Trimmed(s, cap) + t, cap) == Trimmed(s + t, cap)
  {
    var k := |s| - |Trimmed(s, cap)|;
    var x := Trimmed(s, cap) + t;
    assert x == (s + t)[k..];
    if cap > 0 {
      var r := Trimmed(x, cap);
      assert |r| == |Trimmed(s + t, cap)|;
      assert r == x[|x| - |r|..] == (s + t)[|s + t| - |r|..];
    }
  }

  /** The default cap of a path. */
  const DefaultLength: int := 1000

  /** The default border width of a circle or rectangle (0 fills it) and stroke width of a line. */
  const DefaultFillWidth: int := 0
  const DefaultLineWidth: int := 1

  /** A path: a buffer of plane points plotted as single pixels, capped at `length` points
      when `length` is positive (0 means unbounded). */
  class Path {
    const color: Color
    const length: int
    var path: seq<Point>

    /** Keeps its initial points as given, even beyond the cap. */
    constructor (color: Color, points: seq<Point>, length: int := DefaultLength)
      ensures this.color == color && this.length == length && path == points
    {
      this.color := color;
      this.length := length;
      path := points;
    }

    /** `add_points`: extend with the new points, then drop the oldest beyond the cap. */
    method AddPoints(points: seq<Point>)
      modifies this
      ensures path == Trimmed(old(path) + points, length)
    {
      path := path + points;
      if |path| > length && length > 0 {
        path := path[|path| - length..];
      }
    }

    /** `draw`: plot each point of the path, in order, whose pixel falls on the surface. */
    method Draw(v: View) returns (cmds: seq<DrawCmd>)
      ensures cmds == PlotPath(v, color, path)
    {
      cmds := [];
      var i := 0;
      while i < |path|
        invariant 0 <= i <= |path|
        invariant cmds == PlotPath(v, color, path[..i])
      {
        var q := PlaneToScreen(v, path[i]);
        assert path[..i + 1][..i] == path[..i];
        if InScreen(v.size, q) {
          cmds := cmds + [SetAt(q, color)];
        }
        i := i + 1;
      }
      assert path[..i] == path;
    }
  }

  /** Cap 3 on an empty path: adding (0,0), (1,1), (2,2), (3,3) keeps the last three. */
  lemma TrimExample()
    ensures Trimmed([] + [Point(0.0, 0.0), Point(1.0, 1.0), Point(2.0, 2.0), Point(3.0, 3.0)], 3)
         == [Point(1.0, 1.0), Point(2.0, 2.0), Point(3.0, 3.0)]
  {
    var s := [Point(0.0, 0.0), Point(1.0, 1.0), Point(2.0, 2.0), Point(3.0, 3.0)];
    assert [] + s == s;
    assert s[1..] == [Point(1.0, 1.0), Point(2.0, 2.0), Point(3.0, 3.0)];
  }

  /** A registered scene object. A path is referred to, since it changes after registration. */
  datatype Shape =
    | CircleObj(circle: Circle)
    | RectObj(rect: Rect)
    | LineObj(line: Line)
    | PathObj(pathRef: Path)

  /** What one registered object draws on the current view. */
  function DrawShape(v: View, s: Shape): (cmds: seq<DrawCmd>)
    reads if s.PathObj? then {s.pathRef} else {}
    ensures !s.PathObj? ==> |cmds| == 1
    ensures s.PathObj? ==> |cmds| <= |s.pathRef.path|
  {
    match s
    case CircleObj(c) => [c.Draw(v)]
    case RectObj(r) => [r.Draw(v)]
    case LineObj(l) => [l.Draw(v)]
    case PathObj(p) => PlotPath(v, p.color, p.path)
  }

  /** `draw.circle`: the same command a registered circle with this geometry draws. */
  function DrawCircle(v: View, color: Color, center: Point, radius: real, width: int := DefaultFillWidth): (cmd: DrawCmd)
    ensures cmd == Circle(color, center, radius, width).Draw(v)
  {
    CircleCmd(color, PlaneToScreen(v, center), Scale(v, radius), width)
  }

  /** `draw.rect`: the same command a registered rectangle with this geometry draws. */
  function DrawRect(v: View, color: Color, corner: Point, w: real, h: real, width: int := DefaultFillWidth): (cmd: DrawCmd)
    ensures cmd == Rect(color, corner, w, h, width).Draw(v)
  {
    RectCmd(color, PlaneToScreen(v, corner), Scale(v, w), Scale(v, h), width)
  }

  /** `draw.line`: the same command a registered line with this geometry draws. */
  function DrawLine(v: View, color: Color, start: Point, end: Point, width: int := DefaultLineWidth): (cmd: DrawCmd)
    ensures cmd == Line(color, start, end, width).Draw(v)
  {
    LineCmd(color, PlaneToScreen(v, start), PlaneToScreen(v, end), width)
  }
}
