/** The cartesian plane: its view state, pointer-driven pan and zoom, input events, the frame
    update and the debug map, and the registration of scene objects. */
module Plane {
  import opened Geometry
  import opened Viewport
  import opened Scene

  datatype Option<T> = None | Some(value: T)

  /** The input events the plane tells apart; every other kind is `OtherEvent`. */
  datatype Event =
    | MouseButtonDown(button: int)
    | MouseButtonUp(button: int)
    | MouseWheel(y: int)
    | OtherEvent

  /** The paths among the registered objects: everything drawing reads besides the view. */
  function PathsOf(objs: seq<Shape>): set<Path>
  {
    set s | s in objs && s.PathObj? :: s.pathRef
  }

  /** Everything the registered objects draw, object after object in registration order. */
  function DrawAll(v: View, objs: seq<Shape>): seq<DrawCmd>
    reads PathsOf(objs)
  {
    if objs == [] then []
    else DrawAll(v, objs[..|objs| - 1]) + DrawShape(v, objs[|objs| - 1])
  }

  /** One more object draws its commands after everything before it. */
  lemma DrawAllSnoc(v: View, objs: seq<Shape>, s: Shape)
    ensures DrawAll(v, objs + [s]) == DrawAll(v, objs) + DrawShape(v, s)
  {
    assert (objs + [s])[..|objs|] == objs;
  }

  /** Objects registered after others draw after them. */
  lemma {:induction false} DrawAllAppend(v: View, a: seq<Shape>, b: seq<Shape>)
    ensures DrawAll(v, a + b) == DrawAll(v, a) + DrawAll(v, b)
    decreases |b|
  {
    if b == [] {
      assert a + b == a;
    } else {
      var init, last := b[..|b| - 1], b[|b| - 1];
      assert b == init + [last];
      assert a + b == (a + init) + [last];
      calc {
        DrawAll(v, a + b);
        { DrawAllSnoc(v, a + init, last); }
        DrawAll(v, a + init) + DrawShape(v, last);
        { DrawAllAppend(v, a, init); }
        DrawAll(v, a) + DrawAll(v, init) + DrawShape(v, last);
        { DrawAllSnoc(v, init, last); }
        DrawAll(v, a) + DrawAll(v, b);
      }
    }
  }

  /** The two axes, white and 1 pixel wide: a full-width horizontal line on the image row of
      every plane point (x, 0), and a full-height vertical line on the image column of every
      plane point (0, y). */
  function Axes(v: View): (cmds: seq<DrawCmd>)
    ensures |cmds| == 2
    ensures forall i :: 0 <= i < 2 ==> cmds[i].LineCmd? && cmds[i].color == White && cmds[i].width == 1
    ensures cmds[0].start.x == 0 && cmds[0].end.x == v.size.width
    ensures forall x: real ::
              PlaneToScreen(v, Point(x, 0.0)).y == cmds[0].start.y == cmds[0].end.y
    ensures cmds[1].start.y == 0 && cmds[1].end.y == v.size.height
    ensures forall y: real ::
              PlaneToScreen(v, Point(0.0, y)).x == cmds[1].start.x == cmds[1].end.x
  {
    var o := PlaneToScreen(v, Point(0.0, 0.0));
    [LineCmd(White, Pixel(0, o.y), Pixel(v.size.width, o.y), 1),
     LineCmd(White, Pixel(o.x, 0), Pixel(o.x, v.size.height), 1)]
  }

  /** The labels written by a batch of debug entries. */
  function KeysOf(kvs: seq<(string, string)>): set<string>
  {
    set i | 0 <= i < |kvs| :: kvs[i].0
  }

  /** The debug map after writing each entry of `kvs` in turn. */
  function Merge(m: map<string, string>, kvs: seq<(string, string)>): map<string, string>
  {
    if kvs == [] then m
    else Merge(m, kvs[..|kvs| - 1])[kvs[|kvs| - 1].0 := kvs[|kvs| - 1].1]
  }

  /** Merging adds exactly the labels written and loses none. */
  lemma {:induction false} MergeKeys(m: map<string, string>, kvs: seq<(string, string)>)
    ensures Merge(m, kvs).Keys == m.Keys + KeysOf(kvs)
    decreases |kvs|
  {
    if kvs != [] {
      var n := |kvs| - 1;
      MergeKeys(m, kvs[..n]);
      assert KeysOf(kvs) == KeysOf(kvs[..n]) + {kvs[n].0} by {
        forall k | k in KeysOf(kvs) ensures k in KeysOf(kvs[..n]) + {kvs[n].0} {
          var i :| 0 <= i < |kvs| && kvs[i].0 == k;
          if i < n { assert kvs[..n][i] == kvs[i]; }
        }
        forall k | k in KeysOf(kvs[..n]) ensures k in KeysOf(kvs) {
          var i :| 0 <= i < n && kvs[..n][i].0 == k;
          assert kvs[i] == kvs[..n][i];
        }
      }
    }
  }

  /** The last write of a label wins. */
  lemma {:induction false} MergeLastWins(m: map<string, string>, kvs: seq<(string, string)>, i: int)
    requires 0 <= i < |kvs|
    requires forall j :: i < j < |kvs| ==> kvs[j].0 != kvs[i].0
    ensures kvs[i].0 in Merge(m, kvs) && Merge(m, kvs)[kvs[i].0] == kvs[i].1
    decreases |kvs|
  {
    var n := |kvs| - 1;
    if i < n {
      forall j | i < j < n ensures kvs[..n][j].0 != kvs[..n][i].0 {
        assert kvs[..n][j] == kvs[j];
      }
      assert kvs[..n][i] == kvs[i];
      MergeLastWins(m, kvs[..n], i);
    }
  }

  /** A label no entry writes keeps its value, or stays absent. */
  lemma {:induction false} MergeUntouched(m: map<string, string>, kvs: seq<(string, string)>, k: string)
    requires forall i :: 0 <= i < |kvs| ==> kvs[i].0 != k
    ensures k in Merge(m, kvs) <==> k in m
    ensures k in m ==> Merge(m, kvs)[k] == m[k]
    decreases |kvs|
  {
    if kvs != [] {
      var n := |kvs| - 1;
      forall i | 0 <= i < n ensures kvs[..n][i].0 != k {
        assert kvs[..n][i] == kvs[i];
      }
      MergeUntouched(m, kvs[..n], k);
    }
  }

  /** The cartesian plane over a surface of a given size: where the plane sits on the surface
      (`offset`, `scaleFactor`), the drag state, the draw list and the debug map. */
  class CartesianPlane {
    var size: Size
    var offset: Point
    var scaleFactor: real
    var lastPos: Option<Pixel>
    var movePlane: bool
    var objects: seq<Shape>
    var debugInfo: map<string, string>

    /** The zoom level stays inside (0.09, 110): positive, and never more than one zoom step
        past the thresholds 0.1 and 100. */
    ghost predicate Valid()
      reads this
    {
      0.09 < scaleFactor < 110.0
    }

    /** What the transforms read of the plane right now. */
    function CurrentView(): View
      reads this
    {
      View(offset, scaleFactor, size)
    }

    /** A plane centred on the surface (the centre of a `width` x `height` surface, in whole
        pixels), at zoom level 1, not dragging, with nothing to draw and nothing to report. */
    constructor (width: nat, height: nat)
      ensures Valid()
      ensures size == Size(width, height)
      ensures offset == Point((width / 2) as real, (height / 2) as real)
      ensures scaleFactor == 1.0
      ensures lastPos == None && !movePlane
      ensures objects == [] && debugInfo == map[]
    {
      size := Size(width, height);
      offset := Point((width / 2) as real, (height / 2) as real);
      objects := [];
      lastPos := None;
      movePlane := false;
      scaleFactor := 1.0;
      debugInfo := map[];
    }

    /** `move_axis`: pan by the pointer's movement since the last sample, then take the
        pointer as the new sample. The first call after a drag starts only takes the sample. */
    method MoveAxis(pointer: Pixel)
      requires Valid()
      modifies this`offset, this`lastPos
      ensures Valid() && lastPos == Some(pointer)
      ensures old(lastPos).None? ==> offset == old(offset)
      ensures old(lastPos).Some? ==>
                var dx := (pointer.x - old(lastPos).value.x) as real;
                var dy := (pointer.y - old(lastPos).value.y) as real;
                offset == Panned(old(CurrentView()), dx, dy).offset
                && forall p :: Unrounded(CurrentView(), p)
                               == Point(Unrounded(old(CurrentView()), p).x + dx,
                                        Unrounded(old(CurrentView()), p).y + dy)
    {
      if lastPos.Some? {
        var last := lastPos.value;
        ghost var v0 := CurrentView();
        var dx := (pointer.x - last.x) as real;
        var dy := (pointer.y - last.y) as real;
        offset := offset.(x := offset.x + dx / scaleFactor);
        offset := offset.(y := offset.y + dy / scaleFactor);
        assert CurrentView() == Panned(v0, dx, dy);
        forall p ensures Unrounded(CurrentView(), p) == Point(Unrounded(v0, p).x + dx, Unrounded(v0, p).y + dy) {
          PanShiftsImage(v0, p, dx, dy);
        }
      }
      lastPos := Some(pointer);
    }

    /** `zooming`: step the zoom level for one wheel tick and move the offset so that the plane
        point under the pointer stays under it. When the level does not change, neither does
        the offset. */
    method Zooming(wheel: int, pointer: Pixel)
      requires Valid()
      modifies this`offset, this`scaleFactor
      ensures Valid()
      ensures scaleFactor == ZoomScale(old(scaleFactor), wheel)
      ensures ScreenToPlane(CurrentView(), pointer) == old(ScreenToPlane(CurrentView(), pointer))
      ensures scaleFactor == old(scaleFactor) ==> offset == old(offset)
    {
      ghost var v0 := CurrentView();
      var before := ScreenToPlane(CurrentView(), pointer);
      if wheel > 0 && scaleFactor < 100.0 {
        scaleFactor := scaleFactor * 1.1;
      } else if wheel < 0 && scaleFactor > 0.1 {
        scaleFactor := scaleFactor * 0.9;
      }
      var after := ScreenToPlane(CurrentView(), pointer);
      offset := offset.(x := offset.x - (before.x - after.x));
      offset := offset.(y := offset.y + (before.y - after.y));
      assert offset == PinnedOffset(v0, pointer, scaleFactor);
    }

    /** `debug`: write each entry into the debug map, in order. */
    method Debug(kwargs: seq<(string, string)>)
      modifies this`debugInfo
      ensures debugInfo == Merge(old(debugInfo), kwargs)
    {
      var i := 0;
      while i < |kwargs|
        invariant 0 <= i <= |kwargs|
        invariant debugInfo == Merge(old(debugInfo), kwargs[..i])
      {
        assert kwargs[..i + 1][..i] == kwargs[..i];
        debugInfo := debugInfo[kwargs[i].0 := kwargs[i].1];
        i := i + 1;
      }
      assert kwargs[..i] == kwargs;
    }

    /** `event_handling`: the left button starts a drag on press and ends it on release,
        forgetting the pointer sample; the wheel zooms at the pointer; nothing else has an effect. */
    method HandleEvent(e: Event, pointer: Pixel)
      requires Valid()
      modifies this`movePlane, this`lastPos, this`offset, this`scaleFactor
      ensures Valid()
      ensures e.MouseButtonDown? && e.button == 1 ==>
                movePlane && lastPos == old(lastPos) && CurrentView() == old(CurrentView())
      ensures e.MouseButtonUp? && e.button == 1 ==>
                !movePlane && lastPos == None && CurrentView() == old(CurrentView())
      ensures e.MouseWheel? ==>
                movePlane == old(movePlane) && lastPos == old(lastPos)
                && scaleFactor == ZoomScale(old(scaleFactor), e.y)
                && ScreenToPlane(CurrentView(), pointer) == old(ScreenToPlane(CurrentView(), pointer))
      ensures e.OtherEvent? || ((e.MouseButtonDown? || e.MouseButtonUp?) && e.button != 1) ==>
                movePlane == old(movePlane) && lastPos == old(lastPos) && CurrentView() == old(CurrentView())
    {
      if e.MouseButtonDown? && e.button == 1 {
        movePlane := true;
      }
      if e.MouseButtonUp? && e.button == 1 {
        movePlane := false;
        lastPos := None;
      }
      if e.MouseWheel? {
        Zooming(e.y, pointer);
      }
    }

    /** The object loop of `update`: each registered object draws itself, in registration order
        (a path's part is what `Path.Draw` is proved to return). */
    method DrawObjects(v: View) returns (cmds: seq<DrawCmd>)
      ensures cmds == DrawAll(v, objects)
    {
      var objs := objects;
      cmds := [];
      var i := 0;
      while i < |objs|
        invariant 0 <= i <= |objs|
        invariant cmds == DrawAll(v, objs[..i])
      {
        assert objs[..i + 1][..i] == objs[..i];
        cmds := cmds + DrawShape(v, objs[i]);
        i := i + 1;
      }
      assert objs[..i] == objs;
    }

    /** `update`: pan if a drag is on, then draw one frame: clear to black, the two axes, then
        every registered object in registration order. (Its closing call of `debug` writes no
        entries, so the debug map is left as it is.) */
    method Update(pointer: Pixel) returns (cmds: seq<DrawCmd>)
      requires Valid()
      modifies this`offset, this`lastPos
      ensures Valid()
      ensures old(movePlane) ==> lastPos == Some(pointer)
      ensures old(movePlane) && old(lastPos).Some? ==>
                offset == Panned(old(CurrentView()),
                                 (pointer.x - old(lastPos).value.x) as real,
                                 (pointer.y - old(lastPos).value.y) as real).offset
      ensures !(old(movePlane) && old(lastPos).Some?) ==> offset == old(offset)
      ensures !old(movePlane) ==> lastPos == old(lastPos)
      ensures cmds == [Fill(Black)] + Axes(CurrentView()) + DrawAll(CurrentView(), objects)
    {
      if movePlane {
        MoveAxis(pointer);
      }
      var v := CurrentView();
      var drawn := DrawObjects(v);
      cmds := [Fill(Black)] + Axes(v) + drawn;
    }
  }

  /** `Circle(...)`: make the circle and append it to the plane's objects. */
  method NewCircle(plane: CartesianPlane, color: Color, center: Point, radius: real,
                   width: int := DefaultFillWidth)
    returns (c: Circle)
    modifies plane`objects
    ensures c == Circle(color, center, radius, width)
    ensures plane.objects == old(plane.objects) + [CircleObj(c)]
  {
    c := Circle(color, center, radius, width);
    plane.objects := plane.objects + [CircleObj(c)];
  }

  /** `Rect(...)`: make the rectangle and append it to the plane's objects. */
  method NewRect(plane: CartesianPlane, color: Color, corner: Point, w: real, h: real,
                 width: int := DefaultFillWidth)
    returns (r: Rect)
    modifies plane`objects
    ensures r == Rect(color, corner, w, h, width)
    ensures plane.objects == old(plane.objects) + [RectObj(r)]
  {
    r := Rect(color, corner, w, h, width);
    plane.objects := plane.objects + [RectObj(r)];
  }

  /** `Line(...)`: make the line and append it to the plane's objects. */
  method NewLine(plane: CartesianPlane, color: Color, start: Point, end: Point,
                 width: int := DefaultLineWidth)
    returns (l: Line)
    modifies plane`objects
    ensures l == Line(color, start, end, width)
    ensures plane.objects == old(plane.objects) + [LineObj(l)]
  {
    l := Line(color, start, end, width);
    plane.objects := plane.objects + [LineObj(l)];
  }

  /** `Path(...)`: make a new path holding exactly the given points (no trimming at this point)
      and append it to the plane's objects. */
  method NewPath(plane: CartesianPlane, color: Color, points: seq<Point>,
                 length: int := DefaultLength)
    returns (p: Path)
    modifies plane`objects
    ensures fresh(p) && p.color == color && p.length == length && p.path == points
    ensures plane.objects == old(plane.objects) + [PathObj(p)]
  {
    p := new Path(color, points, length);
    plane.objects := plane.objects + [PathObj(p)];
  }

  /** On a fresh plane over an 800 x 600 surface the origin is drawn at (400, 300) and the
      plane point (10, -5) at (410, 305). */
  method FreshPlaneExample() returns (origin: Pixel, q: Pixel)
    ensures origin == Pixel(400, 300) && q == Pixel(410, 305)
  {
    var plane := new CartesianPlane(800, 600);
    var v := plane.CurrentView();
    assert v == View(Point(400.0, 300.0), 1.0, Size(800, 600));
    origin := PlaneToScreen(v, Point(0.0, 0.0));
    q := PlaneToScreen(v, Point(10.0, -5.0));
    RoundOfInteger(400);
    RoundOfInteger(300);
    RoundOfInteger(410);
    RoundOfInteger(305);
  }

  /** A path capped at 3 that starts empty keeps (1,1), (2,2), (3,3) after (0,0) to (3,3) are added. */
  method CappedPathExample() returns (kept: seq<Point>)
    ensures kept == [Point(1.0, 1.0), Point(2.0, 2.0), Point(3.0, 3.0)]
  {
    var plane := new CartesianPlane(800, 600);
    var path := NewPath(plane, Rgb(255, 255, 0), [], 3);
    path.AddPoints([Point(0.0, 0.0), Point(1.0, 1.0), Point(2.0, 2.0), Point(3.0, 3.0)]);
    TrimExample();
    kept := path.path;
  }

  /** One wheel tick up from zoom level 1 gives 1.1; one tick down from there gives 0.99. */
  method ZoomTicksExample(pointer: Pixel) returns (up: real, down: real)
    ensures up == 1.1 && down == 0.99
  {
    var plane := new CartesianPlane(800, 600);
    plane.HandleEvent(MouseWheel(1), pointer);
    up := plane.scaleFactor;
    plane.HandleEvent(MouseWheel(-1), pointer);
    down := plane.scaleFactor;
    ZoomInThenOut();
  }

  /** A drag: the first frame after pressing the left button only samples the pointer; a frame
      with the pointer 30 pixels right and 20 down moves the origin's image by exactly that. */
  method DragExample() returns (before: Point, after: Point)
    ensures before == Point(400.0, 300.0)
    ensures after == Point(before.x + 30.0, before.y + 20.0)
  {
    var plane := new CartesianPlane(800, 600);
    plane.HandleEvent(MouseButtonDown(1), Pixel(100, 100));
    var frame := plane.Update(Pixel(100, 100));
    before := Unrounded(plane.CurrentView(), Point(0.0, 0.0));
    frame := plane.Update(Pixel(130, 120));
    after := Unrounded(plane.CurrentView(), Point(0.0, 0.0));
    PanShiftsImage(View(Point(400.0, 300.0), 1.0, Size(800, 600)), Point(0.0, 0.0), 30.0, 20.0);
  }
}
