# Cartesian plane view-model, in Dafny

This project models the core of a small pygame helper that draws an infinite cartesian plane
on a finite window. The plane keeps an `offset` (where the plane sits on the surface) and a
`scale_factor` (pixels per plane unit). From these it converts plane points to pixels and back,
and scales lengths. Dragging with the left button pans the plane. The mouse wheel zooms at the
pointer. Every frame, `update` clears the surface, draws the two axes, then draws every
registered shape (circle, rectangle, line, path).

Modules, one per part of the source:

- `Geometry` (geometry.dfy): points, pixels and sizes. It defines Python's `round`, and
  `plane_to_screen`, `screen_to_plane` and `scale` as pure functions of a `View` (offset, scale,
  size). It also proves the round-trip laws.
- `Viewport` (viewport.dfy): the zoom step rule and its bounds, and the pan and zoom-pin laws.
- `Scene` (scene.dfy): colours, draw commands, the `Circle`, `Rect` and `Line` shapes (values),
  the `Path` class (a mutable point buffer), and the free `draw.circle` / `draw.rect` /
  `draw.line` facade.
- `Plane` (plane.dfy): the `CartesianPlane` class. It holds `size`, `offset`, `scaleFactor`,
  `lastPos`, `movePlane`, `objects` and `debugInfo`. Its methods are `MoveAxis`, `Zooming`,
  `Debug`, `HandleEvent` and `Update`. The module also has the registering constructors
  (`NewCircle`, `NewRect`, `NewLine`, `NewPath`) and some client examples.
- `MainVariant` (main_variant.dfy): `is_in_screen`, which only the second copy of the class
  (src/cartesianPlane/__main__.py) has.

The copy of `CartesianPlane` in src/cartesianPlane/__main__.py repeats the other copy formula
for formula. This covers the transforms (lines 32-67), `move_axis` (84-92), `zooming` (94-109),
`debug` (111-121), `event_handling` (123-137) and `update` (140-166). The members cited below for
src/cartesianPlane/__init__.py therefore model those lines too. The one difference besides
`is_in_screen` is the font it loads.

Drawing only describes the surface. Each draw returns the primitive call it would make, as a
`DrawCmd` value. `Update` returns the frame's command sequence. The pointer position is a
parameter wherever the source asks pygame for it.

Rounding is Python's `round` on an exact real: the nearest integer, and on a tie the even one.
The laws about the transform use only its two basic facts. It is at most half away from its
argument, and it maps an integer to itself.

The object invariant `CartesianPlane.Valid()` keeps the zoom level inside (0.09, 110). The
constructor sets it to 1, and each zoom step keeps it inside.

## Model

| member | source | states |
|---|---|---|
| Geometry.Round | src/cartesianPlane/__init__.py:46-47 | the rounded value is the floor or the floor plus one, at most 1/2 away from the argument, and even on a tie (Python's `round`) |
| Geometry.Scale | src/cartesianPlane/__init__.py:63-72 | a scaled length is within half a pixel of `length * scale_factor` |
| Geometry.PlaneToScreen | src/cartesianPlane/__init__.py:37-48 | each pixel coordinate is within half a pixel of the exact image `((x + offset_x) * scale, (offset_y - y) * scale)` |
| Geometry.Unscaled | src/cartesianPlane/__init__.py:59-60 | the formula of `screen_to_plane` on exact screen coordinates gives the plane point whose unrounded image is those coordinates |
| Geometry.UnscaledOfUnrounded | src/cartesianPlane/__init__.py:46-60 | taking a plane point to its unrounded image and back through the `screen_to_plane` formula gives the same point, so the two maps are inverse bijections |
| Geometry.ScreenToPlane | src/cartesianPlane/__init__.py:50-61 | `screen_to_plane` of a pixel is the plane point whose unrounded image is exactly that pixel |
| Geometry.RoundTripWithinHalfPixel | src/cartesianPlane/__init__.py:37-61 | `screen_to_plane(plane_to_screen(p))` differs from `p` by at most `1/(2*scale_factor)` in each coordinate |
| Geometry.PixelRoundTrip | src/cartesianPlane/__init__.py:46-60 | a whole pixel taken to the plane and back is the same pixel |
| Viewport.ZoomScale | src/cartesianPlane/__init__.py:91-95 | the zoom level stays positive, stays below 110 once below it, and stays above 0.09 once above it |
| Viewport.ZoomScaleRule | src/cartesianPlane/__init__.py:91-95 | the level grows (times 1.1) exactly on an upward tick below 100, shrinks (times 0.9) exactly on a downward tick above 0.1, and is unchanged otherwise |
| Viewport.ZoomInThenOut | src/cartesianPlane/__init__.py:91-95 | from 1, one tick up gives 1.1 and one tick down then gives 0.99, not 1 |
| Viewport.ZoomAllBounded | src/cartesianPlane/__init__.py:84-99 | any sequence of wheel ticks keeps a level inside (0.09, 110) inside it |
| Viewport.Panned | src/cartesianPlane/__init__.py:79-80 | the view after `move_axis` adds the pointer delta divided by the scale to the offset: same scale and size; `PanShiftsImage` states its effect on the image |
| Viewport.PanShiftsImage | src/cartesianPlane/__init__.py:79-80 | adding the pointer delta divided by the scale to the offset moves the unrounded screen image of every plane point by exactly that delta |
| Viewport.PinDeterminesOffset | src/cartesianPlane/__init__.py:90-99 | at a fixed scale, the plane point under a pixel determines the offset, so the zoom contract fixes the whole new state |
| Viewport.PinnedOffset | src/cartesianPlane/__init__.py:90-99 | the zoom offset correction keeps the plane point under the pointer where it was, and is no change when the scale is unchanged |
| Scene.Circle.Draw | src/cartesianPlane/cartesianObjects.py:22-30 | a circle command with the transformed centre, a radius within half a pixel of the scaled radius, and the colour and border width unchanged |
| Scene.Rect.Draw | src/cartesianPlane/cartesianObjects.py:51-60 | a rectangle command at the transformed top-left corner, with width and height each scaled on their own |
| Scene.Line.Draw | src/cartesianPlane/cartesianObjects.py:81-89 | a line command in the line's colour, each drawn endpoint coordinate within half a pixel of that endpoint's exact screen image, with the stroke width unscaled |
| Scene.LineEndsNearPoints | src/cartesianPlane/cartesianObjects.py:81-89 | the drawn endpoints, read back with `screen_to_plane`, lie within `1/(2*scale_factor)` of the line's endpoints in each coordinate |
| Scene.RectScalesSidesNotCorners | src/cartesianPlane/cartesianObjects.py:55-57 | there is a rectangle whose drawn width (1) differs from the distance between its transformed corners (2) |
| Scene.RectWidthNearCornerDistance | src/cartesianPlane/cartesianObjects.py:55-57 | the drawn width is always within 1.5 pixels of that corner distance |
| Scene.InScreen | src/cartesianPlane/cartesianObjects.py:119-120 | `_is_in_screen`: the pixel lies in `[0,width) x [0,height)`; what plotting makes of it is stated by `PlotPathSound` and `PlotPathComplete` |
| Scene.PlotPath | src/cartesianPlane/cartesianObjects.py:122-131 | at most one command per point of the path; `Path.Draw` is proved to compute it, and `PlotPathAppend`, `PlotPathSound` and `PlotPathComplete` state what it plots; like the code, it plots a repeated pixel once per point that maps to it |
| Scene.PlotPathAppend | src/cartesianPlane/cartesianObjects.py:122-131 | plotting a concatenated path plots the first part and then the second, so pixels come out in path order |
| Scene.PlotPathSound | src/cartesianPlane/cartesianObjects.py:119-131 | every plotted command is a single pixel in the path's colour, inside `[0,width) x [0,height)`, and the image of one of the path's points |
| Scene.PlotPathComplete | src/cartesianPlane/cartesianObjects.py:119-131 | every point whose image lies inside `[0,width) x [0,height)` is plotted |
| Scene.Trimmed | src/cartesianPlane/cartesianObjects.py:115-116 | with a positive cap the result is the last `min(n, cap)` elements, in order; with a cap of 0 or less it is the whole input |
| Scene.TrimmedTwice | src/cartesianPlane/cartesianObjects.py:107-116 | trimming after every batch keeps the same points as trimming once after all the batches |
| Scene.TrimExample | src/cartesianPlane/cartesianObjects.py:113-116 | cap 3, with (0,0),(1,1),(2,2),(3,3) added to an empty path, keeps [(1,1),(2,2),(3,3)] |
| Scene.Path.constructor | src/cartesianPlane/cartesianObjects.py:92-103 | a new path holds exactly the given points, untrimmed, with the given colour and cap (1000 when none is given) |
| Scene.Path.AddPoints | src/cartesianPlane/cartesianObjects.py:107-116 | the new path is the old path plus the new points, trimmed to the cap |
| Scene.Path.Draw | src/cartesianPlane/cartesianObjects.py:122-131 | the loop plots exactly `PlotPath` of the current path |
| Scene.DrawShape | src/cartesianPlane/__init__.py:145-146 | one registered object's `draw()`: exactly one command for a circle, rectangle or line, and at most one per point for a path |
| Scene.DrawCircle | src/cartesianPlane/cartesianObjects.py:134-144 | `draw.circle` gives the same command a registered circle with that geometry draws; the border width defaults to 0 |
| Scene.DrawRect | src/cartesianPlane/cartesianObjects.py:146-155 | `draw.rect` gives the same command a registered rectangle with that geometry draws; the border width defaults to 0 |
| Scene.DrawLine | src/cartesianPlane/cartesianObjects.py:157-167 | `draw.line` gives the same command a registered line with that geometry draws; the stroke width defaults to 1 |
| Plane.DrawAll | src/cartesianPlane/__init__.py:144-146 | the object loop of `update` as a function: every object's commands, object after object; `DrawAllAppend` and `DrawObjects` state its properties |
| Plane.DrawAllAppend | src/cartesianPlane/__init__.py:144-146 | objects registered later draw after the ones registered before them |
| Plane.Axes | src/cartesianPlane/__init__.py:139-142 | two white lines of width 1: the first spans the full width on the screen row of every plane point `(x, 0)`, the second spans the full height on the screen column of every plane point `(0, y)` |
| Plane.Merge | src/cartesianPlane/__init__.py:104-105 | the first loop of `debug` as a function; `MergeKeys`, `MergeLastWins` and `MergeUntouched` state what it does to the map |
| Plane.MergeKeys | src/cartesianPlane/__init__.py:104-105 | after the merge, the debug map's labels are the old labels plus the labels written |
| Plane.MergeLastWins | src/cartesianPlane/__init__.py:104-105 | a label written several times ends with its last value |
| Plane.MergeUntouched | src/cartesianPlane/__init__.py:104-105 | a label that is not written keeps its value, or stays absent |
| Plane.CartesianPlane.constructor | src/cartesianPlane/__init__.py:10-34 | the offset is the surface centre in whole pixels, the scale is 1, there is no pointer sample and no drag, and the draw list and debug map are empty |
| Plane.CartesianPlane.MoveAxis | src/cartesianPlane/__init__.py:74-82 | with no sample the offset is unchanged; with a sample, every plane point's unrounded image moves by the pointer delta; the sample always becomes the pointer |
| Plane.CartesianPlane.Zooming | src/cartesianPlane/__init__.py:84-99 | the scale follows the zoom step rule and the plane point under the pointer is the same before and after; the offset is unchanged when the scale is |
| Plane.CartesianPlane.Debug | src/cartesianPlane/__init__.py:101-105 | the debug map becomes the old map with each entry written in turn; no other field changes |
| Plane.Event | src/cartesianPlane/__init__.py:113-127 | the event kinds `event_handling` tells apart: button press, button release (each with its button) and wheel (with its `y`); every other event |
| Plane.CartesianPlane.HandleEvent | src/cartesianPlane/__init__.py:113-127 | left press starts a drag; left release ends it and forgets the sample; the wheel zooms at the pointer; any other event or button changes nothing |
| Plane.CartesianPlane.DrawObjects | src/cartesianPlane/__init__.py:144-146 | the loop returns every object's draw commands, in list order |
| Plane.CartesianPlane.Update | src/cartesianPlane/__init__.py:130-156 | it pans only while dragging, then emits a black fill, the two axes for the new view, and the objects' commands in registration order |
| Plane.NewCircle | src/cartesianPlane/cartesianObjects.py:4-20 | the circle is appended to the end of the plane's objects, and nothing else in the list changes; the border width defaults to 0 |
| Plane.NewRect | src/cartesianPlane/cartesianObjects.py:33-49 | the rectangle is appended to the end of the plane's objects, and nothing else in the list changes; the border width defaults to 0 |
| Plane.NewLine | src/cartesianPlane/cartesianObjects.py:63-79 | the line is appended to the end of the plane's objects, and nothing else in the list changes; the stroke width defaults to 1 |
| Plane.NewPath | src/cartesianPlane/cartesianObjects.py:92-105 | a fresh path holding the given points untrimmed is appended to the end of the plane's objects; the cap defaults to 1000 |
| Plane.FreshPlaneExample | src/cartesianPlane/__init__.py:16-48 | on a fresh 800x600 plane the origin is drawn at (400,300) and (10,-5) at (410,305) |
| Plane.CappedPathExample | src/cartesianPlane/cartesianObjects.py:92-116 | a registered path with cap 3 keeps the last three of four added points |
| Plane.ZoomTicksExample | src/cartesianPlane/__init__.py:113-127 | two wheel events, one up and one down, take a fresh plane's scale to 1.1 and then 0.99 |
| Plane.DragExample | src/cartesianPlane/__init__.py:130-134 | during a drag on a fresh 800x600 plane, the first frame only takes the pointer sample, leaving the origin's image at (400,300), and the next frame moves it by the pointer delta (30,20) |
| MainVariant.IsInScreen | src/cartesianPlane/__main__.py:69-82 | `is_in_screen`: visible unless the corner and the far corner `(x + w - 1, y - h - 1)` both lie left of, right of, above or below the surface; `CornerOnSurfaceIsInScreen`, `DefaultFarCorner` and `RightEdgeDiffersFromPathTest` state its properties |
| MainVariant.CornerOnSurfaceIsInScreen | src/cartesianPlane/__main__.py:80-82 | a first corner inside `[0,width] x [0,height]` passes, whatever the width and height |
| MainVariant.DefaultFarCorner | src/cartesianPlane/__main__.py:69-82 | with the default width and height of 1, the second corner tested is `(x, y - 2)` |
| MainVariant.RightEdgeDiffersFromPathTest | src/cartesianPlane/__main__.py:82 | a pixel exactly on the right edge passes `is_in_screen` (strict `>`) but is not plotted by a path (strict `<`) |

## Left out

- pygame itself is left out: the surface, `fill`, the `draw.*` primitives, `blit`, `set_at`, the display and the clock. Draws return `DrawCmd` values instead. The surface is replaced by its size.
- `pygame.mouse.get_pos()` is left out. The pointer position is a parameter of `MoveAxis`, `Zooming`, `HandleEvent` and `Update`.
- The font and the text layout of `debug` are left out, because line heights come from the font. Only the label-to-value merge is modelled. The values are taken as already formatted strings.
- `Update` does not call `Debug`. The source's closing call of `debug` passes no entries, so the map is unchanged, and what that call otherwise does is text rendering.
- The colours module is not part of this model. Colours are opaque values (`Black`, `White`, `Rgb`).
- IEEE floating point is left out. Offsets, scale and coordinates are exact reals, so the laws hold exactly where float rounding would blur them.
- Python's loose argument types are left out. Points are records of two reals, and a rectangle's `[x, y, w, h]` list is a corner plus two lengths. Short lists and other `IndexError` cases cannot be expressed.
- A shape's reference back to its plane is not stored. A shape is drawn with the view of the plane whose list holds it. That is always its own plane, because construction registers it only there.
- Circle, Rect, Line: a registered circle, rectangle or line is an immutable value. The source keeps each shape as an object whose fields a client may reassign after registration (the demo script moves a circle by assigning its `center`), and the next `update` draws the new geometry. The model does not capture that update in place, or the aliasing between the client's reference and the plane's list; a client replaces the shape instead.
- PlotPath: does not remove duplicate pixels. The comment in the source's `draw` loop speaks of removing duplicate points, but the code only skips off-screen pixels, and the model follows the code. Setting the same pixel twice in the same colour gives the same picture.
- A path's colour and cap are constants. The library never reassigns them after construction.
- `DrawObjects` takes a path's commands from `PlotPath` instead of calling `Path.Draw`. `Path.Draw` is proved to return exactly `PlotPath`.
- Quit and resize events, a block-movement flag, a focus point and re-centring are not modelled, because none of them exists in `CartesianPlane` in the modelled source. Every other event is `OtherEvent`.
- The host event loops in the scripts Objects.py, demo.py, Senoid.py, pyopenglTest.py and mouseWheel.py are left out. They are host glue and printing.
