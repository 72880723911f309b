# Prefux core: bounds, shape renderer control logic, visibility filter

A Dafny model of three parts of the Prefux visualization toolkit, with proofs
of what they promise:

- **DisplayLib** (`display_lib.dfy`): the bounding rectangle of a set of
  items (a single pass over an iterator, seeded with the first item's bounds,
  grown by a margin once at the end), the centroid of the items whose
  position is finite, and fitting a display's view to a rectangle (resolve a
  centre, compute the half-extents that cover the rectangle around it, derive
  a zoom factor relative to the current scale, then send `panToAbs` and
  `zoomAbs` to the display).
- **AbstractShapeRenderer** (`shape_renderer.dfy`): a renderer object with a
  validated render type (NONE, DRAW, FILL, DRAW_AND_FILL = 0..3, default 3)
  and a bounds-management flag (default on); obtaining an item's shape from
  two subclass hooks (raw shape, optional transform appended to the shape's
  transform list in place); painting; a two-stage hit test; maintaining an
  item's cached bounds.
- **VisibilityFilter** (`visibility_filter.dfy`): the test predicate and the
  iteration filter `test OR visible`, and a pass that visits the group's
  items admitted by the filter and sets each one's visibility to the test.

Shared modules: `geometry.dfy` (doubles, points, rectangles), `items.dfy`
(the item record), `wrappers.dfy` (Option, Result and the two Java exceptions
that escape: IllegalArgumentException and NullPointerException).

Modelling choices:

- Doubles are reals. A NaN or infinite coordinate is `Num.NonFinite`; the
  all-NaN rectangle is `Rect.Empty`. The NaN comparisons of getBounds are
  kept at that granularity: NaN bounds on the first item make the result NaN,
  NaN bounds on a later item are passed over (`UnionNaNBounds`).
- An iterator of items is a sequence consumed once, front to back. The items
  of a visualization are rows of an `array<Item>`, updated in place by the
  filter and by `setBounds`.
- The display is a class that records the commands it receives; the
  scene-graph node is a class `Shape` holding its transform list and an
  uninterpreted containment test; a paint is returned as a `PaintCall` record
  of its arguments.
- Java exceptions are values: `setRenderType` returns `Thrown(IllegalArgument)`
  for a type outside 0..3 and leaves the type unchanged. `getShape`
  dereferences the raw shape when the transform hook returns a transform, so
  a null raw shape together with a transform raises a NullPointerException;
  `render`, `locatePoint` and `setBounds` let it propagate.
- `locatePoint` is not read-only: inside the cached bounds it obtains the
  shape, which appends the hook's transform to it. A shape instance reused
  across calls therefore gains one more transform on every render, hit test
  or bounds update (`ReusedShapeAccumulates`).

## Model

| member | source | states |
|---|---|---|
| DisplayLib.GetBoundsInto | src/main/java/prefux/util/display/DisplayLib.java:63-88 | the result is the union of the items' bounds grown once by the margin, NaN for no items; the caller's rectangle `b` has no influence on it |
| DisplayLib.GetBounds | src/main/java/prefux/util/display/DisplayLib.java:100-103 | the allocating overload computes the same rectangle |
| DisplayLib.UnionExtremes | src/main/java/prefux/util/display/DisplayLib.java:67-84 | the fold of real rectangles encloses each of them and each of its four sides is the corresponding side of some item: it is the least enclosing rectangle |
| DisplayLib.UnionBoundsCorners | src/main/java/prefux/util/display/DisplayLib.java:65-86 | no items give the NaN rectangle even with a margin; otherwise minX/minY are the items' least minX/minY minus the margin, maxX/maxY their greatest maxX/maxY plus the margin, and width and height exceed the union's by exactly twice the margin (applied once, not per item) |
| DisplayLib.UnionBoundsEncloses | src/main/java/prefux/util/display/DisplayLib.java:75-86 | with a non-negative margin every item's bounds lie inside the result |
| DisplayLib.UnionBoundsOrderFree | src/main/java/prefux/util/display/DisplayLib.java:72-84 | for real bounds, the result depends only on the multiset of the items' bounds, not on iteration order |
| DisplayLib.Enclose | src/main/java/prefux/util/display/DisplayLib.java:75-83 | NaN accumulated bounds stay NaN; NaN next bounds leave the accumulated ones unchanged; for two real rectangles the result contains both and each of its four sides is that side of one of them; the result is one step of the fold |
| DisplayLib.UnionNaNBounds | src/main/java/prefux/util/display/DisplayLib.java:65-82 | NaN bounds on the first item make the result NaN; NaN bounds inserted at any later position leave it unchanged |
| DisplayLib.UnionSkipsNaNAt | src/main/java/prefux/util/display/DisplayLib.java:72-83 | inserting NaN bounds at a given position after the first item leaves the fold unchanged |
| DisplayLib.UnionBoundsExample | src/main/java/prefux/util/display/DisplayLib.java:63-88 | bounds (0,0,2,2) and (5,5,1,1) with margin 1 give corners (-1,-1) and (7,7) |
| DisplayLib.GetCentroidInto | src/main/java/prefux/util/display/DisplayLib.java:115-135 | the result is the mean position of the items whose coordinates are both finite, (0,0) when there is none; the caller's point `p` has no influence |
| DisplayLib.GetCentroid | src/main/java/prefux/util/display/DisplayLib.java:145-147 | the allocating overload computes the same point |
| DisplayLib.CountAndSumAppend | src/main/java/prefux/util/display/DisplayLib.java:119-128 | the count and the running sums of valid samples add up over concatenated item sequences |
| DisplayLib.CentroidSkipsInvalid | src/main/java/prefux/util/display/DisplayLib.java:121-127 | an item with a NaN or infinite coordinate, at any position, does not change the centroid |
| DisplayLib.SumWithin | src/main/java/prefux/util/display/DisplayLib.java:119-128 | if every valid sample's coordinate is in [lo, hi], the running sum is between count * lo and count * hi (`Scaled`, repeated addition) |
| DisplayLib.AxisMeanWithin | src/main/java/prefux/util/display/DisplayLib.java:129-133 | with at least one valid sample, the sum of one coordinate divided by the count lies in any interval holding that coordinate of every valid sample |
| DisplayLib.CentroidWithin | src/main/java/prefux/util/display/DisplayLib.java:129-133 | with at least one valid sample, each centroid coordinate lies in any interval holding that coordinate of every valid sample (it is an average of them) |
| DisplayLib.CentroidOfNoSamples | src/main/java/prefux/util/display/DisplayLib.java:129-133 | when no item has finite coordinates the centroid is (0,0) |
| DisplayLib.CentroidExample | src/main/java/prefux/util/display/DisplayLib.java:115-135 | samples (1,1), (NaN,2), (3,3) give (2,2) |
| DisplayLib.Display.PanToAbs | src/main/java/prefux/util/display/DisplayLib.java:200 | the display records a pan to the point, without a duration |
| DisplayLib.Display.ZoomAbs | src/main/java/prefux/util/display/DisplayLib.java:201 | the display records a zoom about the point by the relative factor, without a duration |
| DisplayLib.HalfExtent | src/main/java/prefux/util/display/DisplayLib.java:188-189 | the half-extent around the centre reaches both ends of the interval, is at least half its length, and equals the distance to one end (it is the least that covers) |
| DisplayLib.FitPlan | src/main/java/prefux/util/display/DisplayLib.java:182-195 | the pan target is the resolved centre; the zoom is finite exactly when the bounds are real, the current scale is non-zero and both half-extents are non-zero (negative-size bounds give a finite, negative zoom, as fitViewToBounds computes) |
| DisplayLib.FitViewToBoundsAround | src/main/java/prefux/util/display/DisplayLib.java:179-202 | the display receives exactly a pan to the resolved centre followed by a zoom about that same point by the planned factor; the duration is not passed on |
| DisplayLib.FitViewToBounds | src/main/java/prefux/util/display/DisplayLib.java:160-163 | the three-argument form sends the commands of the four-argument form with no centre |
| DisplayLib.FitCentersAndCovers | src/main/java/prefux/util/display/DisplayLib.java:183-189 | without a centre the view is centred on the middle of the bounds; the box of the half-extents around the centre contains the bounds |
| DisplayLib.FitZoomFits | src/main/java/prefux/util/display/DisplayLib.java:194-195 | for real bounds, a non-zero scale and positive half-extents, current scale times zoom times twice each half-extent is at most the display's width and height, with equality on at least one axis |
| DisplayLib.FitExample | src/main/java/prefux/util/display/DisplayLib.java:179-202 | a 100x100 display at scale 1 fitted to (0,0,50,50) with no centre pans to (25,25) and zooms by 2 |
| ShapeRenderer.Renderer.constructor | src/main/java/prefuse/render/AbstractShapeRenderer.java:45-47 | a fresh renderer has render type DRAW_AND_FILL and manages bounds |
| ShapeRenderer.Renderer.WithoutTransform | src/main/java/prefuse/render/AbstractShapeRenderer.java:104-106 | a renderer that keeps the default transform hook, which gives no transform |
| ShapeRenderer.Renderer.SetManageBounds | src/main/java/prefuse/render/AbstractShapeRenderer.java:49-51 | the flag consulted by setBounds becomes `b` |
| ShapeRenderer.Renderer.GetRenderType | src/main/java/prefuse/render/AbstractShapeRenderer.java:113-115 | the render type of every item is one of the four render types |
| ShapeRenderer.Renderer.SetRenderType | src/main/java/prefuse/render/AbstractShapeRenderer.java:124-129 | a type outside 0..3 throws IllegalArgumentException and keeps the old type; otherwise the type becomes `t` |
| ShapeRenderer.Renderer.GetShape | src/main/java/prefuse/render/AbstractShapeRenderer.java:80-86 | returns the raw shape; a transform from the hook is appended exactly once to its transform list; no transform leaves it untouched; a transform for a null raw shape throws NullPointerException |
| ShapeRenderer.Renderer.Render | src/main/java/prefuse/render/AbstractShapeRenderer.java:56-73 | paint is called exactly when the shape is non-null, with the item, that shape, the item's style and the render type; a null shape paints nothing |
| ShapeRenderer.Renderer.LocatePoint | src/main/java/prefuse/render/AbstractShapeRenderer.java:134-142 | outside the cached bounds the answer is false and the shape is not touched; inside, it is the transformed shape's containment, false for a null shape |
| ShapeRenderer.Renderer.SetBounds | src/main/java/prefuse/render/AbstractShapeRenderer.java:147-155 | with management off nothing changes; a null shape sets the item's bounds to the zero-size rectangle at its position and changes no other row; a non-null shape leaves every item as it was |
| ShapeRenderer.PointBounds | src/main/java/prefuse/render/AbstractShapeRenderer.java:151 | the zero-size rectangle at (x, y) is a real rectangle exactly when both coordinates are finite, and then has both corners at (x, y) |
| ShapeRenderer.ReusedShapeAccumulates | src/main/java/prefuse/render/AbstractShapeRenderer.java:80-86 | two calls of getShape on a reused shape append the transform twice |
| ShapeRenderer.DefaultHookLeavesShape | src/main/java/prefuse/render/AbstractShapeRenderer.java:80-86 | with the default transform hook getShape returns the raw shape and leaves its transforms as they were |
| Filter.EvalFilter | src/main/java/prefux/action/filter/VisibilityFilter.java:59 | the iteration filter admits an item exactly when the test holds of it or it is visible |
| Filter.Visits | src/main/java/prefux/action/filter/VisibilityFilter.java:59-66 | a pass changes no row outside the visited set, the group's rows that satisfy the test or are visible |
| Filter.Refiltered | src/main/java/prefux/action/filter/VisibilityFilter.java:65-70 | after a pass, a group item is visible exactly when the test holds of it; no other field and no item outside the group changes |
| Filter.VisibilityFilter.constructor | src/main/java/prefux/action/filter/VisibilityFilter.java:37-40 | a new filter holds its group and the given test predicate |
| Filter.VisibilityFilter.SetPredicate | src/main/java/prefux/action/filter/VisibilityFilter.java:57-60 | stores `p` as the test and `p OR visible` as the iteration filter |
| Filter.VisibilityFilter.Run | src/main/java/prefux/action/filter/VisibilityFilter.java:65-71 | the item table becomes the refiltered table; exactly the visited rows are written, so hidden items that fail the test are never written |
| Filter.RefilterIdempotent | src/main/java/prefux/action/filter/VisibilityFilter.java:65-70 | a second pass changes nothing when the test does not read the visibility flag |
| Filter.VisibilityReadingTestFlips | src/main/java/prefux/action/filter/VisibilityFilter.java:65-70 | a test that reads the visibility flag ("is invisible") is not idempotent: it shows a hidden item and then hides it again |
| Filter.FilterExample | src/main/java/prefux/action/filter/VisibilityFilter.java:14-15 | with test x > 5 on items at 3, 7 and 10, the last two become visible; after the third moves to 2 another pass hides it and keeps the second |

## Left out

- IEEE-754 arithmetic: rounding, signed zeros, and rectangles with only some coordinates NaN or infinite. A rectangle is either fully real or the all-NaN `Empty`; `PointBounds` gives `Empty` when a coordinate is NaN or infinite.
- DisplayLib.FitPlan: reports the zoom as non-finite whenever a half-extent is zero; with IEEE doubles a single zero half-extent gives an infinite axis ratio and `Math.min` then yields the other axis' ratio, which the model does not compute.
- DisplayLib.FitPlan: the display's width, height and scale are read as given; negative or NaN display sizes are not distinguished.
- The display's own behaviour (`getWidth`, `getHeight`, `getScale`, the animation behind `panToAbs` and `zoomAbs`): the display only records the two commands.
- prefux.data.util.Rectangle2D is not part of this model: its containment test is taken as half-open on the far edges and its centre as corner plus half the extent.
- JavaFX nodes, transforms and `Node.contains`: a shape is an object with a transform list and an uninterpreted containment function of that list and the point.
- `FxGraphicsLib.paint`: a foreign drawing call; only its arguments are recorded.
- The subclass hooks `getRawShape` and `getTransform` are fixed functions of the item: a hook that updates a shared shape's parameters as a side effect is not modelled. The renderer methods require the shape the hook returns to be an allocated object.
- The unused `m_transform` field, the commented-out bounds computation for non-null shapes and the advice on reusing one shape instance carry no behaviour.
- `Visualization.items`, `OrPredicate`, `VisiblePredicate` and `PrefuseLib.updateVisible` are not part of this model: iteration visits the rows of the group that pass the filter in row order, and updating visibility sets the flag. An item belongs to exactly one group.
- The VisibilityFilter constructors without a group or with a Visualization: the default group and the visualization come from GroupAction, which is not part of this model. A null predicate cannot be expressed.
- The `frac` argument of `run` and the `duration` argument of `fitViewToBounds`: both methods accept them and never read them.
- The "same object as the parameter" promise in the documentation of `getBounds(iter, margin, b)` and `getCentroid(iter, p)`: rectangles and points are values without identity here, so the model cannot express it. The code does not keep that promise anyway, because it rebinds the local to a new object (DisplayLib.java lines 65 and 133) and never writes the caller's object.
- Concurrent mutation of the items during a pass: the model is single-threaded.
