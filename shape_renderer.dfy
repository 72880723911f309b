/**
 * The control logic of an abstract shape renderer: a validated render
 * type, a bounds-management flag, the shape obtained from two subclass
 * hooks, painting, hit-testing and bounds maintenance.
 */
module ShapeRenderer {
  import opened Wrappers
  import opened Geometry
  import opened Items

  const RenderTypeNone: int := 0
  const RenderTypeDraw: int := 1
  const RenderTypeFill: int := 2
  const RenderTypeDrawAndFill: int := 3

  /** An affine transform of the scene graph; its entries are not interpreted here. */
  datatype Transform = Transform(mxx: real, mxy: real, tx: real, myx: real, myy: real, ty: real)

  /** The parent node a shape is painted into. */
  datatype Canvas = Canvas(id: nat)

  /**
   * A scene-graph node: its list of transforms, which the renderer appends
   * to in place, and its containment test, which may depend on them.
   */
  class Shape {
    var transforms: seq<Transform>
    const outline: (seq<Transform>, Point) -> bool

    constructor (outline: (seq<Transform>, Point) -> bool)
      ensures transforms == [] && this.outline == outline
    {
      transforms := [];
      this.outline := outline;
    }

    predicate Contains(p: Point)
      reads this
    {
      outline(transforms, p)
    }
  }

  /** A call of the external paint routine, with the arguments it received. */
  datatype PaintCall = PaintCall(canvas: Canvas, item: Item, shape: Shape, style: string, renderType: int)

  /** The transform hook's default: no transform. */
  function NoTransform(item: Item): Option<Transform> {
    None
  }

  function AsList(t: Option<Transform>): seq<Transform> {
    match t
    case None => []
    case Some(x) => [x]
  }

  class Renderer {
    var renderType: int
    var manageBounds: bool
    /** The subclass hook giving the untransformed shape of an item, or null. */
    const rawShape: Item -> Shape?
    /** The subclass hook giving the transform to apply to an item's shape, if any. */
    const transform: Item -> Option<Transform>

    ghost predicate Valid()
      reads this
    {
      RenderTypeNone <= renderType <= RenderTypeDrawAndFill
    }

    /** A renderer whose subclass overrides both hooks. */
    constructor (rawShape: Item -> Shape?, transform: Item -> Option<Transform>)
      ensures Valid()
      ensures renderType == RenderTypeDrawAndFill && manageBounds
      ensures this.rawShape == rawShape && this.transform == transform
    {
      renderType := RenderTypeDrawAndFill;
      manageBounds := true;
      this.rawShape := rawShape;
      this.transform := transform;
    }

    /** A renderer whose subclass keeps the default transform hook. */
    constructor WithoutTransform(rawShape: Item -> Shape?)
      ensures Valid()
      ensures renderType == RenderTypeDrawAndFill && manageBounds
      ensures this.rawShape == rawShape && this.transform == NoTransform
    {
      renderType := RenderTypeDrawAndFill;
      manageBounds := true;
      this.rawShape := rawShape;
      this.transform := NoTransform;
    }

    /** The objects that obtaining the shape of `item` may change. */
    function Footprint(item: Item): set<object> {
      if rawShape(item) == null then {} else {rawShape(item)}
    }

    method SetManageBounds(b: bool)
      modifies this`manageBounds
      ensures manageBounds == b
    {
      manageBounds := b;
    }

    /** The render type used for every item. */
    function GetRenderType(item: Item): (t: int)
      reads this
      requires Valid()
      ensures RenderTypeNone <= t <= RenderTypeDrawAndFill
    {
      renderType
    }

    function GetStyle(item: Item): string {
      item.style
    }

    /** Accepts the four render types and rejects every other value, keeping the old one. */
    method SetRenderType(t: int) returns (r: Outcome)
      requires Valid()
      modifies this`renderType
      ensures Valid()
      ensures t < RenderTypeNone || t > RenderTypeDrawAndFill ==>
        r == Thrown(IllegalArgument) && renderType == old(renderType)
      ensures RenderTypeNone <= t <= RenderTypeDrawAndFill ==> r == Done && renderType == t
    {
      if t < RenderTypeNone || t > RenderTypeDrawAndFill {
        return Thrown(IllegalArgument);
      }
      renderType := t;
      r := Done;
    }

    /**
     * The raw shape of the item, with the hook's transform appended to its
     * transform list when there is one. A transform for a null raw shape
     * dereferences null.
     */
    method GetShape(item: Item) returns (r: Result<Shape?>)
      requires allocated(rawShape(item))
      modifies Footprint(item)
      ensures rawShape(item) == null && transform(item).Some? ==> r == Raise(NullPointer)
      ensures rawShape(item) != null || transform(item).None? ==> r == Ok(rawShape(item))
      ensures rawShape(item) != null ==>
        rawShape(item).transforms == old(rawShape(item).transforms) + AsList(transform(item))
    {
      var at := transform(item);
      var shape := rawShape(item);
      if at.Some? {
        if shape == null {
          return Raise(NullPointer);
        }
        shape.transforms := shape.transforms + [at.value];
      }
      r := Ok(shape);
    }

    /** Paints the item's shape with its style and the render type, unless the shape is null. */
    method Render(g: Canvas, item: Item) returns (r: Result<Option<PaintCall>>)
      requires Valid() && allocated(rawShape(item))
      modifies Footprint(item)
      ensures rawShape(item) == null && transform(item).Some? ==> r == Raise(NullPointer)
      ensures rawShape(item) == null && transform(item).None? ==> r == Ok(None)
      ensures rawShape(item) != null ==>
        r == Ok(Some(PaintCall(g, item, rawShape(item), item.style, renderType))) &&
        rawShape(item).transforms == old(rawShape(item).transforms) + AsList(transform(item))
    {
      var shape := GetShape(item);
      if shape.Raise? {
        return Raise(shape.exception);
      }
      if shape.value == null {
        return Ok(None);
      }
      r := Ok(Some(PaintCall(g, item, shape.value, GetStyle(item), GetRenderType(item))));
    }

    /**
     * Hit test: a point outside the item's cached bounds misses without the
     * shape being obtained; inside, the (transformed) shape decides, and a
     * null shape misses.
     */
    method LocatePoint(p: Point, item: Item) returns (r: Result<bool>)
      requires allocated(rawShape(item))
      modifies Footprint(item)
      ensures !item.bounds.Contains(p) ==> r == Ok(false) && unchanged(Footprint(item))
      ensures item.bounds.Contains(p) ==>
        if rawShape(item) == null then
          r == (if transform(item).Some? then Raise(NullPointer) else Ok(false))
        else
          r == Ok(rawShape(item).Contains(p)) &&
          rawShape(item).transforms == old(rawShape(item).transforms) + AsList(transform(item))
    {
      if item.bounds.Contains(p) {
        var s := GetShape(item);
        if s.Raise? {
          return Raise(s.exception);
        }
        r := Ok(if s.value != null then s.value.Contains(p) else false);
      } else {
        r := Ok(false);
      }
    }

    /**
     * Maintains the cached bounds of item `row`: nothing happens when bounds
     * management is off; a null shape collapses the bounds to a zero-size
     * rectangle at the item's position; a non-null shape leaves them as they are.
     */
    method SetBounds(items: array<Item>, row: nat) returns (r: Outcome)
      requires row < items.Length && allocated(rawShape(items[row]))
      modifies items, Footprint(items[row])
      ensures var it := old(items[row]);
        if !manageBounds then
          r == Done && items[..] == old(items[..]) && unchanged(Footprint(it))
        else if rawShape(it) == null then
          if transform(it).Some? then
            r == Thrown(NullPointer) && items[..] == old(items[..])
          else
            r == Done && items[..] == old(items[..])[row := it.(bounds := PointBounds(it.x, it.y))]
        else
          r == Done && items[..] == old(items[..]) &&
          rawShape(it).transforms == old(rawShape(it).transforms) + AsList(transform(it))
    {
      if !manageBounds {
        return Done;
      }
      var it := items[row];
      var shape := GetShape(it);
      if shape.Raise? {
        return Thrown(shape.exception);
      }
      if shape.value == null {
        items[row] := it.(bounds := PointBounds(it.x, it.y));
      }
      r := Done;
    }
  }

  /**
   * The zero-size rectangle at (x, y); a NaN or infinite coordinate makes it
   * the NaN rectangle.
   */
  function PointBounds(x: Num, y: Num): (b: Rect)
    ensures b.Rect? <==> x.Finite? && y.Finite?
    ensures b.Rect? ==> b.MinX() == b.MaxX() == x.v && b.MinY() == b.MaxY() == y.v
  {
    if x.Finite? && y.Finite? then Rect(x.v, y.v, 0.0, 0.0) else Empty
  }

  /** A shape reused across calls gains one transform per call of getShape. */
  method ReusedShapeAccumulates(renderer: Renderer, item: Item, t: Transform)
    requires renderer.rawShape(item) != null && allocated(renderer.rawShape(item))
    requires renderer.transform(item) == Some(t)
    modifies renderer.Footprint(item)
    ensures renderer.rawShape(item).transforms == old(renderer.rawShape(item).transforms) + [t, t]
  {
    var first := renderer.GetShape(item);
    var second := renderer.GetShape(item);
  }

  /** With the default transform hook, obtaining a shape leaves it untouched. */
  method DefaultHookLeavesShape(rawShape: Item -> Shape?, item: Item) returns (r: Result<Shape?>)
    requires allocated(rawShape(item))
    modifies if rawShape(item) == null then {} else {rawShape(item)}
    ensures r == Ok(rawShape(item))
    ensures rawShape(item) != null ==> rawShape(item).transforms == old(rawShape(item).transforms)
  {
    var renderer := new Renderer.WithoutTransform(rawShape);
    assert renderer.transform(item) == None;
    r := renderer.GetShape(item);
    assert AsList(None) == [];
  }
}
