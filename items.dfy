/** The renderable unit shared by the display utilities, the renderer and the filter. */
module Items {
  import opened Geometry

  /**
   * A visual item: its position (which may be NaN or infinite), its cached
   * bounds, its visibility flag, its style identifier and the group it is in.
   */
  datatype Item = Item(x: Num, y: Num, bounds: Rect, visible: bool, style: string, group: string)
}
