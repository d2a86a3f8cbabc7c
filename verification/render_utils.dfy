/** Screen projection and depth ordering (utils/renderUtils.ts). */
module RenderUtils {
  import opened Types

  datatype Point = Point(x: real, y: real)

  /** Horizontal offset that keeps isometric coordinates on screen. */
  const IsoOffsetX: real := 400.0

  /** `toScreenCoords(x, y, view)`. */
  function ToScreenCoords(x: real, y: real, view: ViewType): (p: Point)
    ensures view != ISO ==> p == Point(x, y)
    ensures view == ISO ==> p.x - IsoOffsetX == x - y && p.y == (x + y) / 2.0
  {
    if view == ISO then Point(IsoOffsetX + (x - y), (x + y) / 2.0) else Point(x, y)
  }

  /** The inverse of the isometric projection, solved for world coordinates. */
  function FromIsoScreen(p: Point): Point {
    var h := (p.x - IsoOffsetX) / 2.0;
    Point(p.y + h, p.y - h)
  }

  /** The isometric projection loses nothing: world -> screen -> world. */
  lemma IsoRoundTrip(x: real, y: real)
    ensures FromIsoScreen(ToScreenCoords(x, y, ISO)) == Point(x, y)
  {
  }

  /** ... and screen -> world -> screen. */
  lemma IsoRoundTripScreen(p: Point)
    ensures var w := FromIsoScreen(p); ToScreenCoords(w.x, w.y, ISO) == p
  {
  }

  /** The default z-index of flat (side-view) scenes. */
  const FlatZIndex: int := 10

  /** `getZIndex(y, height, view)`: depth from the bottom edge in the
      top-down and isometric views, a constant otherwise. */
  function GetZIndex(y: real, height: real, view: ViewType): (z: int)
    ensures view == SIDE ==> z == FlatZIndex
    ensures view == TOP_DOWN || view == ISO ==> z as real <= y + height < z as real + 1.0
  {
    if view == TOP_DOWN || view == ISO then (y + height).Floor else FlatZIndex
  }

  /** Lower on screen never draws below: the z-index is monotone in `y`. */
  lemma ZIndexMonotone(y1: real, y2: real, height: real, view: ViewType)
    requires y1 <= y2
    ensures GetZIndex(y1, height, view) <= GetZIndex(y2, height, view)
  {
  }
}
