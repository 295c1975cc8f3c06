/**
 The view transform of the whiteboard (viewState in script.js): a scale and
 a pan offset, the single rule that turns a client point into a world point
 (getPosition), the inverse rule the renderer applies (redrawCanvas), zooming
 about an anchor with the scale clamped to [0.1, 20] (zoomAtPoint), panning,
 the reset action and the wheel and button zoom multipliers.

 `origin` is always the canvas's client-space offset (rect.left, rect.top),
 supplied by the host.
 */
module View {
  import opened Geometry

  /** scale is a zoom factor; panX/panY are in world units. */
  datatype ViewState = ViewState(scale: real, panX: real, panY: real)

  const MinScale: real := 0.1
  const MaxScale: real := 20.0

  /** The view on page load and after the reset action. */
  const Home: ViewState := ViewState(1.0, 0.0, 0.0)

  /** The clamp range [0.1, 20]: the scales the clamp leaves as they are. */
  predicate ScaleInRange(s: real) {
    MinScale <= s <= MaxScale
  }

  /** The range every reachable view keeps its scale in. */
  predicate InRange(v: ViewState) {
    ScaleInRange(v.scale)
  }

  /** Screen to world, as getPosition and zoomAtPoint compute it. The result
      is the point the renderer draws back under `client`. */
  function ToWorld(v: ViewState, origin: Point, client: Point): (w: Point)
    requires v.scale > 0.0
    ensures ToScreen(v, origin, w) == client
  {
    var w := Point((client.x - origin.x - v.panX * v.scale) / v.scale,
                   (client.y - origin.y - v.panY * v.scale) / v.scale);
    assert w.x * v.scale == client.x - origin.x - v.panX * v.scale;
    assert w.y * v.scale == client.y - origin.y - v.panY * v.scale;
    assert (w.x + v.panX) * v.scale == w.x * v.scale + v.panX * v.scale;
    assert (w.y + v.panY) * v.scale == w.y * v.scale + v.panY * v.scale;
    assert ToScreen(v, origin, w).x == client.x;
    assert ToScreen(v, origin, w).y == client.y;
    w
  }

  /** World to screen, as the renderer's transform places a world point:
      translate by pan*scale, then scale, then offset by the canvas origin. */
  function ToScreen(v: ViewState, origin: Point, w: Point): (c: Point)
    ensures c.x == origin.x + v.panX * v.scale + v.scale * w.x
    ensures c.y == origin.y + v.panY * v.scale + v.scale * w.y
  {
    Point((w.x + v.panX) * v.scale + origin.x,
          (w.y + v.panY) * v.scale + origin.y)
  }

  /** ToWorld undoes ToScreen: the two rules are mutually inverse for any
      positive scale. */
  lemma WorldScreenRoundTrip(v: ViewState, origin: Point, w: Point)
    requires v.scale > 0.0
    ensures ToWorld(v, origin, ToScreen(v, origin, w)) == w
  {
    var c := ToScreen(v, origin, w);
    assert c.x - origin.x - v.panX * v.scale == w.x * v.scale;
    assert c.y - origin.y - v.panY * v.scale == w.y * v.scale;
  }

  /** Math.max(0.1, Math.min(s, 20)). */
  function Clamp(s: real): (r: real)
    ensures ScaleInRange(r)
    ensures ScaleInRange(s) ==> r == s
    ensures s < MinScale ==> r == MinScale
    ensures s > MaxScale ==> r == MaxScale
  {
    var capped := if s < MaxScale then s else MaxScale;
    if MinScale < capped then capped else MinScale
  }

  /** zoomAtPoint: multiply the scale by `m`, clamp it, and re-aim the pan so
      that the world point under `anchor` stays under `anchor`. This holds for
      every multiplier, including 0, negative or huge ones. */
  function ZoomAtPoint(v: ViewState, origin: Point, anchor: Point, m: real): (r: ViewState)
    requires v.scale > 0.0
    ensures InRange(r)
    ensures r.scale == Clamp(v.scale * m)
    ensures ToWorld(r, origin, anchor) == ToWorld(v, origin, anchor)
  {
    var w := ToWorld(v, origin, anchor);
    var s := Clamp(v.scale * m);
    var r := ViewState(s, (anchor.x - origin.x) / s - w.x, (anchor.y - origin.y) / s - w.y);
    assert anchor.x - origin.x - r.panX * s == w.x * s;
    assert anchor.y - origin.y - r.panY * s == w.y * s;
    r
  }

  /** The panning branch of move: the screen delta from `from` to `to`,
      divided by the scale, is added to the pan. The world point that was
      under `from` is afterwards under `to`, whatever the canvas origin. */
  function Pan(v: ViewState, from: Point, to: Point): (r: ViewState)
    requires v.scale > 0.0
    ensures r.scale == v.scale
    ensures forall origin :: ToWorld(r, origin, to) == ToWorld(v, origin, from)
  {
    var r := ViewState(v.scale,
                       v.panX + (to.x - from.x) / v.scale,
                       v.panY + (to.y - from.y) / v.scale);
    assert (to.x - from.x) / v.scale * v.scale == to.x - from.x;
    assert (to.y - from.y) / v.scale * v.scale == to.y - from.y;
    r
  }

  /** Pan is additive in its screen deltas: panning a->b then b->c equals
      panning a->c in one step. */
  lemma PanComposes(v: ViewState, a: Point, b: Point, c: Point)
    requires v.scale > 0.0
    ensures Pan(Pan(v, a, b), b, c) == Pan(v, a, c)
  {
    assert (b.x - a.x) / v.scale + (c.x - b.x) / v.scale == (c.x - a.x) / v.scale;
    assert (b.y - a.y) / v.scale + (c.y - b.y) / v.scale == (c.y - a.y) / v.scale;
  }

  /** Under the home view a world point is its client point less the canvas
      origin; reset therefore restores the identity transform. */
  lemma HomeIsIdentity(origin: Point, client: Point)
    ensures ToWorld(Home, origin, client) == Sub(client, origin)
  {
  }

  /** Zooming by `m` and then by `1/m` about the same anchor restores the
      view exactly, provided the first zoom did not hit the clamp. */
  lemma ZoomRoundTrip(v: ViewState, origin: Point, anchor: Point, m: real)
    requires InRange(v) && m > 0.0
    requires MinScale <= v.scale * m <= MaxScale
    ensures ZoomAtPoint(ZoomAtPoint(v, origin, anchor, m), origin, anchor, 1.0 / m) == v
  {
    var v1 := ZoomAtPoint(v, origin, anchor, m);
    MultiplyThenDivide(v.scale, m);
    assert v1.scale * (1.0 / m) == v.scale;
    ZoomDetermined(v1, origin, anchor, 1.0 / m, v);
  }

  /** A zoom's result is the one view with the clamped scale that keeps the
      anchor's world point. */
  lemma ZoomDetermined(v: ViewState, origin: Point, anchor: Point, m: real, u: ViewState)
    requires v.scale > 0.0
    requires u.scale == Clamp(v.scale * m)
    requires ToWorld(u, origin, anchor) == ToWorld(v, origin, anchor)
    ensures ZoomAtPoint(v, origin, anchor, m) == u
  {
    SameScaleSameAnchor(ZoomAtPoint(v, origin, anchor, m), u, origin, anchor);
  }

  /** (s * m) * (1 / m) == s. */
  lemma MultiplyThenDivide(s: real, m: real)
    requires m > 0.0
    ensures (s * m) * (1.0 / m) == s
  {
    assert (s * m) * (1.0 / m) == s * (m * (1.0 / m));
  }

  /** Two views with the same scale that map one client point to the same
      world point are the same view. */
  lemma SameScaleSameAnchor(v: ViewState, u: ViewState, origin: Point, anchor: Point)
    requires v.scale == u.scale && v.scale > 0.0
    requires ToWorld(v, origin, anchor) == ToWorld(u, origin, anchor)
    ensures v == u
  {
    var w := ToWorld(v, origin, anchor);
    assert ToScreen(v, origin, w) == anchor == ToScreen(u, origin, w);
    assert (w.x + v.panX) * v.scale == (w.x + u.panX) * v.scale;
    assert (w.y + v.panY) * v.scale == (w.y + u.panY) * v.scale;
  }

  /** handleWheelZoom's multiplier: scrolling down (deltaY > 0) zooms out by
      0.9, anything else zooms in by 1.1. */
  function WheelFactor(deltaY: real): (m: real)
    ensures m > 0.0
    ensures deltaY > 0.0 <==> m < 1.0
    ensures m == 0.9 || m == 1.1
  {
    if deltaY > 0.0 then 0.9 else 1.1
  }

  datatype ZoomDirection = In | Out

  /** The zoom buttons' multiplier: 1.2 in, 0.8 out. */
  function ButtonFactor(dir: ZoomDirection): (m: real)
    ensures dir == In <==> m > 1.0
    ensures m == 1.2 || m == 0.8
  {
    match dir
    case In => 1.2
    case Out => 0.8
  }

  /** The client point at the centre of a canvas of the given size: the
      midpoint of its top-left and bottom-right corners. */
  function CanvasCentre(origin: Point, width: real, height: real): (c: Point)
    ensures c == Midpoint(origin, Point(origin.x + width, origin.y + height))
  {
    Point(width / 2.0 + origin.x, height / 2.0 + origin.y)
  }

  /** zoom(direction): a button zoom anchored at the canvas centre. */
  function ButtonZoom(v: ViewState, origin: Point, width: real, height: real, dir: ZoomDirection): (r: ViewState)
    requires v.scale > 0.0
    ensures InRange(r)
    ensures r.scale == Clamp(v.scale * ButtonFactor(dir))
    ensures ToWorld(r, origin, CanvasCentre(origin, width, height))
         == ToWorld(v, origin, CanvasCentre(origin, width, height))
  {
    ZoomAtPoint(v, origin, CanvasCentre(origin, width, height), ButtonFactor(dir))
  }

  /** The zoom buttons are not inverse to each other: away from the clamp
      bounds, zooming in and then out leaves the scale at 0.96 of what it
      was (1.2 * 0.8), and the world point under the centre still fixed. */
  lemma ButtonsDrift(v: ViewState, origin: Point, width: real, height: real)
    requires MinScale <= v.scale * 0.96 && v.scale * 1.2 <= MaxScale
    ensures ButtonZoom(ButtonZoom(v, origin, width, height, In), origin, width, height, Out).scale
         == v.scale * 0.96
    ensures ToWorld(ButtonZoom(ButtonZoom(v, origin, width, height, In), origin, width, height, Out),
                    origin, CanvasCentre(origin, width, height))
         == ToWorld(v, origin, CanvasCentre(origin, width, height))
  {
    var v1 := ButtonZoom(v, origin, width, height, In);
    assert v1.scale == v.scale * 1.2;
    assert v1.scale * 0.8 == v.scale * 0.96;
  }
}
