/**
 The whiteboard's input state machine (start, move, end, handlePinchZoom,
 handleWheelZoom, zoom, resetView and the clear action of script.js), with
 all the module-level state of the engine gathered into one immutable
 Board value and one pure step function per handler.

 The gesture modes are the source's three independent flags, not a single
 enumerated mode: the source can hold more than one of them at once (a
 third finger landing during a pinch starts drawing while pinching stays
 set), and the model keeps that.
 */
module Gesture {
  import opened Wrappers
  import opened Geometry
  import opened View
  import opened Scene

  /** A pointer event as the handlers see it: a mouse event with its client
      point, or a touch event with its list of contacts. `spread` is the
      Euclidean distance between the first two contacts, computed by the
      host; it is only read when there are exactly two. */
  datatype Input = Mouse(at: Point) | Touch(contacts: seq<Point>, spread: real)

  /** What the host guarantees of an input to start or move: a touch event
      has a contact, and two contacts are apart. */
  predicate WellFormed(i: Input) {
    i.Touch? ==> |i.contacts| >= 1 && (|i.contacts| == 2 ==> i.spread > 0.0)
  }

  /** The point a single-pointer gesture follows: the mouse, or the first
      touch contact. */
  function Primary(i: Input): Point
    requires WellFormed(i)
  {
    match i
    case Mouse(at) => at
    case Touch(contacts, _) => contacts[0]
  }

  /** A two-contact touch: starts a pinch, and drives one while pinching. */
  predicate TwoTouch(i: Input) {
    i.Touch? && |i.contacts| == 2
  }

  /** The whole state of the whiteboard engine. */
  datatype Board = Board(
    tool: Tool, color: string, brush: real,
    scene: seq<Element>,
    view: ViewState,
    drawing: bool, panning: bool, pinching: bool,
    current: Option<Element>,
    lastPan: Point,
    pinchDistance: real)

  /** The state on page load. */
  const Initial: Board :=
    Board(Draw, "#ffffff", 5.0, [], Home, false, false, false, None, Point(0.0, 0.0), 0.0)

  /** The invariant every reachable state keeps: the scale within the clamp
      range, an in-progress element whenever drawing (the source dereferences
      it), a positive pinch baseline whenever pinching (the source divides by
      it), and only committed elements in the scene. */
  predicate Valid(b: Board) {
    && InRange(b.view)
    && (b.drawing ==> b.current.Some?)
    && (b.current.Some? ==> b.current.value.kind != Drag && |b.current.value.points| >= 1)
    && (b.pinching ==> b.pinchDistance > 0.0)
    && forall k :: 0 <= k < |b.scene| ==> Committed(b.scene[k])
  }

  lemma InitialValid()
    ensures Valid(Initial)
  {
  }

  /** start: a two-contact touch begins a pinch and cancels drawing and
      panning without committing anything; otherwise the drag tool begins a
      pan, and any other tool begins an element whose points all lie under
      the pointer and which carries the current tool, colour and brush size. */
  function Start(b: Board, origin: Point, i: Input): (r: Board)
    requires Valid(b) && WellFormed(i)
    ensures Valid(r)
    ensures r.scene == b.scene && r.view == b.view && r.tool == b.tool
    ensures r.color == b.color && r.brush == b.brush
    ensures !TwoTouch(i) ==> r.pinching == b.pinching && r.pinchDistance == b.pinchDistance
    ensures TwoTouch(i) ==>
      && r.pinching && !r.drawing && !r.panning
      && r.pinchDistance == i.spread && r.current == b.current
    ensures !TwoTouch(i) && b.tool == Drag ==>
      && r.panning && r.lastPan == Primary(i)
      && r.drawing == b.drawing && r.current == b.current
    ensures !TwoTouch(i) && b.tool != Drag ==>
      && r.drawing && r.panning == b.panning && r.lastPan == b.lastPan && r.current.Some?
      && r.current.value.kind == b.tool
      && r.current.value.color == b.color
      && r.current.value.width == b.brush
      && |r.current.value.points| == (if b.tool == Draw then 1 else 2)
      && forall k :: 0 <= k < |r.current.value.points| ==>
           ToScreen(b.view, origin, r.current.value.points[k]) == Primary(i)
  {
    if TwoTouch(i) then
      b.(pinching := true, drawing := false, panning := false, pinchDistance := i.spread)
    else if b.tool == Drag then
      b.(panning := true, lastPan := Primary(i))
    else
      var at := ToWorld(b.view, origin, Primary(i));
      b.(drawing := true, current := Some(NewElement(b.tool, b.color, b.brush, at)))
  }

  /** handlePinchZoom: zoom about the contacts' midpoint by the ratio of the
      new spread to the previous one, then take the new spread as baseline,
      so that each move zooms relative to the last. */
  function PinchZoom(b: Board, origin: Point, t0: Point, t1: Point, spread: real): (r: Board)
    requires InRange(b.view) && b.pinchDistance > 0.0 && spread > 0.0
    ensures InRange(r.view)
    ensures r.view.scale == Clamp(b.view.scale * (spread / b.pinchDistance))
    ensures ToWorld(r.view, origin, Midpoint(t0, t1)) == ToWorld(b.view, origin, Midpoint(t0, t1))
    ensures r.pinchDistance == spread
    ensures r == b.(view := r.view, pinchDistance := spread)
  {
    b.(view := ZoomAtPoint(b.view, origin, Midpoint(t0, t1), spread / b.pinchDistance),
       pinchDistance := spread)
  }

  /** Whether a move is handled as a pinch step. */
  predicate PinchMove(b: Board, i: Input) {
    TwoTouch(i) && b.pinching
  }

  /** move: a pinch step while pinching under two contacts; otherwise the
      pointer drags the world point under the last pan point along with it
      while panning, or grows the in-progress element while drawing, or
      changes nothing. */
  function Move(b: Board, origin: Point, i: Input): (r: Board)
    requires Valid(b) && WellFormed(i)
    ensures Valid(r)
    ensures r.scene == b.scene && r.tool == b.tool
    ensures r.drawing == b.drawing && r.panning == b.panning && r.pinching == b.pinching
    ensures PinchMove(b, i) ==>
      r == PinchZoom(b, origin, i.contacts[0], i.contacts[1], i.spread)
    ensures !PinchMove(b, i) && b.panning ==>
      && r.view.scale == b.view.scale
      && ToWorld(r.view, origin, Primary(i)) == ToWorld(b.view, origin, b.lastPan)
      && r.lastPan == Primary(i)
      && r.current == b.current
    ensures !PinchMove(b, i) && b.panning ==> r == b.(view := r.view, lastPan := Primary(i))
    ensures !PinchMove(b, i) && !b.panning && b.drawing ==>
      && r.view == b.view
      && r.current.Some?
      && r.current.value == Extend(b.current.value, b.tool, ToWorld(b.view, origin, Primary(i)))
    ensures !PinchMove(b, i) && !b.panning && b.drawing ==> r == b.(current := r.current)
    ensures !PinchMove(b, i) && !b.panning && !b.drawing ==> r == b
  {
    if PinchMove(b, i) then
      PinchZoom(b, origin, i.contacts[0], i.contacts[1], i.spread)
    else if b.panning then
      b.(view := Pan(b.view, b.lastPan, Primary(i)), lastPan := Primary(i))
    else if !b.drawing then
      b
    else
      var at := ToWorld(b.view, origin, Primary(i));
      b.(current := Some(Extend(b.current.value, b.tool, at)))
  }

  /** Whether an end event drops the pinch: a touch event with fewer than
      two contacts left. A mouse event never does. */
  predicate EndsPinch(i: Input) {
    i.Touch? && |i.contacts| < 2
  }

  /** end (mouseup, mouseleave, touchend, touchcancel): stops panning;
      stops drawing and appends the in-progress element to the end of the
      scene exactly when the commit test passes, dropping it either way.
      Earlier scene elements never change, nor does the view. */
  function End(b: Board, i: Input): (r: Board)
    requires Valid(b)
    ensures Valid(r)
    ensures r.view == b.view && r.tool == b.tool
    ensures !r.drawing && !r.panning
    ensures r.pinching == (b.pinching && !EndsPinch(i))
    ensures |r.scene| >= |b.scene| && r.scene[..|b.scene|] == b.scene
    ensures |r.scene| == |b.scene| + 1 <==> b.drawing && Commits(b.current.value, b.tool)
    ensures |r.scene| == |b.scene| + 1 ==> r.scene[|b.scene|] == b.current.value
    ensures |r.scene| <= |b.scene| + 1
    ensures r.current == (if b.drawing then None else b.current)
    ensures r == b.(pinching := r.pinching, panning := false, drawing := false,
                    scene := r.scene, current := r.current)
  {
    var pinching := b.pinching && !EndsPinch(i);
    if b.drawing then
      b.(pinching := pinching, panning := false, drawing := false,
         scene := Commit(b.scene, b.current.value, b.tool), current := None)
    else
      b.(pinching := pinching, panning := false)
  }

  /** handleWheelZoom: zoom about the cursor, out when scrolling down. */
  function WheelZoom(b: Board, origin: Point, cursor: Point, deltaY: real): (r: Board)
    requires Valid(b)
    ensures Valid(r)
    ensures r.view.scale == Clamp(b.view.scale * WheelFactor(deltaY))
    ensures ToWorld(r.view, origin, cursor) == ToWorld(b.view, origin, cursor)
    ensures r == b.(view := r.view)
  {
    b.(view := ZoomAtPoint(b.view, origin, cursor, WheelFactor(deltaY)))
  }

  /** The zoom-in and zoom-out buttons: zoom about the canvas centre. */
  function ZoomButton(b: Board, origin: Point, width: real, height: real, dir: ZoomDirection): (r: Board)
    requires Valid(b)
    ensures Valid(r)
    ensures r.view.scale == Clamp(b.view.scale * ButtonFactor(dir))
    ensures ToWorld(r.view, origin, CanvasCentre(origin, width, height))
         == ToWorld(b.view, origin, CanvasCentre(origin, width, height))
    ensures r == b.(view := r.view)
  {
    b.(view := ButtonZoom(b.view, origin, width, height, dir))
  }

  /** resetView: back to the home view, so that world points are client
      points less the canvas origin again; the scene and gesture are kept. */
  function ResetView(b: Board): (r: Board)
    requires Valid(b)
    ensures Valid(r)
    ensures forall origin, c :: ToWorld(r.view, origin, c) == Sub(c, origin)
    ensures r == b.(view := r.view)
  {
    b.(view := Home)
  }

  /** The clear action: the scene becomes empty; view and gesture are kept. */
  function Clear(b: Board): (r: Board)
    requires Valid(b)
    ensures Valid(r)
    ensures |r.scene| == 0
    ensures r == b.(scene := r.scene)
  {
    b.(scene := [])
  }

  /** setActiveTool, the colour picker and the brush-size input: each writes
      one setting. Colour and brush size only style elements started later;
      the tool also decides how an element already in progress grows and
      whether end commits it. */
  function SetTool(b: Board, tool: Tool): (r: Board)
    requires Valid(b)
    ensures Valid(r)
    ensures r.current == b.current && r.scene == b.scene && r.tool == tool
    ensures r == b.(tool := r.tool)
  {
    b.(tool := tool)
  }

  function SetColor(b: Board, color: string): (r: Board)
    requires Valid(b)
    ensures Valid(r)
    ensures r.current == b.current && r.scene == b.scene && r.color == color
    ensures r == b.(color := r.color)
  {
    b.(color := color)
  }

  function SetBrush(b: Board, width: real): (r: Board)
    requires Valid(b)
    ensures Valid(r)
    ensures r.current == b.current && r.scene == b.scene && r.brush == width
    ensures r == b.(brush := r.brush)
  {
    b.(brush := width)
  }

  /** redrawCanvas's paint order for a board. */
  function Painted(b: Board): seq<Element> {
    Paint(b.scene, b.drawing, b.current)
  }
}
