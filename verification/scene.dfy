/**
 The scene model of the whiteboard: the tools, the elements they draw, the
 rules by which an in-progress element grows during a gesture, the rule that
 decides whether a finished gesture is committed, and the order in which
 redrawCanvas paints.
 */
module Scene {
  import opened Wrappers
  import opened Geometry

  /** The values currentTool takes: 'drag' pans, the rest draw. */
  datatype Tool = Drag | Draw | Rectangle | Circle | Triangle | Trapezium | Line

  /** A drawable element; `kind` is the tool that was current when the
      gesture started, `points` are world points. */
  datatype Element = Element(kind: Tool, color: string, width: real, points: seq<Point>)

  /** What every element in the scene satisfies: it was drawn by a drawing
      tool and has at least two points. */
  predicate Committed(e: Element) {
    e.kind != Drag && |e.points| >= 2
  }

  /** The element a gesture start creates at world point `at`: freehand
      strokes start with one point, shapes with anchor and live endpoint
      both at `at`. */
  function NewElement(tool: Tool, color: string, width: real, at: Point): (e: Element)
    requires tool != Drag
    ensures e.kind == tool && e.color == color && e.width == width
    ensures |e.points| == (if tool == Draw then 1 else 2)
    ensures forall k :: 0 <= k < |e.points| ==> e.points[k] == at
  {
    Element(tool, color, width, if tool == Draw then [at] else [at, at])
  }

  /** A drawing move with `tool` current: freehand appends the new point,
      every other tool writes it over points[1] (JavaScript extends a
      one-point array by that write). Style and kind never change. */
  function Extend(e: Element, tool: Tool, p: Point): (r: Element)
    requires |e.points| >= 1
    ensures r.kind == e.kind && r.color == e.color && r.width == e.width
    ensures tool == Draw ==>
      |r.points| == |e.points| + 1 && r.points[..|e.points|] == e.points && r.points[|e.points|] == p
    ensures tool != Draw ==>
      && |r.points| == (if |e.points| < 2 then 2 else |e.points|)
      && r.points[0] == e.points[0] && r.points[1] == p
      && (|e.points| >= 2 ==> r.points[2..] == e.points[2..])
  {
    if tool == Draw then e.(points := e.points + [p])
    else if |e.points| == 1 then e.(points := e.points + [p])
    else e.(points := e.points[1 := p])
  }

  /** The commit test of end: more than one point, and either the freehand
      tool is current or the first two points differ in some coordinate. */
  predicate Commits(e: Element, tool: Tool)
    ensures Commits(e, tool) && e.kind != Drag ==> Committed(e)
    ensures |e.points| == 2 && e.points[0] == e.points[1] ==> (Commits(e, tool) <==> tool == Draw)
  {
    |e.points| > 1 && (tool == Draw || e.points[0] != e.points[1])
  }

  /** The scene after a drawing gesture ends with element `e`. */
  function Commit(scene: seq<Element>, e: Element, tool: Tool): (r: seq<Element>)
    ensures Commits(e, tool) ==> r == scene + [e]
    ensures !Commits(e, tool) ==> r == scene
  {
    if Commits(e, tool) then scene + [e] else scene
  }

  /** The elements redrawCanvas hands to drawElement, in order: the scene
      first, then the in-progress element while a drawing gesture is active. */
  function Paint(scene: seq<Element>, drawing: bool, current: Option<Element>): (r: seq<Element>)
    ensures |r| == |scene| + (if drawing && current.Some? then 1 else 0)
    ensures r[..|scene|] == scene
    ensures |r| > |scene| ==> r[|scene|] == current.value
  {
    if drawing && current.Some? then scene + [current.value] else scene
  }
}
