/**
 Sequences of whiteboard events, as the page's listeners deliver them to the
 handlers one at a time, and the properties that only show over several
 steps: the invariant of every reachable state (in particular the clamp on
 the scale), the append-only scene, pan telescoping, pinch tracking, the
 abandoned element of a pinch, and three worked scenarios: a rectangle
 drag, a reset from a panned view and a two-finger pinch.
 */
module Session {
  import opened Wrappers
  import opened Geometry
  import opened View
  import opened Scene
  import opened Gesture

  /** The canvas's client-space offset and size, as a listener reads them
      when it fires; they change between events on resize or scroll. */
  datatype Canvas = Canvas(origin: Point, width: real, height: real)

  /** One listener invocation. */
  datatype Event =
    | Down(input: Input)
    | Moved(input: Input)
    | Up(input: Input)
    | Wheel(cursor: Point, deltaY: real)
    | ZoomButtonPressed(dir: ZoomDirection)
    | ResetPressed
    | ClearPressed
    | ToolPicked(tool: Tool)
    | ColorPicked(color: string)
    | BrushPicked(width: real)

  predicate EventOk(e: Event) {
    (e.Down? || e.Moved?) ==> WellFormed(e.input)
  }

  /** One listener invocation together with the canvas geometry it sees. */
  datatype Step = Step(event: Event, canvas: Canvas)

  predicate AllOk(steps: seq<Step>) {
    forall k :: 0 <= k < |steps| ==> EventOk(steps[k].event)
  }

  function Dispatch(b: Board, c: Canvas, e: Event): (r: Board)
    requires Valid(b) && EventOk(e)
    ensures Valid(r)
    ensures !e.ClearPressed? ==> |r.scene| >= |b.scene| && r.scene[..|b.scene|] == b.scene
  {
    match e
    case Down(i) => Start(b, c.origin, i)
    case Moved(i) => Move(b, c.origin, i)
    case Up(i) => End(b, i)
    case Wheel(cursor, deltaY) => WheelZoom(b, c.origin, cursor, deltaY)
    case ZoomButtonPressed(dir) => ZoomButton(b, c.origin, c.width, c.height, dir)
    case ResetPressed => ResetView(b)
    case ClearPressed => Clear(b)
    case ToolPicked(t) => SetTool(b, t)
    case ColorPicked(col) => SetColor(b, col)
    case BrushPicked(w) => SetBrush(b, w)
  }

  /** The board after handling `steps` in order. Every state it passes
      through is Valid: the scale stays within [0.1, 20] whatever zooms
      happen. */
  function Run(b: Board, steps: seq<Step>): (r: Board)
    requires Valid(b) && AllOk(steps)
    ensures Valid(r)
    ensures InRange(r.view)
    decreases |steps|
  {
    if |steps| == 0 then b
    else Run(Dispatch(b, steps[0].canvas, steps[0].event), steps[1..])
  }

  lemma {:induction false} RunUnfold(b: Board, s: Step, rest: seq<Step>)
    requires Valid(b) && EventOk(s.event) && AllOk(rest)
    ensures AllOk([s] + rest)
    ensures Run(b, [s] + rest) == Run(Dispatch(b, s.canvas, s.event), rest)
  {
    assert ([s] + rest)[0] == s;
    assert ([s] + rest)[1..] == rest;
  }

  /** The scene is append-only between clears: without a clear, the scene
      before a run is a prefix of the scene after it. */
  lemma {:induction false} AppendOnly(b: Board, steps: seq<Step>)
    requires Valid(b) && AllOk(steps)
    requires forall k :: 0 <= k < |steps| ==> !steps[k].event.ClearPressed?
    ensures |Run(b, steps).scene| >= |b.scene|
    ensures Run(b, steps).scene[..|b.scene|] == b.scene
    decreases |steps|
  {
    if |steps| > 0 {
      var b1 := Dispatch(b, steps[0].canvas, steps[0].event);
      AppendOnly(b1, steps[1..]);
      var r := Run(b1, steps[1..]);
      assert r.scene[..|b1.scene|] == b1.scene;
      assert r.scene[..|b.scene|] == r.scene[..|b1.scene|][..|b.scene|];
    }
  }

  /** Pointer moves, each with the canvas geometry its listener reads. */
  function Moves(ins: seq<Input>, cs: seq<Canvas>): (steps: seq<Step>)
    requires |cs| == |ins|
    ensures |steps| == |ins|
    ensures forall k :: 0 <= k < |ins| ==> steps[k] == Step(Moved(ins[k]), cs[k])
  {
    if |ins| == 0 then [] else [Step(Moved(ins[0]), cs[0])] + Moves(ins[1..], cs[1..])
  }

  /** Pan telescoping: a panning gesture's moves add up to a single pan from
      the point where it was last anchored to the final pointer position, and
      the world point under that anchor ends under the final position. */
  lemma {:induction false} PanTelescopes(b: Board, cs: seq<Canvas>, ins: seq<Input>)
    requires Valid(b) && b.panning && |ins| > 0 && |cs| == |ins|
    requires forall k :: 0 <= k < |ins| ==> WellFormed(ins[k]) && !TwoTouch(ins[k])
    ensures AllOk(Moves(ins, cs))
    ensures Run(b, Moves(ins, cs)).view == Pan(b.view, b.lastPan, Primary(ins[|ins| - 1]))
    ensures Run(b, Moves(ins, cs)).lastPan == Primary(ins[|ins| - 1])
    ensures forall origin :: ToWorld(Run(b, Moves(ins, cs)).view, origin, Primary(ins[|ins| - 1]))
                          == ToWorld(b.view, origin, b.lastPan)
    decreases |ins|
  {
    var p0 := Primary(ins[0]);
    var b1 := Move(b, cs[0].origin, ins[0]);
    assert b1.view == Pan(b.view, b.lastPan, p0) && b1.lastPan == p0 && b1.panning;
    assert Moves(ins, cs) == [Step(Moved(ins[0]), cs[0])] + Moves(ins[1..], cs[1..]);
    RunUnfold(b, Step(Moved(ins[0]), cs[0]), Moves(ins[1..], cs[1..]));
    if |ins| > 1 {
      PanTelescopes(b1, cs[1..], ins[1..]);
      assert ins[1..][|ins[1..]| - 1] == ins[|ins| - 1];
      PanComposes(b.view, b.lastPan, p0, Primary(ins[|ins| - 1]));
    } else {
      assert Moves(ins[1..], cs[1..]) == [];
    }
  }

  /** Two-contact touch moves, as seen by a pinch. */
  predicate PinchInputs(ins: seq<Input>) {
    forall k :: 0 <= k < |ins| ==> TwoTouch(ins[k]) && ins[k].spread > 0.0
  }

  /** Every touch spread in `ins`, times `ratio`, is a scale the clamp
      leaves alone. */
  predicate StaysUnclamped(ins: seq<Input>, ratio: real) {
    forall i :: i in ins && i.Touch? ==> ScaleInRange(ratio * i.spread)
  }

  /** The scale is `ratio` times the pinch baseline. */
  predicate KeepsRatio(b: Board, ratio: real) {
    b.view.scale == ratio * b.pinchDistance
  }

  /** Each pinch step zooms relative to the previous spread, yet as long as
      the clamp never bites the ratio of scale to spread stays what it was:
      the scale follows the spread of the contacts, not the number of moves
      it took to get there. */
  lemma {:induction false} PinchTracksSpread(b: Board, cs: seq<Canvas>, ins: seq<Input>, ratio: real)
    requires Valid(b) && b.pinching && |ins| > 0 && |cs| == |ins| && PinchInputs(ins)
    requires KeepsRatio(b, ratio)
    requires forall i :: i in ins ==> ScaleInRange(ratio * i.spread)
    ensures AllOk(Moves(ins, cs))
    ensures Run(b, Moves(ins, cs)).pinchDistance == ins[|ins| - 1].spread
    ensures KeepsRatio(Run(b, Moves(ins, cs)), ratio)
    decreases |ins|
  {
    assert AllOk(Moves(ins, cs));
    var rest := ins[1..];
    assert ins[0] in ins;
    var b1 := PinchStep(b, cs[0], ins[0], ratio);
    assert Moves(ins, cs) == [Step(Moved(ins[0]), cs[0])] + Moves(rest, cs[1..]);
    RunUnfold(b, Step(Moved(ins[0]), cs[0]), Moves(rest, cs[1..]));
    assert Run(b, Moves(ins, cs)) == Run(b1, Moves(rest, cs[1..]));
    if |rest| > 0 {
      PinchTracksSpread(b1, cs[1..], rest, ratio);
      assert rest[|rest| - 1] == ins[|ins| - 1];
    } else {
      assert Moves(rest, cs[1..]) == [];
    }
  }

  /** One pinch step that stays clear of the clamp keeps scale/spread. */
  lemma PinchStep(b: Board, c: Canvas, i: Input, ratio: real) returns (b1: Board)
    requires Valid(b) && b.pinching && TwoTouch(i) && i.spread > 0.0
    requires KeepsRatio(b, ratio)
    requires ScaleInRange(ratio * i.spread)
    ensures WellFormed(i)
    ensures b1 == Dispatch(b, c, Moved(i))
    ensures Valid(b1) && b1.pinching
    ensures KeepsRatio(b1, ratio) && b1.pinchDistance == i.spread
  {
    b1 := Move(b, c.origin, i);
    calc {
      b.view.scale * (i.spread / b.pinchDistance);
      (ratio * b.pinchDistance) * (i.spread / b.pinchDistance);
      ratio * (b.pinchDistance * (i.spread / b.pinchDistance));
      ratio * i.spread;
    }
  }

  /** Two boards whose scale-to-pinch-baseline ratios agree. */
  predicate SameRatio(r: Board, b: Board) {
    r.view.scale * b.pinchDistance == b.view.scale * r.pinchDistance
  }

  /** A pinch that never reaches the clamp ends at the scale it started
      with times the ratio of the final spread to the initial spread. */
  lemma PinchFollowsSpread(b: Board, cs: seq<Canvas>, ins: seq<Input>)
    requires Valid(b) && b.pinching && |ins| > 0 && |cs| == |ins| && PinchInputs(ins)
    requires StaysUnclamped(ins, b.view.scale / b.pinchDistance)
    ensures AllOk(Moves(ins, cs))
    ensures Run(b, Moves(ins, cs)).pinchDistance == ins[|ins| - 1].spread
    ensures SameRatio(Run(b, Moves(ins, cs)), b)
  {
    PinchFollowsRatio(b, cs, ins, b.view.scale / b.pinchDistance);
  }

  /** Proof helper for PinchFollowsSpread, with the initial
      scale-to-baseline ratio passed as a parameter so that the solver
      matches it syntactically. */
  lemma PinchFollowsRatio(b: Board, cs: seq<Canvas>, ins: seq<Input>, ratio: real)
    requires Valid(b) && b.pinching && |ins| > 0 && |cs| == |ins| && PinchInputs(ins)
    requires ratio == b.view.scale / b.pinchDistance
    requires StaysUnclamped(ins, ratio)
    ensures AllOk(Moves(ins, cs))
    ensures Run(b, Moves(ins, cs)).pinchDistance == ins[|ins| - 1].spread
    ensures SameRatio(Run(b, Moves(ins, cs)), b)
  {
    QuotientRatio(b, ratio);
    PinchTracksSpread(b, cs, ins, ratio);
    CrossMultiply(Run(b, Moves(ins, cs)), b, ratio);
  }

  lemma QuotientRatio(b: Board, ratio: real)
    requires b.pinchDistance > 0.0 && ratio == b.view.scale / b.pinchDistance
    ensures KeepsRatio(b, ratio)
  {
  }

  lemma CrossMultiply(r: Board, b: Board, ratio: real)
    requires b.pinchDistance > 0.0 && ratio == b.view.scale / b.pinchDistance
    requires KeepsRatio(r, ratio)
    ensures SameRatio(r, b)
  {
    calc {
      r.view.scale * b.pinchDistance;
      (ratio * r.pinchDistance) * b.pinchDistance;
      (ratio * b.pinchDistance) * r.pinchDistance;
      b.view.scale * r.pinchDistance;
    }
  }

  /** An element abandoned by a pinch is never committed: a two-contact
      touch start followed by any end leaves the scene as it was, and
      nothing is painted beyond it. */
  lemma PinchAbandons(b: Board, origin: Point, two: Input, i: Input)
    requires Valid(b) && WellFormed(two) && TwoTouch(two)
    ensures End(Start(b, origin, two), i).scene == b.scene
    ensures Painted(End(Start(b, origin, two), i)) == b.scene
  {
  }

  /** After a clear, redraw paints nothing but the in-progress element, and
      only while drawing. */
  lemma ClearPaintsOnlyCurrent(b: Board)
    requires Valid(b)
    ensures Painted(Clear(b)) == (if b.drawing then [b.current.value] else [])
  {
  }

  /** After a gesture ends, redraw paints exactly the scene. */
  lemma EndPaintsScene(b: Board, i: Input)
    requires Valid(b)
    ensures Painted(End(b, i)) == End(b, i).scene
  {
  }

  /** A shape tap (start and end with no move) is discarded; so is a
      freehand tap, whose stroke has a single point. */
  lemma TapDiscarded(b: Board, origin: Point, i: Input, j: Input)
    requires Valid(b) && WellFormed(i) && !TwoTouch(i) && b.tool != Drag
    ensures End(Start(b, origin, i), j).scene == b.scene
  {
    var s := Start(b, origin, i);
    assert s.current.value.points[0] == s.current.value.points[|s.current.value.points| - 1];
  }

  /** A shape drag from one point to a different one commits exactly one
      element of the current tool's kind, colour and brush size, spanning
      the world points under the two pointer positions. */
  lemma ShapeDragCommits(b: Board, origin: Point, i: Input, j: Input, k: Input)
    requires Valid(b) && !b.panning && b.tool != Drag && b.tool != Draw
    requires WellFormed(i) && !TwoTouch(i) && WellFormed(j) && !TwoTouch(j)
    requires Primary(i) != Primary(j)
    ensures End(Move(Start(b, origin, i), origin, j), k).scene
         == b.scene + [Element(b.tool, b.color, b.brush,
                               [ToWorld(b.view, origin, Primary(i)), ToWorld(b.view, origin, Primary(j))])]
  {
    var s := Start(b, origin, i);
    var m := Move(s, origin, j);
    var p := ToWorld(b.view, origin, Primary(i));
    var q := ToWorld(b.view, origin, Primary(j));
    assert s.current.value.points == [p, p];
    assert m.current.value.points == [p, q];
    assert ToScreen(b.view, origin, p) == Primary(i);
    assert ToScreen(b.view, origin, q) == Primary(j);
    assert p != q;
    assert m.current.value == Element(b.tool, b.color, b.brush, [p, q]);
    var r := End(m, k);
    LastSplit(r.scene, |b.scene|);
  }

  /** The rectangle scenario: with the home view and the canvas at the
      client origin, dragging the rectangle tool from (10,10) to (50,50)
      commits exactly the rectangle with those corners, in the current
      colour and brush size. */
  lemma RectangleScenario(b: Board, o: Point, p: Point, q: Point)
    requires Valid(b) && !b.panning && b.view == Home && b.tool == Rectangle
    requires o == Point(0.0, 0.0) && p == Point(10.0, 10.0) && q == Point(50.0, 50.0)
    ensures End(Move(Start(b, o, Mouse(p)), o, Mouse(q)), Mouse(q)).scene
         == b.scene + [Element(Rectangle, b.color, b.brush, [p, q])]
  {
    HomeDragCommits(b, o, p, q);
  }

  /** With the home view and the canvas at the client origin, a shape drag
      between two different client points commits the element with exactly
      those points as its corners. */
  lemma HomeDragCommits(b: Board, o: Point, p: Point, q: Point)
    requires Valid(b) && !b.panning && b.view == Home && b.tool != Drag && b.tool != Draw
    requires o == Point(0.0, 0.0) && p != q
    ensures End(Move(Start(b, o, Mouse(p)), o, Mouse(q)), Mouse(q)).scene
         == b.scene + [Element(b.tool, b.color, b.brush, [p, q])]
  {
    OriginHomeIsIdentity(o, p);
    OriginHomeIsIdentity(o, q);
    ShapeDragCommits(b, o, Mouse(p), Mouse(q), Mouse(q));
  }

  /** Proof helper: HomeIsIdentity at the client origin, stated as the
      identity so that the drag lemmas can use it directly. */
  lemma OriginHomeIsIdentity(o: Point, c: Point)
    requires o == Point(0.0, 0.0)
    ensures ToWorld(Home, o, c) == c
  {
    HomeIsIdentity(o, c);
  }

  lemma LastSplit<T>(s: seq<T>, n: nat)
    requires |s| == n + 1
    ensures s == s[..n] + [s[n]]
  {
  }

  /** The reset scenario: from scale 4.2 and pan (120, -40) the reset action
      yields exactly the home view. */
  lemma ResetScenario(b: Board)
    requires Valid(b) && b.view == ViewState(4.2, 120.0, -40.0)
    ensures ResetView(b).view == ViewState(1.0, 0.0, 0.0)
    ensures ResetView(b).scene == b.scene
  {
  }

  /** The pinch scenario: a spread growing from 100 to 200 about midpoint
      (300, 300) at scale 1 doubles the scale and keeps the world point
      under (300, 300) where it was. */
  lemma PinchScenario(b: Board, origin: Point)
    requires Valid(b) && b.pinching && b.pinchDistance == 100.0 && b.view.scale == 1.0
    ensures var r := Move(b, origin, Touch([Point(300.0, 200.0), Point(300.0, 400.0)], 200.0));
      && r.view.scale == 2.0
      && ToWorld(r.view, origin, Point(300.0, 300.0)) == ToWorld(b.view, origin, Point(300.0, 300.0))
  {
    assert Midpoint(Point(300.0, 200.0), Point(300.0, 400.0)) == Point(300.0, 300.0);
  }
}
