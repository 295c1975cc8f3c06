/**
 Points of the whiteboard, in screen (client pixel) space or in world space,
 and the one geometric helper the gesture engine computes itself: the
 midpoint of two touch contacts, used as the anchor of a pinch zoom.

 The Euclidean distance between two contacts needs a square root; it is
 supplied by the host as a positive real and is not computed here.
 */
module Geometry {

  /** A pair of coordinates; the same type serves screen and world points. */
  datatype Point = Point(x: real, y: real)

  /** Component-wise difference `a - b`. */
  function Sub(a: Point, b: Point): Point {
    Point(a.x - b.x, a.y - b.y)
  }

  /** Midpoint of two touch contacts (getMidpoint): it is equally far from
      both contacts along each axis, and lies between them. */
  function Midpoint(a: Point, b: Point): (m: Point)
    ensures m.x - a.x == b.x - m.x && m.y - a.y == b.y - m.y
    ensures a.x <= b.x ==> a.x <= m.x <= b.x
    ensures a.y <= b.y ==> a.y <= m.y <= b.y
  {
    Point((a.x + b.x) / 2.0, (a.y + b.y) / 2.0)
  }
}
