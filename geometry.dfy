/**
 * Points as the openFrameworks types carry them. Nothing in the modelled
 * code computes with coordinates, so they are reals that are only copied.
 */
module Geometry {

  /** An `ofPoint` (three components). */
  datatype Point = Point(x: real, y: real, z: real)

  /** An `ofVec2f` (two components). */
  datatype Vec2 = Vec2(x: real, y: real)

  /** The point `set(0,0,0)` resets to. */
  const Origin: Point := Point(0.0, 0.0, 0.0)

  /** Converting an `ofPoint` to an `ofVec2f` keeps x and y and drops z. */
  function Project(p: Point): (v: Vec2)
    ensures v.x == p.x && v.y == p.y
  {
    Vec2(p.x, p.y)
  }

  /** Two points project alike exactly when they differ at most in depth. */
  lemma ProjectIgnoresDepth(p: Point, q: Point)
    ensures Project(p) == Project(q) <==> p.x == q.x && p.y == q.y
  {
  }
}
