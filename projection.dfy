/** project3DTo2D (script.js:404-407): the fixed oblique projection
    `(x, y, z) ↦ ((x − y)·0.866, (x + y)·0.5 − z)` of the 3D view. */
module Projection {

  datatype Point2 = Point2(x: real, y: real)

  /** The `scale` constant, cos 30° to three decimals. */
  const Cos30: real := 0.866

  /** The horizontal offset vanishes exactly on the plane x = y, and the
      vertical offset exactly where the height z equals the mean of x and y. */
  function Project(x: real, y: real, z: real): (p: Point2)
    ensures p.x == 0.0 <==> x == y
    ensures p.y == 0.0 <==> z * 2.0 == x + y
  {
    Point2((x - y) * Cos30, (x + y) * 0.5 - z)
  }

  function Plus(p: Point2, q: Point2): (r: Point2)
  {
    Point2(p.x + q.x, p.y + q.y)
  }

  function Times(k: real, p: Point2): (r: Point2)
  {
    Point2(k * p.x, k * p.y)
  }

  /** The origin projects to the origin. */
  lemma ProjectOrigin()
    ensures Project(0.0, 0.0, 0.0) == Point2(0.0, 0.0)
  {
  }

  /** Scaling the point scales its projection. */
  lemma ProjectHomogeneous(k: real, x: real, y: real, z: real)
    ensures Project(k * x, k * y, k * z) == Times(k, Project(x, y, z))
  {
    assert (k * x - k * y) * Cos30 == k * ((x - y) * Cos30);
    assert (k * x + k * y) * 0.5 - k * z == k * ((x + y) * 0.5 - z);
  }

  /** The projection of a sum is the sum of the projections. */
  lemma ProjectAdditive(x1: real, y1: real, z1: real, x2: real, y2: real, z2: real)
    ensures Project(x1 + x2, y1 + y2, z1 + z2) == Plus(Project(x1, y1, z1), Project(x2, y2, z2))
  {
  }

  /** The points that project onto the origin are exactly those on the line
      x = y = z (the viewing direction). */
  lemma ProjectKernel(x: real, y: real, z: real)
    ensures Project(x, y, z) == Point2(0.0, 0.0) <==> x == y == z
  {
    if Project(x, y, z) == Point2(0.0, 0.0) {
      assert (x - y) * 0.866 == 0.0;
    }
  }
}
