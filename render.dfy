/** The loop and index structure of drawPolarPattern (script.js:304-332) and
    draw3DPattern (script.js:335-377), with the geometry of canvasGeometry
    (script.js:231-236). The canvas calls themselves are not modelled: the
    methods return the vertices and quads, in the order the script draws them.
    The cosines and sines of the sample angles are inputs. */
module Render {
  import opened Numeric
  import opened Projection
  import opened ColorMap

  /** Centre and largest radius of a panel. */
  datatype Geometry = Geometry(centerX: real, centerY: real, maxRadius: real)

  /** `centre = (w/2, h/2)`, `maxRadius = min(centre) − margin`, with margin
      20 for the polar panels (script.js:234) and 40 for the 3D panel
      (script.js:336-338): the circle of
      radius `maxRadius + margin` fits the canvas and touches its shorter side. */
  function CanvasGeometry(width: real, height: real, margin: real): (g: Geometry)
    ensures g.centerX * 2.0 == width && g.centerY * 2.0 == height
    ensures g.maxRadius + margin <= g.centerX && g.maxRadius + margin <= g.centerY
    ensures g.maxRadius + margin == g.centerX || g.maxRadius + margin == g.centerY
  {
    var cx := width / 2.0;
    var cy := height / 2.0;
    Geometry(cx, cy, Min(cx, cy) - margin)
  }

  /** `patternData[angle] ?? 0`: a missing sample reads as 0, so a lookup
      in a cut of values in [0,1] gives a value in [0,1]. */
  function Lookup(cut: seq<real>, k: int): (v: real)
    ensures !(0 <= k < |cut|) ==> v == 0.0
    ensures (forall i :: 0 <= i < |cut| ==> 0.0 <= cut[i] <= 1.0) ==> 0.0 <= v <= 1.0
  {
    if 0 <= k < |cut| then cut[k] else 0.0
  }

  // ------------------------------------------------------------- polar plot

  datatype PathOp = MoveTo | LineTo

  /** One vertex of the closed outline: how it is drawn, its angle in
      degrees, its radius and its canvas position. */
  datatype Vertex = Vertex(op: PathOp, angle: int, radius: real, at: Point2)

  /** `maxRadius · clamp01(value)`, the radius of an outline vertex
      (script.js:319): within `maxRadius`, and the sample itself scaled when it
      is already in [0,1]. */
  function OutlineRadius(maxRadius: real, value: real): (r: real)
    ensures maxRadius >= 0.0 ==> 0.0 <= r <= maxRadius
    ensures 0.0 <= value <= 1.0 ==> r == maxRadius * value
  {
    var c := Clamp01(value);
    assert maxRadius >= 0.0 ==> 0.0 <= maxRadius * c <= maxRadius by {
      if maxRadius >= 0.0 { MulFraction(maxRadius, c); }
    }
    maxRadius * c
  }

  /** The vertex at `angle` degrees (script.js:317-326); `cosDeg[angle]` and
      `sinDeg[angle]` are the cosine and sine of that angle. */
  function OutlineVertex(cut: seq<real>, g: Geometry, cosDeg: seq<real>, sinDeg: seq<real>, angle: int): (v: Vertex)
    requires 0 <= angle < |cosDeg| && |cosDeg| == |sinDeg|
    ensures v.angle == angle && (v.op == MoveTo <==> angle == 0)
    ensures g.maxRadius >= 0.0 ==> 0.0 <= v.radius <= g.maxRadius
    ensures 0.0 <= Lookup(cut, angle) <= 1.0 ==> v.radius == g.maxRadius * Lookup(cut, angle)
  {
    var radius := OutlineRadius(g.maxRadius, Lookup(cut, angle));
    var at := Point2(g.centerX + radius * cosDeg[angle], g.centerY + radius * sinDeg[angle]);
    Vertex(if angle == 0 then MoveTo else LineTo, angle, radius, at)
  }

  /** The outline loop `for (angle = 0; angle <= 360; angle += 2)`
      (script.js:315-328): 181 vertices at 0°, 2°, …, 360°, the first a
      move and the rest lines, each within `maxRadius` of the centre. */
  method PolarOutline(cut: seq<real>, g: Geometry, cosDeg: seq<real>, sinDeg: seq<real>)
    returns (path: seq<Vertex>)
    requires |cosDeg| == 361 && |sinDeg| == 361
    ensures |path| == 181
    ensures forall k :: 0 <= k < 181 ==> path[k] == OutlineVertex(cut, g, cosDeg, sinDeg, 2 * k)
    ensures forall k :: 0 <= k < 181 ==> path[k].angle == 2 * k
    ensures forall k :: 0 <= k < 181 ==> (path[k].op == MoveTo <==> k == 0)
    ensures g.maxRadius >= 0.0 ==> forall k :: 0 <= k < 181 ==> 0.0 <= path[k].radius <= g.maxRadius
  {
    path := [];
    var angle := 0;
    while angle <= 360
      invariant 0 <= angle <= 362 && angle % 2 == 0
      invariant |path| == angle / 2
      invariant forall k :: 0 <= k < |path| ==> path[k] == OutlineVertex(cut, g, cosDeg, sinDeg, 2 * k)
    {
      path := path + [OutlineVertex(cut, g, cosDeg, sinDeg, angle)];
      angle := angle + 2;
    }
  }

  // --------------------------------------------------------------- 3D mesh

  /** `thetaSteps` and `phiSteps` (script.js:341-342). */
  const ThetaSteps: int := 36
  const PhiSteps: int := 18

  /** The cosines and sines of `theta = i/36·2π` (i = 0..36) and of
      `phi = j/18·π` (j = 0..18). */
  datatype MeshTrig = MeshTrig(cosTheta: seq<real>, sinTheta: seq<real>, cosPhi: seq<real>, sinPhi: seq<real>)

  predicate MeshTrigShaped(t: MeshTrig)
  {
    |t.cosTheta| == ThetaSteps + 1 && |t.sinTheta| == ThetaSteps + 1 &&
    |t.cosPhi| == PhiSteps + 1 && |t.sinPhi| == PhiSteps + 1
  }

  /** `theta = (i / thetaSteps)·2π` (script.js:344-345): column 0 is at 0
      and column 36 a full turn round. */
  function MeshTheta(i: int): (t: real)
    ensures i == 0 ==> t == 0.0
    ensures i == ThetaSteps ==> t == 2.0 * Pi
  {
    (i as real / ThetaSteps as real) * 2.0 * Pi
  }

  /** `Math.round((theta·180/π) % 360)`, the azimuth sample read for column
      `i` (script.js:349-350). It reduces to `10·i mod 360`: it always lies
      in [0,359], and the closing column 36 reads sample 0 again. */
  function DegreeIndex(i: int): (d: int)
    requires 0 <= i <= ThetaSteps
    ensures d == (10 * i) % 360
    ensures 0 <= d < 360
  {
    var deg := MeshTheta(i) * 180.0 / Pi;
    assert deg == (10 * i) as real;
    var q := deg / 360.0;
    assert JsRem(deg, 360.0) == ((10 * i) % 360) as real by {
      if i < ThetaSteps {
        assert 0.0 <= q < 1.0;
        assert Trunc(q) == 0;
      } else {
        assert q == 1.0;
        assert Trunc(q) == 1;
      }
    }
    Round(JsRem(deg, 360.0))
  }

  /** One quad of the mesh, as the script builds and fills it. */
  datatype Quad = Quad(i: int, j: int, degT: int, degT2: int, path: seq<Point2>, intensity: real, fill: Rgba)

  /** `(centerX + p.x, centerY − p.y)`: a projected point on the canvas,
      whose y axis points down; the projected point is its offset from the
      centre, with y flipped. */
  function OnCanvas(g: Geometry, p: Point2): (q: Point2)
    ensures q.x - g.centerX == p.x && g.centerY - q.y == p.y
  {
    Point2(g.centerX + p.x, g.centerY - p.y)
  }

  /** A corner of a quad: the point at radius `r` in the direction given by
      the cosines and sines, projected and placed on the canvas. A corner of
      radius 0 is the centre. */
  function Corner(g: Geometry, r: real, cosTheta: real, sinTheta: real, cosPhi: real): (p: Point2)
    ensures r == 0.0 ==> p == Point2(g.centerX, g.centerY)
  {
    var x, y, z := r * cosTheta, r * sinTheta, r * cosPhi;
    assert r == 0.0 ==> Project(x, y, z) == Point2(0.0, 0.0) by {
      if r == 0.0 {
        assert x == 0.0 && y == 0.0 && z == 0.0;
        ProjectOrigin();
      }
    }
    OnCanvas(g, Project(x, y, z))
  }

  /** `maxRadius · v · e`, the radius of a corner (script.js:355-358): 0 on a
      pole row, where `e = sin φ` vanishes. */
  function CornerRadius(g: Geometry, v: real, e: real): (r: real)
    ensures e == 0.0 ==> r == 0.0
  {
    g.maxRadius * v * e
  }

  /** `clamp01((v1 + v2)/2) · clamp01((e1 + e2)/2)`, the shading intensity of
      a quad (script.js:369): always in [0,1]. */
  function QuadIntensity(v1: real, v2: real, e1: real, e2: real): (x: real)
    ensures 0.0 <= x <= 1.0
  {
    var c1 := Clamp01((v1 + v2) / 2.0);
    var c2 := Clamp01((e1 + e2) / 2.0);
    MulFraction(c1, c2);
    c1 * c2
  }

  /** The quad of cell (i, j) (script.js:344-374): the azimuth samples at the
      two column angles, scaled by the sines of the two row angles, turned
      into four projected corners drawn p1, p2, p4, p3, and filled with the
      colour of the clamped mean intensity. */
  function MeshQuad(az: seq<real>, t: MeshTrig, g: Geometry, i: int, j: int): (q: Quad)
    requires MeshTrigShaped(t)
    requires 0 <= i < ThetaSteps && 0 <= j < PhiSteps
    ensures q.i == i && q.j == j
    ensures q.degT == (10 * i) % 360 && q.degT2 == (10 * (i + 1)) % 360
    ensures 0 <= q.degT < 360 && 0 <= q.degT2 < 360
    ensures i == ThetaSteps - 1 ==> q.degT2 == 0
    ensures |q.path| == 4
    ensures 0.0 <= q.intensity <= 1.0 && IsByteColor(q.fill)
    ensures t.sinPhi[j] == 0.0 ==> q.path[0] == q.path[1] == Point2(g.centerX, g.centerY)
  {
    var degT := DegreeIndex(i);
    var degT2 := DegreeIndex(i + 1);
    var v1 := Lookup(az, degT);
    var v2 := Lookup(az, degT2);
    var e1 := t.sinPhi[j];
    var e2 := t.sinPhi[j + 1];
    var p1 := Corner(g, CornerRadius(g, v1, e1), t.cosTheta[i], t.sinTheta[i], t.cosPhi[j]);
    var p2 := Corner(g, CornerRadius(g, v2, e1), t.cosTheta[i + 1], t.sinTheta[i + 1], t.cosPhi[j]);
    var p3 := Corner(g, CornerRadius(g, v1, e2), t.cosTheta[i], t.sinTheta[i], t.cosPhi[j + 1]);
    var p4 := Corner(g, CornerRadius(g, v2, e2), t.cosTheta[i + 1], t.sinTheta[i + 1], t.cosPhi[j + 1]);
    var intensity := QuadIntensity(v1, v2, e1, e2);
    Quad(i, j, degT, degT2, [p1, p2, p4, p3], intensity, ColorForIntensity(intensity))
  }

  /** The nested loops of draw3DPattern (script.js:343-376): 36 × 18 = 648
      quads, column `i` outer and row `j` inner, so the quad of cell (i, j)
      is drawn `18·i + j`-th, with no depth sorting. */
  method Mesh(az: seq<real>, t: MeshTrig, g: Geometry) returns (quads: seq<Quad>)
    requires MeshTrigShaped(t)
    ensures |quads| == ThetaSteps * PhiSteps == 648
    ensures forall k :: 0 <= k < |quads| ==> quads[k] == MeshQuad(az, t, g, k / PhiSteps, k % PhiSteps)
  {
    quads := [];
    var i := 0;
    while i < ThetaSteps
      invariant 0 <= i <= ThetaSteps
      invariant |quads| == PhiSteps * i
      invariant forall k :: 0 <= k < |quads| ==> quads[k] == MeshQuad(az, t, g, k / PhiSteps, k % PhiSteps)
    {
      var column := MeshColumn(az, t, g, i);
      ghost var before := quads;
      quads := quads + column;
      forall k | PhiSteps * i <= k < |quads|
        ensures quads[k] == MeshQuad(az, t, g, k / PhiSteps, k % PhiSteps)
      {
        var j := k - PhiSteps * i;
        assert k / PhiSteps == i && k % PhiSteps == j;
        assert quads[k] == column[j];
      }
      assert forall k :: 0 <= k < |before| ==> quads[k] == before[k];
      i := i + 1;
    }
  }

  /** The inner loop of draw3DPattern (script.js:346-375): the 18 quads of
      column `i`, row by row. */
  method MeshColumn(az: seq<real>, t: MeshTrig, g: Geometry, i: int) returns (column: seq<Quad>)
    requires MeshTrigShaped(t) && 0 <= i < ThetaSteps
    ensures |column| == PhiSteps
    ensures forall j :: 0 <= j < PhiSteps ==> column[j] == MeshQuad(az, t, g, i, j)
  {
    column := [];
    var j := 0;
    while j < PhiSteps
      invariant 0 <= j <= PhiSteps && |column| == j
      invariant forall r :: 0 <= r < j ==> column[r] == MeshQuad(az, t, g, i, r)
    {
      column := column + [MeshQuad(az, t, g, i, j)];
      j := j + 1;
    }
  }

  /** The quad of cell (i, j) is the `18·i + j`-th one drawn. */
  predicate DrawsCellAt(quads: seq<Quad>, i: int, j: int)
  {
    var k := PhiSteps * i + j;
    0 <= k < |quads| && quads[k].i == i && quads[k].j == j
  }

  /** Drawing order: a quad drawn earlier lies in an earlier column, or in
      the same column and an earlier row; every cell is drawn exactly once. */
  lemma MeshOrder(quads: seq<Quad>, az: seq<real>, t: MeshTrig, g: Geometry)
    requires MeshTrigShaped(t)
    requires |quads| == 648
    requires forall k :: 0 <= k < |quads| ==> quads[k] == MeshQuad(az, t, g, k / PhiSteps, k % PhiSteps)
    ensures forall k, m :: 0 <= k < m < |quads| ==>
              quads[k].i < quads[m].i || (quads[k].i == quads[m].i && quads[k].j < quads[m].j)
    ensures forall i, j :: 0 <= i < ThetaSteps && 0 <= j < PhiSteps ==> DrawsCellAt(quads, i, j)
  {
    forall k, m | 0 <= k < m < |quads|
      ensures quads[k].i < quads[m].i || (quads[k].i == quads[m].i && quads[k].j < quads[m].j)
    {
      assert quads[k].i == k / PhiSteps && quads[k].j == k % PhiSteps;
      assert quads[m].i == m / PhiSteps && quads[m].j == m % PhiSteps;
    }
    forall i, j | 0 <= i < ThetaSteps && 0 <= j < PhiSteps
      ensures DrawsCellAt(quads, i, j)
    {
      assert (PhiSteps * i + j) / PhiSteps == i && (PhiSteps * i + j) % PhiSteps == j;
    }
  }
}
