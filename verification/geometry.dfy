/** The shape generators of the whiteboard: each maps the two corners of a
    dragged box to the ordered vertex list that outlines the shape.

    Coordinates are exact reals; the floating-point rounding of the original
    is not modelled. The math library's pi, cos and sin are not computed here:
    they arrive as a `Trig` record, so every fact below holds for whatever
    values the library returns. */
module Geometry {

  datatype Point = Point(x: real, y: real)

  /** The values `math.pi`, `math.cos` and `math.sin` stand for. */
  datatype Trig = Trig(pi: real, cos: real -> real, sin: real -> real)

  /** The identity cos^2 + sin^2 = 1, which the true functions satisfy. */
  ghost predicate Pythagorean(t: Trig) {
    forall a :: t.cos(a) * t.cos(a) + t.sin(a) * t.sin(a) == 1.0
  }

  function Abs(a: real): (r: real)
    ensures r >= 0.0
    ensures r == a || r == -a
  {
    if a < 0.0 then -a else a
  }

  function Min(a: real, b: real): (r: real)
    ensures r <= a && r <= b
    ensures r == a || r == b
  {
    if a <= b then a else b
  }

  function Max(a: real, b: real): (r: real)
    ensures r >= a && r >= b
    ensures r == a || r == b
  {
    if a <= b then b else a
  }

  function SqDist(p: Point, q: Point): real {
    (p.x - q.x) * (p.x - q.x) + (p.y - q.y) * (p.y - q.y)
  }

  /** `math.radians`: degrees to radians. */
  function Radians(t: Trig, degrees: real): real {
    degrees * t.pi / 180.0
  }

  // ---------------------------------------------------------------------
  // Centre and radius of the regular shapes
  // ---------------------------------------------------------------------

  /** The midpoint of the box: as far from its low edge as from its high edge. */
  function Centre(x0: real, y0: real, x1: real, y1: real): (c: Point)
    ensures Min(x0, x1) <= c.x <= Max(x0, x1)
    ensures Min(y0, y1) <= c.y <= Max(y0, y1)
    ensures c.x - Min(x0, x1) == Max(x0, x1) - c.x
    ensures c.y - Min(y0, y1) == Max(y0, y1) - c.y
  {
    Point((x0 + x1) / 2.0, (y0 + y1) / 2.0)
  }

  /** Half the smaller side of the box: the largest circle that fits in it. */
  function Radius(x0: real, y0: real, x1: real, y1: real): (r: real)
    ensures r >= 0.0
    ensures 2.0 * r <= Abs(x1 - x0) && 2.0 * r <= Abs(y1 - y0)
    ensures 2.0 * r == Abs(x1 - x0) || 2.0 * r == Abs(y1 - y0)
  {
    Min(Abs(x1 - x0), Abs(y1 - y0)) / 2.0
  }

  /** The point at `angle` on the circle of `radius` around `c`; y is
      subtracted because screen y grows downward. */
  function Vertex(t: Trig, c: Point, radius: real, angle: real): Point {
    Point(c.x + radius * t.cos(angle), c.y - radius * t.sin(angle))
  }

  lemma VertexOnCircle(t: Trig, c: Point, radius: real, angle: real)
    requires Pythagorean(t)
    ensures SqDist(Vertex(t, c, radius, angle), c) == radius * radius
  {
  }

  // ---------------------------------------------------------------------
  // Cube
  // ---------------------------------------------------------------------

  /** Corner k of the isometric box: 1..4 the front face (top-left,
      top-right, bottom-right, bottom-left), 5..8 the same corners of the
      back face. */
  function CubeCorner(x0: real, y0: real, x1: real, y1: real, k: int): (p: Point)
    requires 1 <= k <= 8
    ensures k <= 4 ==> p.x == (if k == 1 || k == 4 then x0 else x1)
    ensures k <= 4 ==> p.y == (if k == 1 || k == 2 then y0 else y1)
    ensures k > 4 ==> p == BackOf(x0, y0, x1, y1, CubeCorner(x0, y0, x1, y1, k - 4))
  {
    var front := [Point(x0, y0), Point(x1, y0), Point(x1, y1), Point(x0, y1)];
    if k <= 4 then front[k - 1] else BackOf(x0, y0, x1, y1, front[k - 5])
  }

  /** A front corner moved to the back face: half the box width to the
      right and half its height up. */
  function BackOf(x0: real, y0: real, x1: real, y1: real, p: Point): Point {
    Point(p.x + (x1 - x0) / 2.0, p.y - (y1 - y0) / 2.0)
  }

  /** The order in which the cube outline visits the corners. */
  const CubeOrder: seq<int> := [1, 2, 6, 7, 3, 4, 8, 5, 1, 5, 6, 2, 3, 7, 8, 4]

  /** `get_cube_coords`: the 16-point polyline of the isometric box. */
  function CubeCoords(x0: real, y0: real, x1: real, y1: real): (r: seq<Point>)
    ensures |r| == |CubeOrder| == 16
    ensures forall i :: 0 <= i < 16 ==> r[i] == CubeCorner(x0, y0, x1, y1, CubeOrder[i])
    ensures r[0] == r[8] == Point(x0, y0) && r[15] == Point(x0, y1)
  {
    var width := x1 - x0;
    var height := y1 - y0;
    var p1 := Point(x0, y0);
    var p2 := Point(x1, y0);
    var p3 := Point(x1, y1);
    var p4 := Point(x0, y1);
    var p5 := Point(x0 + width / 2.0, y0 - height / 2.0);
    var p6 := Point(x1 + width / 2.0, y0 - height / 2.0);
    var p7 := Point(x1 + width / 2.0, y1 - height / 2.0);
    var p8 := Point(x0 + width / 2.0, y1 - height / 2.0);
    [p1, p2, p6, p7, p3, p4, p8, p5, p1, p5, p6, p2, p3, p7, p8, p4]
  }

  /** How often corner k occurs among the first n entries of a visiting order. */
  function Visits(order: seq<int>, k: int, n: nat): nat
    requires n <= |order|
  {
    if n == 0 then 0 else Visits(order, k, n - 1) + (if order[n - 1] == k then 1 else 0)
  }

  /** Every corner of the box is visited exactly twice: once in the first
      eight points and once in the last eight. No other label occurs. */
  lemma CubeVisitsEachCornerTwice()
    ensures forall k :: 1 <= k <= 8 ==> Visits(CubeOrder, k, 8) == 1 && Visits(CubeOrder, k, 16) == 2
    ensures forall i :: 0 <= i < |CubeOrder| ==> 1 <= CubeOrder[i] <= 8
  {
    assert forall x :: x in CubeOrder ==> 1 <= x <= 8;
  }

  /** An undirected edge between two corner labels, smaller label first. */
  function Edge(a: int, b: int): (int, int) {
    if a <= b then (a, b) else (b, a)
  }

  /** The twelve edges of a box: the front face, the back face and the four
      edges joining them. */
  const BoxEdges: set<(int, int)> := {
    (1, 2), (2, 3), (3, 4), (1, 4),
    (5, 6), (6, 7), (7, 8), (5, 8),
    (1, 5), (2, 6), (3, 7), (4, 8)
  }

  /** The edges drawn by the first n sides of a closed polygon through
      `order`; side n - 1 of |order| is the one closing the polygon, from the
      final vertex back to the first. */
  function DrawnEdges(order: seq<int>, n: nat): set<(int, int)>
    requires n <= |order|
  {
    if n == 0 then {} else DrawnEdges(order, n - 1) + {Edge(order[n - 1], order[n % |order|])}
  }

  /** Drawn as a closed polygon, the cube outline draws every one of the
      twelve edges of the box and no other segment. */
  lemma CubeDrawsEveryBoxEdge()
    ensures DrawnEdges(CubeOrder, |CubeOrder|) == BoxEdges
  {
    var o := CubeOrder;
    assert |o| == 16;
    assert DrawnEdges(o, 4) == {(1, 2), (2, 6), (6, 7), (3, 7)};
    assert DrawnEdges(o, 8) == {(1, 2), (2, 6), (6, 7), (3, 7), (3, 4), (4, 8), (5, 8), (1, 5)};
    assert DrawnEdges(o, 12) == {(1, 2), (2, 6), (6, 7), (3, 7), (3, 4), (4, 8), (5, 8), (1, 5), (5, 6), (2, 3)};
  }

  /** The last vertex repeats the first only for a box of zero height: the
      list itself is not closed, the polygon call closes it. */
  lemma CubeEndsWhereItStarts(x0: real, y0: real, x1: real, y1: real)
    ensures CubeCoords(x0, y0, x1, y1)[15] == CubeCoords(x0, y0, x1, y1)[0] <==> y0 == y1
  {
  }

  // ---------------------------------------------------------------------
  // Triangle
  // ---------------------------------------------------------------------

  /** `get_triangle_coords`: base along y1 from x0 to x1, apex above the
      horizontal midpoint. The apex y works out to the smaller of y0, y1. */
  function TriangleCoords(x0: real, y0: real, x1: real, y1: real): (r: seq<Point>)
    ensures |r| == 3
    ensures r[0] == Point(x0, y1) && r[1] == Point(x1, y1)
    ensures r[2] == Point((x0 + x1) / 2.0, Min(y0, y1))
  {
    var c := Centre(x0, y0, x1, y1);
    var height := Abs(y1 - y0) / 2.0;
    [Point(x0, y1), Point(x1, y1), Point(c.x, c.y - height)]
  }

  /** The triangle collapses onto its base line exactly when the drag ended
      at or above where it started; otherwise the apex lies strictly above
      the base. */
  lemma TriangleFlatIffDraggedUp(x0: real, y0: real, x1: real, y1: real)
    ensures (forall i :: 0 <= i < 3 ==> TriangleCoords(x0, y0, x1, y1)[i].y == y1) <==> y1 <= y0
    ensures y0 < y1 ==> TriangleCoords(x0, y0, x1, y1)[2].y < y1
  {
    var r := TriangleCoords(x0, y0, x1, y1);
    assert r[0].y == y1 && r[1].y == y1 && r[2].y == Min(y0, y1);
  }

  // ---------------------------------------------------------------------
  // Pentagon, hexagon and star
  // ---------------------------------------------------------------------

  /** The two regular polygons the board draws. */
  datatype Ring = Pentagonal | Hexagonal

  /** The angle of vertex i: the pentagon starts at the top (pi/2) and steps
      by 2*pi/5; the hexagon starts at 0 degrees and steps by 60 degrees. */
  function RingAngle(t: Trig, ring: Ring, i: int): real {
    match ring
    case Pentagonal => t.pi / 2.0 + (i as real) * 2.0 * t.pi / 5.0
    case Hexagonal => Radians(t, (60 * i) as real)
  }

  /** Successive vertices are one fixed step apart: 2*pi/5 for the pentagon,
      60 degrees for the hexagon. */
  lemma RingStep(t: Trig, ring: Ring, i: int)
    ensures RingAngle(t, ring, i + 1) - RingAngle(t, ring, i)
         == (if ring == Pentagonal then 2.0 * t.pi / 5.0 else Radians(t, 60.0))
  {
  }

  /** The first n iterations of the polygon loop. */
  function RingLoop(t: Trig, ring: Ring, c: Point, radius: real, n: nat): (r: seq<Point>)
    ensures |r| == n
    ensures forall i :: 0 <= i < n ==> r[i] == Vertex(t, c, radius, RingAngle(t, ring, i))
  {
    if n == 0 then []
    else RingLoop(t, ring, c, radius, n - 1) + [Vertex(t, c, radius, RingAngle(t, ring, n - 1))]
  }

  /** `get_pentagon_coords`. */
  function PentagonCoords(t: Trig, x0: real, y0: real, x1: real, y1: real): (r: seq<Point>)
    ensures |r| == 5
    ensures r[0] == Vertex(t, Centre(x0, y0, x1, y1), Radius(x0, y0, x1, y1), t.pi / 2.0)
    ensures forall i :: 0 <= i < 5 ==>
      r[i] == Vertex(t, Centre(x0, y0, x1, y1), Radius(x0, y0, x1, y1), RingAngle(t, Pentagonal, i))
  {
    RingLoop(t, Pentagonal, Centre(x0, y0, x1, y1), Radius(x0, y0, x1, y1), 5)
  }

  /** `get_hexagon_coords`. */
  function HexagonCoords(t: Trig, x0: real, y0: real, x1: real, y1: real): (r: seq<Point>)
    ensures |r| == 6
    ensures r[0] == Vertex(t, Centre(x0, y0, x1, y1), Radius(x0, y0, x1, y1), 0.0)
    ensures forall i :: 0 <= i < 6 ==>
      r[i] == Vertex(t, Centre(x0, y0, x1, y1), Radius(x0, y0, x1, y1), RingAngle(t, Hexagonal, i))
  {
    assert RingAngle(t, Hexagonal, 0) == 0.0 * t.pi / 180.0 == 0.0;
    RingLoop(t, Hexagonal, Centre(x0, y0, x1, y1), Radius(x0, y0, x1, y1), 6)
  }

  /** The first n iterations of the star loop: each appends an outer vertex
      at the pentagon angle and an inner vertex, at half the radius, a tenth
      of a turn further on. */
  function StarLoop(t: Trig, c: Point, radius: real, n: nat): (r: seq<Point>)
    ensures |r| == 2 * n
    ensures forall k :: 0 <= k < n ==>
      && r[2 * k] == Vertex(t, c, radius, RingAngle(t, Pentagonal, k))
      && r[2 * k + 1] == Vertex(t, c, radius / 2.0, RingAngle(t, Pentagonal, k) + t.pi / 5.0)
  {
    if n == 0 then []
    else
      var outer := RingAngle(t, Pentagonal, n - 1);
      var inner := outer + t.pi / 5.0;
      StarLoop(t, c, radius, n - 1) + [Vertex(t, c, radius, outer), Vertex(t, c, radius / 2.0, inner)]
  }

  /** `get_star_coords`. */
  function StarCoords(t: Trig, x0: real, y0: real, x1: real, y1: real): (r: seq<Point>)
    ensures |r| == 10
    ensures forall k :: 0 <= k < 5 ==>
      && r[2 * k] == Vertex(t, Centre(x0, y0, x1, y1), Radius(x0, y0, x1, y1), RingAngle(t, Pentagonal, k))
      && r[2 * k + 1] == Vertex(t, Centre(x0, y0, x1, y1), Radius(x0, y0, x1, y1) / 2.0,
                                RingAngle(t, Pentagonal, k) + t.pi / 5.0)
  {
    StarLoop(t, Centre(x0, y0, x1, y1), Radius(x0, y0, x1, y1), 5)
  }

  /** With a true cos/sin pair every polygon vertex lies on the circle of
      the box's radius around its centre. */
  lemma {:induction false} RingOnCircle(t: Trig, ring: Ring, c: Point, radius: real, n: nat)
    requires Pythagorean(t)
    ensures forall i :: 0 <= i < n ==> SqDist(RingLoop(t, ring, c, radius, n)[i], c) == radius * radius
  {
    var r := RingLoop(t, ring, c, radius, n);
    forall i | 0 <= i < n
      ensures SqDist(r[i], c) == radius * radius
    {
      VertexOnCircle(t, c, radius, RingAngle(t, ring, i));
    }
  }

  /** With a true cos/sin pair the star alternates between the circle of
      its radius and the circle of half that radius. */
  lemma {:induction false} StarAlternatesRadii(t: Trig, c: Point, radius: real, n: nat)
    requires Pythagorean(t)
    ensures forall k :: 0 <= k < n ==>
      && SqDist(StarLoop(t, c, radius, n)[2 * k], c) == radius * radius
      && SqDist(StarLoop(t, c, radius, n)[2 * k + 1], c) == (radius / 2.0) * (radius / 2.0)
  {
    var r := StarLoop(t, c, radius, n);
    forall k | 0 <= k < n
      ensures SqDist(r[2 * k], c) == radius * radius
      ensures SqDist(r[2 * k + 1], c) == (radius / 2.0) * (radius / 2.0)
    {
      var a := RingAngle(t, Pentagonal, k);
      VertexOnCircle(t, c, radius, a);
      VertexOnCircle(t, c, radius / 2.0, a + t.pi / 5.0);
    }
  }

  /** The pentagon, hexagon and star see the box only through its centre and
      radius, so any two corners spanning the same box give the same
      outline: swapped corners, the other diagonal, or the normalised
      (min, min)-(max, max) corners. */
  lemma RegularShapesIgnoreCornerOrder(t: Trig, x0: real, y0: real, x1: real, y1: real)
    ensures PentagonCoords(t, x0, y0, x1, y1) == PentagonCoords(t, x1, y1, x0, y0)
    ensures PentagonCoords(t, x0, y0, x1, y1) == PentagonCoords(t, x1, y0, x0, y1)
    ensures PentagonCoords(t, x0, y0, x1, y1) == PentagonCoords(t, Min(x0, x1), Min(y0, y1), Max(x0, x1), Max(y0, y1))
    ensures HexagonCoords(t, x0, y0, x1, y1) == HexagonCoords(t, x1, y1, x0, y0)
    ensures HexagonCoords(t, x0, y0, x1, y1) == HexagonCoords(t, x1, y0, x0, y1)
    ensures HexagonCoords(t, x0, y0, x1, y1) == HexagonCoords(t, Min(x0, x1), Min(y0, y1), Max(x0, x1), Max(y0, y1))
    ensures StarCoords(t, x0, y0, x1, y1) == StarCoords(t, x1, y1, x0, y0)
    ensures StarCoords(t, x0, y0, x1, y1) == StarCoords(t, x1, y0, x0, y1)
    ensures StarCoords(t, x0, y0, x1, y1) == StarCoords(t, Min(x0, x1), Min(y0, y1), Max(x0, x1), Max(y0, y1))
  {
  }

  /** The cube, unlike the regular shapes, depends on which corner the drag
      started from: its back face leans by the signed width and height. */
  lemma CubeDependsOnCornerOrder()
    ensures CubeCoords(0.0, 0.0, 2.0, 2.0) != CubeCoords(2.0, 2.0, 0.0, 0.0)
  {
  }
}
