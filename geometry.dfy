/**
  Shared specification of the polygon geometry: points, the Shoelace sums and
  the quantities derived from them (signed area, area, centroid). All three
  Polygon copies are specified against these functions.
 */
module Geometry {

  /** A point of the plane, with exact coordinates. */
  datatype Point = Point(x: real, y: real)

  /** The implicit first vertex of every polygon. */
  const Origin := Point(0.0, 0.0)

  /** The exceptions the polygon code can raise. */
  datatype Error =
    | DivisionByZero     // a division by a zero area (Decimal trap or float ZeroDivisionError)
    | MissingAttribute   // an attribute read before the method that sets it has run

  datatype Option<T> = None | Some(value: T)

  datatype Result<T> = Success(value: T) | Failure(error: Error)

  datatype Outcome = Pass | Fail(error: Error)

  function Abs(r: real): (a: real)
    ensures a >= 0.0
    ensures a == r || a == -r
  {
    if r < 0.0 then -r else r
  }

  /** The vertex list built from the caller's points: the origin, then the points in order. */
  function Vertices(points: seq<Point>): (v: seq<Point>)
    ensures |v| == |points| + 1 && v[0] == Origin && v[1..] == points
  {
    [Origin] + points
  }

  /** The points in the opposite order. */
  function Reverse(points: seq<Point>): (r: seq<Point>)
    ensures |r| == |points|
  {
    seq(|points|, i requires 0 <= i < |points| => points[|points| - 1 - i])
  }

  /** The cross product of two position vectors, x_p*y_q - x_q*y_p. */
  function Cross(p: Point, q: Point): real {
    p.x * q.y - q.x * p.y
  }

  /** Which of the three Shoelace-style sums an edge contributes to. */
  datatype Weight =
    | One    // the Shoelace sum itself
    | SumX   // the x moment, weighted by x_p + x_q
    | SumY   // the y moment, weighted by y_p + y_q

  /** The contribution of the edge from p to q to the sum selected by w. */
  function EdgeTerm(w: Weight, p: Point, q: Point): real {
    match w
    case One => Cross(p, q)
    case SumX => (p.x + q.x) * Cross(p, q)
    case SumY => (p.y + q.y) * Cross(p, q)
  }

  /** The index after i when indices wrap around at n, that is (i + 1) % n. */
  function Next(i: nat, n: nat): (j: nat)
    requires i < n
    ensures j < n
  {
    if i + 1 == n then 0 else i + 1
  }

  /** Next agrees with Python's (i + 1) % n for every index i of a list of length n. */
  lemma NextIsMod(i: nat, n: nat)
    requires i < n
    ensures Next(i, n) == (i + 1) % n
  {
  }

  /** Edge i of the cyclic polygon v[..n]: from v[i] to v[(i + 1) % n]. */
  function EdgeAt(w: Weight, v: seq<Point>, n: nat, i: nat): real
    requires i < n <= |v|
  {
    EdgeTerm(w, v[i], v[Next(i, n)])
  }

  /** The sum of the first k edges of the cyclic polygon v[..n]. */
  function CyclicSum(w: Weight, v: seq<Point>, n: nat, k: nat): real
    requires k <= n <= |v|
  {
    if k == 0 then 0.0 else CyclicSum(w, v, n, k - 1) + EdgeAt(w, v, n, k - 1)
  }

  /** Twice the signed area: the sum of x_i*y_j - x_j*y_i over all edges, last-to-first included. */
  function ShoelaceSum(v: seq<Point>): real {
    CyclicSum(One, v, |v|, |v|)
  }

  function SignedArea(v: seq<Point>): real {
    ShoelaceSum(v) / 2.0
  }

  function Area(v: seq<Point>): (a: real)
    ensures a >= 0.0
    ensures a == SignedArea(v) || a == -SignedArea(v)
  {
    Abs(SignedArea(v))
  }

  /** The sum of (x_i + x_j) * (x_i*y_j - x_j*y_i) over all edges. */
  function MomentX(v: seq<Point>): real {
    CyclicSum(SumX, v, |v|, |v|)
  }

  /** The sum of (y_i + y_j) * (x_i*y_j - x_j*y_i) over all edges. */
  function MomentY(v: seq<Point>): real {
    CyclicSum(SumY, v, |v|, |v|)
  }

  /** The centroid of the area enclosed by v; undefined for a zero signed area. */
  function Centroid(v: seq<Point>): Point
    requires SignedArea(v) != 0.0
  {
    Point(MomentX(v) / (6.0 * SignedArea(v)), MomentY(v) / (6.0 * SignedArea(v)))
  }

  /** The point reflected through the origin. */
  function Negate(p: Point): Point {
    Point(-p.x, -p.y)
  }

  /** Half the absolute value, the way the source scales the sum, is the absolute value of the half. */
  lemma HalfOfAbs(x: real)
    ensures Abs(x) * 0.5 == Abs(x / 2.0)
  {
  }

  /**
    The sum over v[..n] depends only on v[..n]: reading the first n vertices
    of a longer list is the same as summing over the list cut at n.
   */
  lemma {:induction false} CyclicSumCut(w: Weight, v: seq<Point>, n: nat, k: nat)
    requires k <= n <= |v|
    ensures CyclicSum(w, v, n, k) == CyclicSum(w, v[..n], n, k)
  {
    if k > 0 {
      CyclicSumCut(w, v, n, k - 1);
    }
  }

  /**
    Adds the four terms x_p^2*y_q - x_p*x_q*y_p + x_p*x_q*y_q - x_q^2*y_p of one
    edge to the running x moment; together they are the edge's SumX term.
   */
  method AddMomentXTerms(cx: real, p: Point, q: Point) returns (r: real)
    ensures r == cx + EdgeTerm(SumX, p, q)
  {
    r := cx;
    r := r + p.x * p.x * q.y;
    r := r - p.x * q.x * p.y;
    r := r + p.x * q.x * q.y;
    r := r - q.x * q.x * p.y;
  }

  /**
    Adds the four terms x_p*y_p*y_q - x_q*y_p^2 + x_p*y_q^2 - x_q*y_p*y_q of one
    edge to the running y moment; together they are the edge's SumY term.
   */
  method AddMomentYTerms(cy: real, p: Point, q: Point) returns (r: real)
    ensures r == cy + EdgeTerm(SumY, p, q)
  {
    r := cy;
    r := r + p.x * p.y * q.y;
    r := r - q.x * p.y * p.y;
    r := r + p.x * q.y * q.y;
    r := r - q.x * p.y * q.y;
  }

  /** The 2 x 3 rectangle of the test suites, as caller points (the origin is implicit). */
  const Rectangle: seq<Point> := [Point(2.0, 0.0), Point(2.0, 3.0), Point(0.0, 3.0)]

  /** The same rectangle walked clockwise. */
  const ClockwiseRectangle: seq<Point> := [Point(0.0, 3.0), Point(2.0, 3.0), Point(2.0, 0.0)]

  /** The three sums of a four-vertex polygon, edge by edge. */
  lemma FourEdges(w: Weight, v: seq<Point>)
    requires |v| == 4
    ensures CyclicSum(w, v, 4, 4)
         == EdgeTerm(w, v[0], v[1]) + EdgeTerm(w, v[1], v[2]) + EdgeTerm(w, v[2], v[3]) + EdgeTerm(w, v[3], v[0])
  {
    assert CyclicSum(w, v, 4, 1) == EdgeTerm(w, v[0], v[1]);
    assert CyclicSum(w, v, 4, 2) == CyclicSum(w, v, 4, 1) + EdgeTerm(w, v[1], v[2]);
    assert CyclicSum(w, v, 4, 3) == CyclicSum(w, v, 4, 2) + EdgeTerm(w, v[2], v[3]);
    assert CyclicSum(w, v, 4, 4) == CyclicSum(w, v, 4, 3) + EdgeTerm(w, v[3], v[0]);
  }

  lemma FiveEdges(w: Weight, v: seq<Point>)
    requires |v| == 5
    ensures CyclicSum(w, v, 5, 5)
         == EdgeTerm(w, v[0], v[1]) + EdgeTerm(w, v[1], v[2]) + EdgeTerm(w, v[2], v[3])
            + EdgeTerm(w, v[3], v[4]) + EdgeTerm(w, v[4], v[0])
  {
    assert CyclicSum(w, v, 5, 1) == EdgeTerm(w, v[0], v[1]);
    assert CyclicSum(w, v, 5, 2) == CyclicSum(w, v, 5, 1) + EdgeTerm(w, v[1], v[2]);
    assert CyclicSum(w, v, 5, 3) == CyclicSum(w, v, 5, 2) + EdgeTerm(w, v[2], v[3]);
    assert CyclicSum(w, v, 5, 4) == CyclicSum(w, v, 5, 3) + EdgeTerm(w, v[3], v[4]);
    assert CyclicSum(w, v, 5, 5) == CyclicSum(w, v, 5, 4) + EdgeTerm(w, v[4], v[0]);
  }

  /** The rectangle's sums: twice its area is 12 and its moments are 36 and 54, so its centroid is (1, 1.5). */
  lemma RectangleSums()
    ensures ShoelaceSum(Vertices(Rectangle)) == 12.0
    ensures MomentX(Vertices(Rectangle)) == 36.0 && MomentY(Vertices(Rectangle)) == 54.0
    ensures SignedArea(Vertices(Rectangle)) == 6.0 && Centroid(Vertices(Rectangle)) == Point(1.0, 1.5)
  {
    var v := Vertices(Rectangle);
    assert v == [Origin, Point(2.0, 0.0), Point(2.0, 3.0), Point(0.0, 3.0)];
    FourEdges(One, v);
    FourEdges(SumX, v);
    FourEdges(SumY, v);
  }

  /** Walked clockwise, the rectangle has the opposite signed area and the same centroid. */
  lemma ClockwiseRectangleSums()
    ensures ShoelaceSum(Vertices(ClockwiseRectangle)) == -12.0
    ensures MomentX(Vertices(ClockwiseRectangle)) == -36.0 && MomentY(Vertices(ClockwiseRectangle)) == -54.0
    ensures SignedArea(Vertices(ClockwiseRectangle)) == -6.0
    ensures Centroid(Vertices(ClockwiseRectangle)) == Point(1.0, 1.5)
  {
    var v := Vertices(ClockwiseRectangle);
    assert v == [Origin, Point(0.0, 3.0), Point(2.0, 3.0), Point(2.0, 0.0)];
    FourEdges(One, v);
    FourEdges(SumX, v);
    FourEdges(SumY, v);
  }
}
