/**
  The Polygon of pyroom/room/polygon.py: the vertex list starts at the origin,
  but the vertex count is taken from the caller's points, so it is one less
  than the length of the list. calc_area wraps its indices at that count and
  stores its result in the attribute area, which does not exist until then.
 */
module PyroomPolygon {
  import opened Geometry

  class Polygon {
    var vertices: seq<Point>
    var numVertices: nat
    var area: Option<real>

    /**
      The list starts at the origin and holds one vertex more than the count;
      a computed area is the area of the first numVertices vertices.
     */
    ghost predicate Valid()
      reads this
    {
      |vertices| == numVertices + 1 && vertices[0] == Origin
      && (area.Some? ==> area.value == Area(vertices[..numVertices]))
    }

    /** The origin followed by the caller's points; the count is that of the points alone. */
    constructor (points: seq<Point>)
      ensures vertices == Vertices(points) && numVertices == |points|
      ensures area == None
      ensures Valid()
    {
      vertices := [Origin] + points;
      numVertices := |points|;
      area := None;
    }

    /**
      Stores half the absolute value of the Shoelace sum, with indices wrapping
      at numVertices: the edges of the polygon formed by the first numVertices
      vertices, so the caller's last point takes no part.
     */
    method CalcArea()
      requires Valid()
      modifies this
      ensures vertices == old(vertices) && numVertices == old(numVertices)
      ensures area == Some(Area(vertices[..numVertices])) && area.value >= 0.0
      ensures Valid()
    {
      var v, n := vertices, numVertices;
      var sum := 0.0;
      var i := 0;
      while i < n
        invariant 0 <= i <= n
        modifies {}
        invariant sum == CyclicSum(One, v, n, i)
      {
        var j := (i + 1) % n;
        NextIsMod(i, n);
        sum := sum + v[i].x * v[j].y;
        sum := sum - v[j].x * v[i].y;
        i := i + 1;
      }
      CyclicSumCut(One, v, n, n);
      assert sum == ShoelaceSum(v[..n]);
      HalfOfAbs(sum);
      area := Some(Abs(sum) * 0.5);
    }

    /** The whole list, origin first: one element longer than numVertices. */
    method GetVertices() returns (v: seq<Point>)
      requires Valid()
      ensures v == vertices && v[0] == Origin && |v| == numVertices + 1
    {
      v := vertices;
    }

    /** The stored area; reading it before CalcArea has run fails. */
    method GetArea() returns (r: Result<real>)
      requires Valid()
      ensures area.None? ==> r == Failure(MissingAttribute)
      ensures area.Some? ==> r == Success(Area(vertices[..numVertices])) && r.value >= 0.0
    {
      if area.None? {
        return Failure(MissingAttribute);
      }
      r := Success(area.value);
    }
  }

  /**
    Edges 0 .. k-1 of the cycle v[..n] are also edges of any longer cycle
    v[..m] when k < n: none of them is the closing edge.
   */
  lemma {:induction false} InnerEdges(w: Weight, v: seq<Point>, n: nat, m: nat, k: nat)
    requires k < n <= m <= |v|
    ensures CyclicSum(w, v, n, k) == CyclicSum(w, v, m, k)
  {
    if k > 0 {
      InnerEdges(w, v, n, m, k - 1);
    }
  }

  /**
    The first numVertices vertices are the polygon of the caller's points
    without the last one, and its Shoelace sum falls short of the full
    polygon's by exactly the cross product of the last two vertices: the
    triangle formed by the origin and the last two vertices is missed.
   */
  lemma MissingTriangle(points: seq<Point>)
    requires |points| > 0
    ensures Vertices(points)[..|points|] == Vertices(points[..|points| - 1])
    ensures var v, n := Vertices(points), |points|;
      ShoelaceSum(v) == ShoelaceSum(v[..n]) + Cross(v[n - 1], v[n])
  {
    var v, n := Vertices(points), |points|;
    assert Vertices(points)[..n] == Vertices(points[..n - 1]);
    InnerEdges(One, v, n, n + 1, n - 1);
    assert CyclicSum(One, v, n + 1, n + 1) == CyclicSum(One, v, n, n - 1) + Cross(v[n - 1], v[n]) + Cross(v[n], v[0]);
    assert CyclicSum(One, v, n, n) == CyclicSum(One, v, n, n - 1) + Cross(v[n - 1], v[0]);
    CyclicSumCut(One, v, n, n);
  }

  /**
    The rectangle of the test suite: the stored area is 3, the area of the
    triangle (0, 0), (2, 0), (2, 3), where the full rectangle has area 6.
   */
  lemma RectangleAsWritten(v: seq<Point>)
    requires v == Vertices(Rectangle)
    ensures Area(v[..3]) == 3.0 && Area(v) == 6.0
  {
    RectangleSums();
    MissingTriangle(Rectangle);
    assert v[2] == Point(2.0, 3.0) && v[3] == Point(0.0, 3.0);
  }

  /** With no points the list is the origin alone, the count is zero and the stored area is 0. */
  lemma NoPointsArea(v: seq<Point>)
    requires v == Vertices([])
    ensures v == [Origin] && Area(v[..0]) == 0.0
  {
  }
}
