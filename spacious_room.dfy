/**
  The Polygon of spacious/room.py: construction only builds the vertex list;
  calc_area and calc_centroid are called afterwards and store their results
  in the attributes area and centroid, which do not exist until then. The
  centroid sums are divided by six times the stored, unsigned area.
 */
module SpaciousRoom {
  import opened Geometry
  import opened Invariance

  /** The centroid as this copy computes it: the moment sums over six times the unsigned area. */
  function UnsignedCentroid(v: seq<Point>): Point
    requires Area(v) != 0.0
  {
    Point(MomentX(v) / (6.0 * Area(v)), MomentY(v) / (6.0 * Area(v)))
  }

  /**
    Dividing by the unsigned area gives the centroid when the vertices run
    counter-clockwise and the centroid reflected through the origin when they
    run clockwise.
   */
  lemma UnsignedCentroidSign(v: seq<Point>)
    requires SignedArea(v) != 0.0
    ensures Area(v) != 0.0
    ensures SignedArea(v) > 0.0 ==> UnsignedCentroid(v) == Centroid(v)
    ensures SignedArea(v) < 0.0 ==> UnsignedCentroid(v) == Negate(Centroid(v))
  {
    var a, d := SignedArea(v), 6.0 * SignedArea(v);
    if a < 0.0 {
      assert 6.0 * Area(v) == -d;
      assert MomentX(v) / -d == -(MomentX(v) / d);
      assert MomentY(v) / -d == -(MomentY(v) / d);
    }
  }

  /** Giving the points in the opposite order reflects this copy's centroid through the origin. */
  lemma ReverseNegatesCentroid(points: seq<Point>)
    requires SignedArea(Vertices(points)) != 0.0
    ensures Area(Vertices(Reverse(points))) == Area(Vertices(points)) != 0.0
    ensures UnsignedCentroid(Vertices(Reverse(points))) == Negate(UnsignedCentroid(Vertices(points)))
  {
    var v, r := Vertices(points), Vertices(Reverse(points));
    ReverseKeepsCentroid(points);
    UnsignedCentroidSign(v);
    UnsignedCentroidSign(r);
  }

  /** Multiplying a sum x by 1 / y, the way the source scales it, divides it by y. */
  lemma ScaleByInverse(x: real, y: real, m: real, d: real)
    requires x == m && y == d && d != 0.0
    ensures x * (1.0 / y) == m / d
  {
  }

  class Polygon {
    var vertices: seq<Point>
    var numVertices: nat
    var area: Option<real>
    var centroid: Option<Point>

    /** The list starts at the origin; whatever has been computed is the area, and the centroid, of the list. */
    ghost predicate Valid()
      reads this
    {
      numVertices == |vertices| && |vertices| > 0 && vertices[0] == Origin
      && (area.Some? ==> area.value == Area(vertices))
      && (centroid.Some? ==> Area(vertices) != 0.0 && centroid.value == UnsignedCentroid(vertices))
    }

    /** The origin followed by the caller's points; area and centroid are not computed yet. */
    constructor (points: seq<Point>)
      ensures vertices == Vertices(points) && numVertices == |points| + 1
      ensures area == None && centroid == None
      ensures Valid()
    {
      vertices := [Origin] + points;
      numVertices := |points| + 1;
      area := None;
      centroid := None;
    }

    /** Stores half the absolute value of the Shoelace sum over all edges, the last-to-first one included. */
    method CalcArea()
      requires Valid()
      modifies this
      ensures area == Some(Area(vertices)) && area.value >= 0.0
      ensures vertices == old(vertices) && numVertices == old(numVertices) && centroid == old(centroid)
      ensures Valid()
    {
      var v, n := vertices, numVertices;
      var sum := 0.0;
      var i := 0;
      while i < n
        invariant 0 <= i <= n
        modifies {}
        invariant sum == CyclicSum(One, v, n, i)
      {
        var j := (i + 1) % n;
        NextIsMod(i, n);
        sum := sum + v[i].x * v[j].y;
        sum := sum - v[j].x * v[i].y;
        i := i + 1;
      }
      HalfOfAbs(sum);
      area := Some(Abs(sum) * 0.5);
    }

    /**
      Stores the moment sums divided by six times the stored area. Without a
      stored area the read of the attribute fails; with a zero area the
      division fails; in both cases nothing is stored.
     */
    method CalcCentroid() returns (outcome: Outcome)
      requires Valid()
      modifies this
      ensures outcome == (if area.None? then Fail(MissingAttribute)
                          else if area.value == 0.0 then Fail(DivisionByZero)
                          else Pass)
      ensures outcome.Pass? ==> Area(vertices) != 0.0 && centroid == Some(UnsignedCentroid(vertices))
      ensures outcome.Fail? ==> centroid == old(centroid)
      ensures vertices == old(vertices) && numVertices == old(numVertices) && area == old(area)
      ensures Valid()
    {
      var v, n := vertices, numVertices;
      var cx, cy := 0.0, 0.0;
      var i := 0;
      while i < n
        invariant 0 <= i <= n
        modifies {}
        invariant cx == CyclicSum(SumX, v, n, i)
      {
        var j := (i + 1) % n;
        NextIsMod(i, n);
        cx := AddMomentXTerms(cx, v[i], v[j]);
        i := i + 1;
      }
      if area.None? {
        return Fail(MissingAttribute);
      }
      if area.value == 0.0 {
        return Fail(DivisionByZero);
      }
      ScaleByInverse(cx, 6.0 * area.value, MomentX(v), 6.0 * Area(v));
      cx := cx * (1.0 / (6.0 * area.value));
      i := 0;
      while i < n
        invariant 0 <= i <= n
        modifies {}
        invariant cy == CyclicSum(SumY, v, n, i)
      {
        var j := (i + 1) % n;
        NextIsMod(i, n);
        cy := AddMomentYTerms(cy, v[i], v[j]);
        i := i + 1;
      }
      ScaleByInverse(cy, 6.0 * area.value, MomentY(v), 6.0 * Area(v));
      cy := cy * (1.0 / (6.0 * area.value));
      assert cx == MomentX(v) / (6.0 * Area(v));
      assert cy == MomentY(v) / (6.0 * Area(v));
      assert Point(cx, cy) == UnsignedCentroid(v);
      centroid := Some(Point(cx, cy));
      outcome := Pass;
    }

    method GetVertices() returns (v: seq<Point>)
      requires Valid()
      ensures v == vertices && |v| == numVertices && v[0] == Origin
    {
      v := vertices;
    }

    /** The stored area; reading it before CalcArea has run fails. */
    method GetArea() returns (r: Result<real>)
      requires Valid()
      ensures area.None? ==> r == Failure(MissingAttribute)
      ensures area.Some? ==> r == Success(Area(vertices)) && r.value >= 0.0
    {
      if area.None? {
        return Failure(MissingAttribute);
      }
      r := Success(area.value);
    }
  }

  /** The concave test polygon: negative coordinates, a zero and decimals. */
  const Concave: seq<Point> := [Point(1.0, 3.0), Point(-2.0, 2.0), Point(0.0, -1.4), Point(8.5, 2.0)]

  /**
    The Shoelace sum of the concave test polygon is 22.7, so its area is 11.35;
    its moments are 87.55 and 48.82, so its centroid is about (1.2856, 0.7169).
    The points run counter-clockwise, so this copy's centroid is the centroid.
   */
  lemma ConcaveArea(v: seq<Point>)
    requires v == Vertices(Concave)
    ensures ShoelaceSum(v) == 22.7 && Area(v) == 11.35
    ensures MomentX(v) == 87.55 && MomentY(v) == 48.82
    ensures SignedArea(v) != 0.0 && Centroid(v) == Point(87.55 / 68.1, 48.82 / 68.1)
    ensures Area(v) != 0.0 && UnsignedCentroid(v) == Point(87.55 / 68.1, 48.82 / 68.1)
  {
    assert v == [Origin, Point(1.0, 3.0), Point(-2.0, 2.0), Point(0.0, -1.4), Point(8.5, 2.0)];
    FiveEdges(One, v);
    FiveEdges(SumX, v);
    FiveEdges(SumY, v);
  }

  /** The area checks of the test suite: CalcArea stores 6 for the rectangle and 11.35 for the concave polygon. */
  lemma AreaExamples()
    ensures Area(Vertices(Rectangle)) == 6.0 && Area(Vertices(Concave)) == 11.35
  {
    RectangleSums();
    ConcaveArea(Vertices(Concave));
  }

  /**
    The clockwise rectangle: the centroid this copy stores is (-1, -1.5),
    the true centroid (1, 1.5) reflected through the origin.
   */
  lemma ClockwiseCentroidExample(v: seq<Point>)
    requires v == Vertices(ClockwiseRectangle)
    ensures Area(v) == 6.0 && UnsignedCentroid(v) == Point(-1.0, -1.5)
    ensures SignedArea(v) != 0.0 && Centroid(v) == Point(1.0, 1.5)
  {
    ClockwiseRectangleSums();
  }
}
