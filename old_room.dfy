/**
  The Polygon of old/20201108.room.py: the vertex list starts at the origin,
  the area and the centroid are computed once, at construction, from the
  signed Shoelace sums, and the polygon can be rotated about its centroid.
 */
module OldRoom {
  import opened Geometry
  import opened Rotation
  import opened Invariance

  class Polygon {
    var vertices: seq<Point>
    var numVertices: nat
    var area: real
    var centroid: Point

    /** The stored area and centroid are those of the current vertex list. */
    ghost predicate Valid()
      reads this
    {
      numVertices == |vertices|
      && SignedArea(vertices) != 0.0
      && area == Area(vertices)
      && centroid == Centroid(vertices)
    }

    /**
      Prepends the origin to the caller's points, then computes the unsigned
      area, the signed area and, from the signed area, the centroid. The source
      raises on a zero signed area; here that case is excluded by the requires.
     */
    constructor (points: seq<Point>)
      requires SignedArea(Vertices(points)) != 0.0
      ensures vertices == Vertices(points) && numVertices == |points| + 1
      ensures vertices[0] == Origin && forall k :: 0 <= k < |points| ==> vertices[k + 1] == points[k]
      ensures area == Area(vertices) && area >= 0.0
      ensures centroid == Centroid(vertices)
      ensures Valid()
    {
      var vs := [Origin];
      var i := 0;
      while i < |points|
        invariant 0 <= i <= |points|
        invariant vs == [Origin] + points[..i]
      {
        vs := vs + [points[i]];
        i := i + 1;
      }
      assert points[..i] == points;
      var unsigned := CalcArea(vs);
      var signedArea := CalcArea(vs, true);
      var r := CalcCentroid(vs, signedArea);
      vertices := vs;
      numVertices := |vs|;
      area := unsigned;
      centroid := r.value;
    }

    /**
      Polygon(points) as the caller sees it: construction either fails in the
      centroid division, when the signed area is zero, or yields a polygon
      whose stored area and centroid are those of its vertices.
     */
    static method Create(points: seq<Point>) returns (r: Result<Polygon>)
      ensures r.Failure? <==> SignedArea(Vertices(points)) == 0.0
      ensures r.Failure? ==> r.error == DivisionByZero
      ensures r.Success? ==> fresh(r.value) && r.value.Valid() && r.value.vertices == Vertices(points)
    {
      var vs := Vertices(points);
      var signedArea := CalcArea(vs, true);
      var c := CalcCentroid(vs, signedArea);
      if c.Failure? {
        return Failure(c.error);
      }
      var p := new Polygon(points);
      r := Success(p);
    }

    /**
      Half the Shoelace sum over all edges, the last-to-first edge included;
      its absolute value unless signed is set.
     */
    static method CalcArea(vertices: seq<Point>, signed: bool := false) returns (a: real)
      ensures signed ==> a == SignedArea(vertices)
      ensures !signed ==> a == Abs(SignedArea(vertices)) && a >= 0.0
    {
      var sum := 0.0;
      var n := |vertices|;
      var i := 0;
      while i < n
        invariant 0 <= i <= n
        invariant sum == CyclicSum(One, vertices, n, i)
      {
        var j := (i + 1) % n;
        NextIsMod(i, n);
        var p, q := vertices[i], vertices[j];
        sum := sum + p.x * q.y;
        sum := sum - q.x * p.y;
        i := i + 1;
      }
      sum := sum / 2.0;
      if signed {
        a := sum;
      } else {
        a := Abs(sum);
      }
    }

    /**
      The two moment sums divided by six times the given signed area; a zero
      area makes the division fail.
     */
    static method CalcCentroid(vertices: seq<Point>, sArea: real) returns (r: Result<Point>)
      ensures r.Failure? <==> sArea == 0.0
      ensures r.Failure? ==> r.error == DivisionByZero
      ensures r.Success? ==> r.value == Point(MomentX(vertices) / (6.0 * sArea), MomentY(vertices) / (6.0 * sArea))
    {
      var cx, cy := 0.0, 0.0;
      var n := |vertices|;
      var i := 0;
      while i < n
        invariant 0 <= i <= n
        invariant cx == CyclicSum(SumX, vertices, n, i)
        invariant cy == CyclicSum(SumY, vertices, n, i)
      {
        var j := (i + 1) % n;
        NextIsMod(i, n);
        cx := AddMomentXTerms(cx, vertices[i], vertices[j]);
        cy := AddMomentYTerms(cy, vertices[i], vertices[j]);
        i := i + 1;
      }
      if sArea == 0.0 {
        r := Failure(DivisionByZero);
      } else {
        r := Success(Point(cx / (6.0 * sArea), cy / (6.0 * sArea)));
      }
    }

    /**
      Replaces every vertex by its image under the rotation by (c, s) about
      the stored centroid, in the same order; area, centroid and vertex count
      are left as they are, and stay correct.
     */
    method Rotate(c: real, s: real)
      requires Valid() && IsTurn(c, s)
      modifies this
      ensures vertices == RotateAll(old(vertices), c, s, old(centroid))
      ensures numVertices == old(numVertices) && area == old(area) && centroid == old(centroid)
      ensures Valid()
    {
      var rotated := [];
      var i := 0;
      while i < |vertices|
        invariant 0 <= i <= |vertices|
        invariant rotated == RotateAll(vertices, c, s, centroid)[..i]
      {
        rotated := rotated + [RotatePoint(vertices[i], c, s, centroid)];
        i := i + 1;
      }
      assert rotated == RotateAll(vertices, c, s, centroid);
      RotateAboutCentroid(vertices, c, s);
      vertices := rotated;
    }

    method GetVertices() returns (v: seq<Point>)
      requires Valid()
      ensures v == vertices && |v| == numVertices
    {
      v := vertices;
    }

    /** The stored area, which is the area of the current vertices, also after a rotation. */
    method GetArea() returns (a: real)
      requires Valid()
      ensures a == Area(vertices) && a >= 0.0
    {
      a := area;
    }
  }

  /**
    The 2 x 3 rectangle turned a quarter turn (cos = 0, sin = 1) about its
    centroid (1, 1.5), as Rotate leaves it: the corners move, the signed
    area and the centroid stay.
   */
  lemma QuarterTurnExample()
    ensures var v := RotateAll(Vertices(Rectangle), 0.0, 1.0, Point(1.0, 1.5));
      && v == [Point(2.5, 0.5), Point(2.5, 2.5), Point(-0.5, 2.5), Point(-0.5, 0.5)]
      && SignedArea(v) == 6.0 && Centroid(v) == Point(1.0, 1.5)
  {
    var v := Vertices(Rectangle);
    RectangleSums();
    RotateAboutCentroid(v, 0.0, 1.0);
    QuarterTurnCorners(v, Centroid(v));
  }

  lemma QuarterTurnCorners(v: seq<Point>, g: Point)
    requires v == Vertices(Rectangle) && g == Point(1.0, 1.5)
    ensures RotateAll(v, 0.0, 1.0, g) == [Point(2.5, 0.5), Point(2.5, 2.5), Point(-0.5, 2.5), Point(-0.5, 0.5)]
  {
    assert v == [Origin, Point(2.0, 0.0), Point(2.0, 3.0), Point(0.0, 3.0)];
    var r := RotateAll(v, 0.0, 1.0, g);
    assert r[0] == Point(2.5, 0.5) && r[1] == Point(2.5, 2.5);
    assert r[2] == Point(-0.5, 2.5) && r[3] == Point(-0.5, 0.5);
  }

  /** The rectangle walked clockwise has the same area and centroid: the signed area absorbs the orientation. */
  method ClockwiseExample() returns (area: real, centroid: Point)
    ensures area == 6.0 && centroid == Point(1.0, 1.5)
  {
    ClockwiseRectangleSums();
    var p := new Polygon(ClockwiseRectangle);
    area := p.GetArea();
    centroid := p.centroid;
  }
}
