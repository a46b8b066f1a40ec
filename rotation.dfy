/**
  Rotation of points about an arbitrary origin (right-hand rule: a positive
  angle turns counter-clockwise). The angle enters through its cosine c and
  its sine s.
 */
module Rotation {
  import opened Geometry

  /**
    Rotates p about o: with x = p.x - o.x and y = p.y - o.y the result is
    (x*c - y*s + o.x, x*s + y*c + o.y). The centre defaults to the origin, as
    in the source.
   */
  function RotatePoint(p: Point, c: real, s: real, o: Point := Origin): (r: Point)
    ensures p == o ==> r == o
    ensures r.x - o.x == (p.x - o.x) * c - (p.y - o.y) * s
    ensures r.y - o.y == (p.x - o.x) * s + (p.y - o.y) * c
  {
    var x := p.x - o.x;
    var y := p.y - o.y;
    Point(x * c - y * s + o.x, x * s + y * c + o.y)
  }

  /** Every vertex rotated about o, in the same order. */
  function RotateAll(v: seq<Point>, c: real, s: real, o: Point): (r: seq<Point>)
    ensures |r| == |v|
    ensures forall i :: 0 <= i < |v| ==> r[i] == RotatePoint(v[i], c, s, o)
  {
    seq(|v|, i requires 0 <= i < |v| => RotatePoint(v[i], c, s, o))
  }

  /** (c, s) is the cosine and sine of some angle. */
  predicate IsTurn(c: real, s: real) {
    c * c + s * s == 1.0
  }

  function Dist2(p: Point, q: Point): real {
    (p.x - q.x) * (p.x - q.x) + (p.y - q.y) * (p.y - q.y)
  }

  /** The centre of rotation does not move. */
  lemma RotateFixesCentre(o: Point, c: real, s: real)
    ensures RotatePoint(o, c, s, o) == o
  {
  }

  /** The zero angle (c = 1, s = 0) leaves every point where it is. */
  lemma RotateByZero(p: Point, o: Point)
    ensures RotatePoint(p, 1.0, 0.0, o) == p
  {
  }

  /** About the default origin the rotation is the plain rotation matrix. */
  lemma RotateAboutOrigin(p: Point, c: real, s: real)
    ensures RotatePoint(p, c, s) == Point(p.x * c - p.y * s, p.x * s + p.y * c)
  {
  }

  /** A scaling identity used to discharge c*c + s*s == 1 inside products. */
  lemma ScaleByOne(k: real, a: real)
    requires k == 1.0
    ensures k * a == a
  {
  }

  /** A rotation keeps the squared distance to its centre. */
  lemma RotatePreservesDistance(p: Point, c: real, s: real, o: Point)
    requires IsTurn(c, s)
    ensures Dist2(RotatePoint(p, c, s, o), o) == Dist2(p, o)
  {
    var x, y := p.x - o.x, p.y - o.y;
    var r := RotatePoint(p, c, s, o);
    assert r.x - o.x == x * c - y * s;
    assert r.y - o.y == x * s + y * c;
    calc {
      Dist2(r, o);
      (x * c - y * s) * (x * c - y * s) + (x * s + y * c) * (x * s + y * c);
      (c * c + s * s) * (x * x + y * y);
      { ScaleByOne(c * c + s * s, x * x + y * y); }
      x * x + y * y;
    }
  }

  /** Turning by (c, s) and then by (c, -s) about the same centre is the identity. */
  lemma RotateRoundTrip(p: Point, c: real, s: real, o: Point)
    requires IsTurn(c, s)
    ensures RotatePoint(RotatePoint(p, c, s, o), c, -s, o) == p
  {
    var x, y := p.x - o.x, p.y - o.y;
    var r := RotatePoint(p, c, s, o);
    var b := RotatePoint(r, c, -s, o);
    assert r.x - o.x == x * c - y * s;
    assert r.y - o.y == x * s + y * c;
    calc {
      b.x - o.x;
      (x * c - y * s) * c + (x * s + y * c) * s;
      (c * c + s * s) * x;
      { ScaleByOne(c * c + s * s, x); }
      x;
    }
    calc {
      b.y - o.y;
      -(x * c - y * s) * s + (x * s + y * c) * c;
      (c * c + s * s) * y;
      { ScaleByOne(c * c + s * s, y); }
      y;
    }
  }

  /** The round trip of a whole vertex list: same length, same order, same points. */
  lemma RotateAllRoundTrip(v: seq<Point>, c: real, s: real, o: Point)
    requires IsTurn(c, s)
    ensures RotateAll(RotateAll(v, c, s, o), c, -s, o) == v
  {
    var b := RotateAll(RotateAll(v, c, s, o), c, -s, o);
    forall i | 0 <= i < |v|
      ensures b[i] == v[i]
    {
      RotateRoundTrip(v[i], c, s, o);
    }
  }

  /**
    The rotation case of the source's timing script: (2, 3) about (3, 4) by
    1.22173 rad, whose cosine and sine are 0.34202 and 0.93969 to five places,
    lands within 1e-4 of (3.5977, 2.7183).
   */
  lemma RotateExample(c: real, s: real)
    requires Abs(c - 0.34202) <= 0.00001 && Abs(s - 0.93969) <= 0.00001
    ensures Abs(RotatePoint(Point(2.0, 3.0), c, s, Point(3.0, 4.0)).x - 3.5977) < 0.0001
    ensures Abs(RotatePoint(Point(2.0, 3.0), c, s, Point(3.0, 4.0)).y - 2.7183) < 0.0001
  {
  }
}
