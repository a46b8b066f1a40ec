/**
  How the Shoelace sums, and so the area and the centroid, behave when the
  polygon is moved rigidly or its points are given in the opposite order.
 */
module Invariance {
  import opened Geometry
  import opened Rotation

  function Translate(p: Point, t: Point): Point {
    Point(p.x + t.x, p.y + t.y)
  }

  function TranslateAll(v: seq<Point>, t: Point): (r: seq<Point>)
    ensures |r| == |v|
  {
    seq(|v|, i requires 0 <= i < |v| => Translate(v[i], t))
  }

  /** Rotation about the origin. */
  function Spin(p: Point, c: real, s: real): Point {
    Point(c * p.x - s * p.y, s * p.x + c * p.y)
  }

  function SpinAll(v: seq<Point>, c: real, s: real): (r: seq<Point>)
    ensures |r| == |v|
  {
    seq(|v|, i requires 0 <= i < |v| => Spin(v[i], c, s))
  }

  /** The per-vertex quantity whose differences telescope away under a translation by t. */
  function Potential(w: Weight, t: Point, p: Point): real {
    match w
    case One => t.y * p.x - t.x * p.y
    case SumX => t.y * p.x * p.x - t.x * p.x * p.y + 2.0 * t.x * t.y * p.x - 2.0 * t.x * t.x * p.y
    case SumY => t.y * p.x * p.y - t.x * p.y * p.y + 2.0 * t.y * t.y * p.x - 2.0 * t.x * t.y * p.y
  }

  /** The coefficient of the Shoelace term that a translation by t adds to each edge. */
  function Drift(w: Weight, t: Point): real {
    match w
    case One => 0.0
    case SumX => 3.0 * t.x
    case SumY => 3.0 * t.y
  }

  /**
    The polynomial identities behind TranslateEdge, one per weight, over plain
    coordinates. ShiftOne keeps the zero drift term 0.0 * cross so that all
    three have the shape of TranslateEdge's ensures.
   */
  lemma ShiftOne(a: real, b: real, px: real, py: real, qx: real, qy: real)
    ensures (px + a) * (qy + b) - (qx + a) * (py + b)
         == (px * qy - qx * py) + 0.0 * (px * qy - qx * py) + (b * px - a * py) - (b * qx - a * qy)
  {
  }

  lemma ShiftX(a: real, b: real, px: real, py: real, qx: real, qy: real)
    ensures ((px + a) + (qx + a)) * ((px + a) * (qy + b) - (qx + a) * (py + b))
         == (px + qx) * (px * qy - qx * py) + 3.0 * a * (px * qy - qx * py)
            + (b * px * px - a * px * py + 2.0 * a * b * px - 2.0 * a * a * py)
            - (b * qx * qx - a * qx * qy + 2.0 * a * b * qx - 2.0 * a * a * qy)
  {
  }

  lemma ShiftY(a: real, b: real, px: real, py: real, qx: real, qy: real)
    ensures ((py + b) + (qy + b)) * ((px + a) * (qy + b) - (qx + a) * (py + b))
         == (py + qy) * (px * qy - qx * py) + 3.0 * b * (px * qy - qx * py)
            + (b * px * py - a * py * py + 2.0 * b * b * px - 2.0 * a * b * py)
            - (b * qx * qy - a * qy * qy + 2.0 * b * b * qx - 2.0 * a * b * qy)
  {
  }

  /**
    Moving both ends of an edge by t adds Drift times the edge's Shoelace term
    and the difference of the ends' potentials.
   */
  lemma TranslateEdge(w: Weight, t: Point, p: Point, q: Point)
    ensures EdgeTerm(w, Translate(p, t), Translate(q, t))
         == EdgeTerm(w, p, q) + Drift(w, t) * Cross(p, q) + Potential(w, t, p) - Potential(w, t, q)
  {
    match w
    case One => ShiftOne(t.x, t.y, p.x, p.y, q.x, q.y);
    case SumX => ShiftX(t.x, t.y, p.x, p.y, q.x, q.y);
    case SumY => ShiftY(t.x, t.y, p.x, p.y, q.x, q.y);
  }

  /** The sum of a list of numbers, taken from the front. */
  function Total(a: seq<real>): real {
    if |a| == 0 then 0.0 else Total(a[..|a| - 1]) + a[|a| - 1]
  }

  /** The terms of the cyclic sum over v[..n], edge by edge. */
  function Edges(w: Weight, v: seq<Point>, n: nat): (e: seq<real>)
    requires n <= |v|
    ensures |e| == n
  {
    seq(n, i requires 0 <= i < n => EdgeAt(w, v, n, i))
  }

  lemma {:induction false} CyclicSumIsTotal(w: Weight, v: seq<Point>, n: nat, k: nat)
    requires k <= n <= |v|
    ensures CyclicSum(w, v, n, k) == Total(Edges(w, v, n)[..k])
  {
    if k > 0 {
      CyclicSumIsTotal(w, v, n, k - 1);
      assert Edges(w, v, n)[..k][..k - 1] == Edges(w, v, n)[..k - 1];
    }
  }

  /** The cyclic sum over the whole of v, as the total of its edge terms. */
  lemma CyclicSumIsTotalOfEdges(w: Weight, v: seq<Point>)
    ensures CyclicSum(w, v, |v|, |v|) == Total(Edges(w, v, |v|))
  {
    CyclicSumIsTotal(w, v, |v|, |v|);
    assert Edges(w, v, |v|)[..|v|] == Edges(w, v, |v|);
  }

  lemma {:induction false} TotalOfSum(a: seq<real>, b: seq<real>, c: seq<real>, e: seq<real>)
    requires |a| == |b| == |c| == |e|
    requires forall i :: 0 <= i < |a| ==> a[i] == b[i] + c[i] + e[i]
    ensures Total(a) == Total(b) + Total(c) + Total(e)
  {
    if |a| > 0 {
      var m := |a| - 1;
      TotalOfSum(a[..m], b[..m], c[..m], e[..m]);
    }
  }

  lemma {:induction false} TotalOfScaled(a: seq<real>, d: real, b: seq<real>)
    requires |a| == |b|
    requires forall i :: 0 <= i < |a| ==> a[i] == d * b[i]
    ensures Total(a) == d * Total(b)
  {
    if |a| > 0 {
      var m := |a| - 1;
      TotalOfScaled(a[..m], d, b[..m]);
    }
  }

  /** The differences p[i] - p[i + 1] of a cyclic list sum to the first minus the k-th. */
  lemma {:induction false} TotalTelescopes(a: seq<real>, p: seq<real>, k: nat)
    requires |a| == |p| && 0 < k <= |a|
    requires forall i :: 0 <= i < |a| ==> a[i] == p[i] - p[Next(i, |a|)]
    ensures Total(a[..k]) == p[0] - p[if k == |a| then 0 else k]
  {
    if k > 1 {
      TotalTelescopes(a, p, k - 1);
      assert a[..k][..k - 1] == a[..k - 1];
    } else {
      assert a[..1][..0] == [];
    }
  }

  /** Per edge, d times the edge's Shoelace term; d is the Drift of a translation. */
  function DriftTerms(d: real, v: seq<Point>): (e: seq<real>)
    ensures |e| == |v|
  {
    seq(|v|, i requires 0 <= i < |v| => d * Cross(v[i], v[Next(i, |v|)]))
  }

  function Potentials(w: Weight, v: seq<Point>, t: Point): (e: seq<real>)
    ensures |e| == |v|
  {
    seq(|v|, i requires 0 <= i < |v| => Potential(w, t, v[i]))
  }

  /** Per edge, the potential of its start minus the potential of its end. */
  function PotentialDrops(w: Weight, v: seq<Point>, t: Point): (e: seq<real>)
    ensures |e| == |v|
  {
    seq(|v|, i requires 0 <= i < |v| => Potential(w, t, v[i]) - Potential(w, t, v[Next(i, |v|)]))
  }

  /** Edge i of the translated polygon, split into the original edge, its drift and its potential drop. */
  lemma TranslateEdgeAt(w: Weight, v: seq<Point>, t: Point, i: nat)
    requires i < |v|
    ensures Edges(w, TranslateAll(v, t), |v|)[i]
         == Edges(w, v, |v|)[i] + DriftTerms(Drift(w, t), v)[i] + PotentialDrops(w, v, t)[i]
  {
    var u := TranslateAll(v, t);
    var j := Next(i, |v|);
    assert u[i] == Translate(v[i], t) && u[j] == Translate(v[j], t);
    match w
    case One => TranslateEdge(One, t, v[i], v[j]);
    case SumX => TranslateEdge(SumX, t, v[i], v[j]);
    case SumY => TranslateEdge(SumY, t, v[i], v[j]);
  }

  lemma TranslateEdges(w: Weight, v: seq<Point>, t: Point)
    ensures Total(Edges(w, TranslateAll(v, t), |v|))
         == Total(Edges(w, v, |v|)) + Total(DriftTerms(Drift(w, t), v)) + Total(PotentialDrops(w, v, t))
  {
    forall i | 0 <= i < |v|
      ensures Edges(w, TranslateAll(v, t), |v|)[i]
           == Edges(w, v, |v|)[i] + DriftTerms(Drift(w, t), v)[i] + PotentialDrops(w, v, t)[i]
    {
      TranslateEdgeAt(w, v, t, i);
    }
    TotalOfSum(Edges(w, TranslateAll(v, t), |v|), Edges(w, v, |v|), DriftTerms(Drift(w, t), v), PotentialDrops(w, v, t));
  }

  /** Scaling every Shoelace term by d scales their total by d. */
  lemma DriftTotal(d: real, v: seq<Point>)
    ensures Total(DriftTerms(d, v)) == d * ShoelaceSum(v)
  {
    var a, e := DriftTerms(d, v), Edges(One, v, |v|);
    forall i | 0 <= i < |v|
      ensures a[i] == d * e[i]
    {
      SameProduct(d, Cross(v[i], v[Next(i, |v|)]), e[i]);
    }
    TotalOfScaled(a, d, e);
    CyclicSumIsTotalOfEdges(One, v);
    Rescale(Total(a), d, Total(e), ShoelaceSum(v));
  }

  lemma SameProduct(d: real, x: real, y: real)
    requires x == y
    ensures d * x == d * y
  {
  }

  lemma Rescale(x: real, d: real, y: real, z: real)
    requires x == d * y && y == z
    ensures x == d * z
  {
  }

  lemma DropsCancel(w: Weight, v: seq<Point>, t: Point)
    ensures Total(PotentialDrops(w, v, t)) == 0.0
  {
    var a := PotentialDrops(w, v, t);
    if |v| > 0 {
      TotalTelescopes(a, Potentials(w, v, t), |v|);
      assert a[..|v|] == a;
    }
  }

  lemma TranslateSum(w: Weight, v: seq<Point>, t: Point)
    ensures var u := TranslateAll(v, t);
      CyclicSum(w, u, |u|, |u|) == CyclicSum(w, v, |v|, |v|) + Drift(w, t) * ShoelaceSum(v)
  {
    CyclicSumIsTotalOfEdges(w, TranslateAll(v, t));
    CyclicSumIsTotalOfEdges(w, v);
    TranslateEdges(w, v, t);
    DriftTotal(Drift(w, t), v);
    DropsCancel(w, v, t);
  }

  /** The Shoelace sum and the two moments of a polygon, together. */
  datatype Sums = Sums(twice: real, mx: real, my: real)

  function SumsOf(v: seq<Point>): Sums {
    Sums(ShoelaceSum(v), MomentX(v), MomentY(v))
  }

  /** The sums of a polygon moved by t, computed from the sums before the move. */
  function Shifted(m: Sums, t: Point): Sums {
    Sums(m.twice, m.mx + Drift(SumX, t) * m.twice, m.my + Drift(SumY, t) * m.twice)
  }

  /** The sums of a polygon spun by (c, s) about the origin, computed from the sums before. */
  function Spun(m: Sums, c: real, s: real): Sums {
    Sums(m.twice, c * m.mx - s * m.my, s * m.mx + c * m.my)
  }

  /** The centroid read off the sums, as Centroid does. */
  function CentroidOf(m: Sums): Point
    requires m.twice / 2.0 != 0.0
  {
    Point(m.mx / (6.0 * (m.twice / 2.0)), m.my / (6.0 * (m.twice / 2.0)))
  }

  /** The three per-weight translation identities, gathered into one equation on Sums. */
  lemma ShiftedParts(twice: real, mx: real, my: real, moved: Sums, t: Point)
    requires moved.twice == twice + Drift(One, t) * twice
    requires moved.mx == mx + Drift(SumX, t) * twice
    requires moved.my == my + Drift(SumY, t) * twice
    ensures moved == Shifted(Sums(twice, mx, my), t)
  {
  }

  /** A translation keeps the Shoelace sum and shifts each moment by 3 * offset * Shoelace sum. */
  lemma TranslateSums(v: seq<Point>, t: Point)
    ensures SumsOf(TranslateAll(v, t)) == Shifted(SumsOf(v), t)
  {
    TranslateSum(One, v, t);
    TranslateSum(SumX, v, t);
    TranslateSum(SumY, v, t);
    ShiftedParts(ShoelaceSum(v), MomentX(v), MomentY(v), SumsOf(TranslateAll(v, t)), t);
  }

  /** A spin by (c, s) with c*c + s*s == 1 keeps the cross product of two position vectors. */
  lemma SpinCross(c: real, s: real, px: real, py: real, qx: real, qy: real)
    requires c * c + s * s == 1.0
    ensures (c * px - s * py) * (s * qx + c * qy) - (c * qx - s * qy) * (s * px + c * py) == px * qy - qx * py
  {
    var k := c * c + s * s;
    assert (c * px - s * py) * (s * qx + c * qy) - (c * qx - s * qy) * (s * px + c * py) == k * (px * qy - qx * py);
    ScaleByOne(k, px * qy - qx * py);
  }

  lemma SpinCrossAt(c: real, s: real, p: Point, q: Point)
    requires IsTurn(c, s)
    ensures Cross(Spin(p, c, s), Spin(q, c, s)) == Cross(p, q)
  {
    SpinCross(c, s, p.x, p.y, q.x, q.y);
  }

  /** The weights of a spun edge times the edge's own cross product, by distributivity. */
  lemma SpinWeights(c: real, s: real, p: Point, q: Point)
    ensures (Spin(p, c, s).x + Spin(q, c, s).x) * Cross(p, q) == c * EdgeTerm(SumX, p, q) - s * EdgeTerm(SumY, p, q)
    ensures (Spin(p, c, s).y + Spin(q, c, s).y) * Cross(p, q) == s * EdgeTerm(SumX, p, q) + c * EdgeTerm(SumY, p, q)
  {
    var ax, ay := p.x + q.x, p.y + q.y;
    assert Spin(p, c, s).x + Spin(q, c, s).x == c * ax - s * ay;
    assert Spin(p, c, s).y + Spin(q, c, s).y == s * ax + c * ay;
    Distribute(c, s, ax, ay, Spin(p, c, s).x + Spin(q, c, s).x, Spin(p, c, s).y + Spin(q, c, s).y, Cross(p, q));
  }

  lemma Distribute(c: real, s: real, ax: real, ay: real, rx: real, ry: real, k: real)
    requires rx == c * ax - s * ay && ry == s * ax + c * ay
    ensures rx * k == c * (ax * k) - s * (ay * k)
    ensures ry * k == s * (ax * k) + c * (ay * k)
  {
  }

  /** A spin keeps each edge's Shoelace term and turns its pair of moment terms. */
  lemma SpinEdge(c: real, s: real, p: Point, q: Point)
    requires IsTurn(c, s)
    ensures EdgeTerm(One, Spin(p, c, s), Spin(q, c, s)) == EdgeTerm(One, p, q)
    ensures EdgeTerm(SumX, Spin(p, c, s), Spin(q, c, s)) == c * EdgeTerm(SumX, p, q) - s * EdgeTerm(SumY, p, q)
    ensures EdgeTerm(SumY, Spin(p, c, s), Spin(q, c, s)) == s * EdgeTerm(SumX, p, q) + c * EdgeTerm(SumY, p, q)
  {
    var rp, rq := Spin(p, c, s), Spin(q, c, s);
    SpinCrossAt(c, s, p, q);
    SpinWeights(c, s, p, q);
    SameProduct(rp.x + rq.x, Cross(rp, rq), Cross(p, q));
    SameProduct(rp.y + rq.y, Cross(rp, rq), Cross(p, q));
  }

  /** The three sums over the first k edges of the cyclic polygon v[..n]. */
  function PartialSums(v: seq<Point>, n: nat, k: nat): Sums
    requires k <= n <= |v|
  {
    Sums(CyclicSum(One, v, n, k), CyclicSum(SumX, v, n, k), CyclicSum(SumY, v, n, k))
  }

  /** The contributions of the edge from p to q to the three sums. */
  function EdgeSums(p: Point, q: Point): Sums {
    Sums(EdgeTerm(One, p, q), EdgeTerm(SumX, p, q), EdgeTerm(SumY, p, q))
  }

  function Add(a: Sums, b: Sums): Sums {
    Sums(a.twice + b.twice, a.mx + b.mx, a.my + b.my)
  }

  lemma PartialSumsStep(v: seq<Point>, n: nat, k: nat)
    requires 0 < k <= n <= |v|
    ensures PartialSums(v, n, k) == Add(PartialSums(v, n, k - 1), EdgeSums(v[k - 1], v[Next(k - 1, n)]))
  {
  }

  lemma SpunParts(a: real, b: real, d: real, c: real, s: real)
    ensures Spun(Sums(a, b, d), c, s) == Sums(a, c * b - s * d, s * b + c * d)
  {
  }

  /** Spinning the sums distributes over adding them. */
  lemma SpunAdd(a: Sums, b: Sums, c: real, s: real)
    ensures Spun(Add(a, b), c, s) == Add(Spun(a, c, s), Spun(b, c, s))
  {
  }

  lemma SpunZero(c: real, s: real)
    ensures Spun(Sums(0.0, 0.0, 0.0), c, s) == Sums(0.0, 0.0, 0.0)
  {
  }

  lemma SpinEdgeSums(c: real, s: real, p: Point, q: Point)
    requires IsTurn(c, s)
    ensures EdgeSums(Spin(p, c, s), Spin(q, c, s)) == Spun(EdgeSums(p, q), c, s)
  {
    SpinEdge(c, s, p, q);
    SpunParts(EdgeTerm(One, p, q), EdgeTerm(SumX, p, q), EdgeTerm(SumY, p, q), c, s);
  }

  lemma {:induction false} SpinPartialSums(v: seq<Point>, c: real, s: real, n: nat, k: nat)
    requires IsTurn(c, s) && k <= n <= |v|
    ensures PartialSums(SpinAll(v, c, s), n, k) == Spun(PartialSums(v, n, k), c, s)
  {
    if k > 0 {
      var u := SpinAll(v, c, s);
      var p, q := v[k - 1], v[Next(k - 1, n)];
      assert u[k - 1] == Spin(p, c, s) && u[Next(k - 1, n)] == Spin(q, c, s);
      SpinPartialSums(v, c, s, n, k - 1);
      PartialSumsStep(u, n, k);
      PartialSumsStep(v, n, k);
      SpinEdgeSums(c, s, p, q);
      SpunAdd(PartialSums(v, n, k - 1), EdgeSums(p, q), c, s);
    } else {
      SpunZero(c, s);
    }
  }

  /** Rotating about a centre is translating the centre to the origin, spinning, and translating back. */
  lemma RotateAllSplits(v: seq<Point>, c: real, s: real, o: Point)
    ensures RotateAll(v, c, s, o) == TranslateAll(SpinAll(TranslateAll(v, Negate(o)), c, s), o)
  {
    var r := TranslateAll(SpinAll(TranslateAll(v, Negate(o)), c, s), o);
    forall i | 0 <= i < |v|
      ensures RotateAll(v, c, s, o)[i] == r[i]
    {
      var p := v[i];
      assert r[i] == Translate(Spin(Translate(p, Negate(o)), c, s), o);
    }
  }

  lemma SpinSums(u: seq<Point>, c: real, s: real)
    requires IsTurn(c, s)
    ensures SumsOf(SpinAll(u, c, s)) == Spun(SumsOf(u), c, s)
  {
    SpinPartialSums(u, c, s, |u|, |u|);
  }

  /** Shifting by -o, spinning by (c, s) and shifting back by o turns the centroid about o. */
  lemma TurnedCentroid(m: Sums, c: real, s: real, o: Point)
    requires m.twice / 2.0 != 0.0
    ensures Shifted(Spun(Shifted(m, Negate(o)), c, s), o).twice == m.twice
    ensures CentroidOf(Shifted(Spun(Shifted(m, Negate(o)), c, s), o)) == RotatePoint(CentroidOf(m), c, s, o)
  {
    var r := Shifted(Spun(Shifted(m, Negate(o)), c, s), o);
    var d := 6.0 * (m.twice / 2.0);
    var gx, gy := m.mx / d, m.my / d;
    assert m.mx == gx * d;
    assert m.my == gy * d;
    assert r.mx == ((gx - o.x) * c - (gy - o.y) * s + o.x) * d;
    assert r.my == ((gx - o.x) * s + (gy - o.y) * c + o.y) * d;
  }

  /** The sums of a polygon rotated about o, from the sums before. */
  lemma RotateSums(v: seq<Point>, c: real, s: real, o: Point)
    requires IsTurn(c, s)
    ensures SumsOf(RotateAll(v, c, s, o)) == Shifted(Spun(Shifted(SumsOf(v), Negate(o)), c, s), o)
  {
    var u := TranslateAll(v, Negate(o));
    var w := SpinAll(u, c, s);
    RotateAllSplits(v, c, s, o);
    TranslateSums(v, Negate(o));
    SpinSums(u, c, s);
    TranslateSums(w, o);
  }

  /** Rotation keeps the signed area, hence the area. */
  lemma RotatePreservesArea(v: seq<Point>, c: real, s: real, o: Point)
    requires IsTurn(c, s)
    ensures SignedArea(RotateAll(v, c, s, o)) == SignedArea(v)
    ensures Area(RotateAll(v, c, s, o)) == Area(v)
  {
    RotateSums(v, c, s, o);
  }

  /** The centroid of the rotated polygon is the rotated centroid. */
  lemma RotateCentroid(v: seq<Point>, c: real, s: real, o: Point)
    requires IsTurn(c, s) && SignedArea(v) != 0.0
    ensures SignedArea(RotateAll(v, c, s, o)) != 0.0
    ensures Centroid(RotateAll(v, c, s, o)) == RotatePoint(Centroid(v), c, s, o)
  {
    RotateSums(v, c, s, o);
    TurnedCentroid(SumsOf(v), c, s, o);
  }

  /** Rotating a polygon about its own centroid leaves the centroid in place. */
  lemma RotateAboutCentroid(v: seq<Point>, c: real, s: real)
    requires IsTurn(c, s) && SignedArea(v) != 0.0
    ensures SignedArea(RotateAll(v, c, s, Centroid(v))) == SignedArea(v)
    ensures Centroid(RotateAll(v, c, s, Centroid(v))) == Centroid(v)
  {
    RotatePreservesArea(v, c, s, Centroid(v));
    RotateCentroid(v, c, s, Centroid(v));
    RotateFixesCentre(Centroid(v), c, s);
  }

  /** Edge i of the reversed polygon is edge n-1-i of the original, walked backwards. */
  lemma ReversedEdge(w: Weight, points: seq<Point>, i: nat)
    requires i < |points| + 1
    ensures EdgeAt(w, Vertices(Reverse(points)), |points| + 1, i)
         == -EdgeAt(w, Vertices(points), |points| + 1, |points| - i)
  {
    var v, r := Vertices(points), Vertices(Reverse(points));
    var n, m := |points| + 1, |points|;
    var j := Next(i, n);
    if i == 0 {
      if m > 0 {
        ReversedVertex(points, 1);
      }
    } else {
      ReversedVertex(points, i);
      if j != 0 {
        ReversedVertex(points, j);
      }
    }
    EdgeTermFlip(w, r[i], r[j]);
  }

  /** Vertex i of the reversed polygon is vertex |points| + 1 - i of the original; the origin stays first. */
  lemma ReversedVertex(points: seq<Point>, i: nat)
    requires 0 < i <= |points|
    ensures Vertices(Reverse(points))[i] == Vertices(points)[|points| + 1 - i]
  {
  }

  /** Walking an edge backwards negates its term. */
  lemma EdgeTermFlip(w: Weight, a: Point, b: Point)
    ensures EdgeTerm(w, b, a) == -EdgeTerm(w, a, b)
  {
    assert Cross(b, a) == -Cross(a, b);
    match w
    case One =>
    case SumX => SameProduct(b.x + a.x, Cross(b, a), -Cross(a, b));
    case SumY => SameProduct(b.y + a.y, Cross(b, a), -Cross(a, b));
  }

  lemma {:induction false} ReversedCyclicSum(w: Weight, points: seq<Point>, k: nat)
    requires k <= |points| + 1
    ensures CyclicSum(w, Vertices(Reverse(points)), |points| + 1, k)
         == CyclicSum(w, Vertices(points), |points| + 1, |points| + 1 - k)
            - CyclicSum(w, Vertices(points), |points| + 1, |points| + 1)
  {
    if k > 0 {
      var v, n := Vertices(points), |points| + 1;
      ReversedCyclicSum(w, points, k - 1);
      ReversedEdge(w, points, k - 1);
      assert CyclicSum(w, v, n, n + 1 - k) == CyclicSum(w, v, n, n - k) + EdgeAt(w, v, n, n - k);
    }
  }

  /**
    Giving the caller's points in the opposite order negates the signed area
    and both moments, so the area and the centroid stay where they are.
   */
  lemma ReverseKeepsCentroid(points: seq<Point>)
    ensures SignedArea(Vertices(Reverse(points))) == -SignedArea(Vertices(points))
    ensures Area(Vertices(Reverse(points))) == Area(Vertices(points))
    ensures SignedArea(Vertices(points)) != 0.0 ==>
      Centroid(Vertices(Reverse(points))) == Centroid(Vertices(points))
  {
    var n := |points| + 1;
    ReversedCyclicSum(One, points, n);
    ReversedCyclicSum(SumX, points, n);
    ReversedCyclicSum(SumY, points, n);
  }
}
