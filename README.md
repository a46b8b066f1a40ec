# Polygon geometry of pyroom, in Dafny

pyroom lays out rooms and furniture as polygons in the plane. A `Polygon` is
built from an ordered list of caller points to which the origin `(0, 0)` is
prepended. Its area comes from the Shoelace formula, a sum of cross products
over consecutive vertices with the index wrapping from the last vertex back to
the first. Its centroid comes from two cross-product-weighted coordinate sums
divided by six times the area. The newest copy can also rotate the polygon
about its centroid.

The repository holds three prototype copies of this class. Each is modelled as
its own module with a `Polygon` class whose fields are the Python attributes:

- `OldRoom` (old/20201108.room.py)
  - Construction computes the unsigned area, the signed area and, from the
    signed area, the centroid.
  - `Rotate` replaces the vertex list by its image under a rotation about the
    stored centroid.
  - The stored area and centroid stay correct after a rotation; the class
    invariant `Valid()` states this, and every method keeps it.
- `SpaciousRoom` (spacious/room.py)
  - Area and centroid are computed on request into attributes that do not
    exist before.
  - The centroid is divided by the unsigned area.
- `PyroomPolygon` (pyroom/room/polygon.py)
  - The vertex count is taken from the caller's points, so the Shoelace loop
    never reaches the last caller point.

All three share the specification in `Geometry`:

- `CyclicSum(w, v, n, k)` is the sum of the first `k` edges of the cycle
  `v[..n]`. It is weighted by `One` for the Shoelace sum and by `SumX`/`SumY`
  for the centroid moments.
- `SignedArea`, `Area`, `MomentX`, `MomentY` and `Centroid` are defined from
  it.

Each accumulating loop of the source becomes a `while` loop whose invariant
ties the running total to `CyclicSum`; the loops that build lists keep an
invariant against `Vertices` or `RotateAll`. `Rotation` holds the point rotation. `Invariance`
proves how the sums behave when a polygon is translated, turned about the
origin, rotated about any centre, or walked in the opposite order.

Coordinates are exact `real`s. The source's high-precision `Decimal`
arithmetic aims at this idealisation. The angle enters through its cosine `c`
and its sine `s`, with `c*c + s*s == 1` wherever a rotation must be rigid.
Python exceptions become values of `Error`:

- `DivisionByZero` covers a division by a zero area: Decimal's
  DivisionByZero or InvalidOperation traps, or float ZeroDivisionError.
- `MissingAttribute` covers an AttributeError from reading `area` before
  `calc_area` ran.

## Model

| member | source | states |
|---|---|---|
| Geometry.Vertices | old/20201108.room.py:55-61 | the vertex list is one longer than the caller's points, starts at the origin and continues with the points in order |
| Geometry.NextIsMod | old/20201108.room.py:101-103 | the wrapped index used by the spec, Next(i, n), is Python's (i + 1) % n for every index below n |
| Geometry.Area | old/20201108.room.py:116-119 | the unsigned area is non-negative and is the signed area or its negation |
| Geometry.HalfOfAbs | spacious/room.py:50 | abs(sum) * 0.5, as the source scales, is the absolute value of half the sum, so the stored value is Area |
| Geometry.CyclicSumCut | pyroom/room/polygon.py:59-62 | a sum wrapping at n reads only the first n vertices: it equals the sum over the list cut at n |
| Geometry.AddMomentXTerms | old/20201108.room.py:144-147 | the four c_x updates of one edge add exactly (x_i + x_j) * (x_i*y_j - x_j*y_i) |
| Geometry.AddMomentYTerms | old/20201108.room.py:149-152 | the four c_y updates of one edge add exactly (y_i + y_j) * (x_i*y_j - x_j*y_i) |
| Geometry.RectangleSums | spacious/tests/test_room.py:12-18 | the 2 x 3 test rectangle has Shoelace sum 12, moments 36 and 54, signed area 6 and centroid (1, 1.5) |
| Geometry.ClockwiseRectangleSums | old/20201108.room.py:121-160 | the same rectangle walked clockwise has signed area -6, moments -36 and -54, and the same centroid (1, 1.5) |
| Rotation.RotatePoint | old/20201108.room.py:162-192 | the offset of the result from the centre o is the offset of p rotated by the matrix ((c, -s), (s, c)); the centre maps to itself; the centre defaults to (0, 0) |
| Rotation.RotateAll | old/20201108.room.py:81-85 | the rotated list has the same length as the vertex list and element i is vertex i rotated about o |
| Rotation.RotateAboutOrigin | old/20201108.room.py:163 | about the default origin (0, 0) the rotation is the plain rotation matrix (x*c - y*s, x*s + y*c) |
| Rotation.RotateFixesCentre | old/20201108.room.py:180-186 | the centre of rotation is a fixed point |
| Rotation.RotateByZero | old/20201108.room.py:180-186 | the zero angle (c = 1, s = 0) returns every point unchanged |
| Rotation.RotatePreservesDistance | old/20201108.room.py:180-186 | when c*c + s*s == 1 the rotated point has the same squared distance to the centre as the original |
| Rotation.RotateRoundTrip | old/20201108.room.py:180-186 | rotating by (c, s) and then by (c, -s) about the same centre gives back the original point |
| Rotation.RotateAllRoundTrip | old/20201108.room.py:81-85 | the round trip of a whole vertex list gives back the same list: same length, order and points |
| Rotation.RotateExample | tests/test_optimize.py:12-15 | (2, 3) rotated about (3, 4) with the cosine and sine of 1.22173 rad to five places lies within 1e-4 of (3.5977, 2.7183) in each coordinate |
| Invariance.TranslateEdge | old/20201108.room.py:180-186 | moving an edge by t adds Drift(w, t) times its Shoelace term plus a difference of potentials of its two ends |
| Invariance.TranslateSums | old/20201108.room.py:180-186 | a translation keeps the Shoelace sum and shifts each moment by 3 * offset * Shoelace sum |
| Invariance.SpinEdge | old/20201108.room.py:185-186 | a turn about the origin keeps each edge's cross product and turns its pair of moment terms by the same (c, s) |
| Invariance.SpinPartialSums | old/20201108.room.py:185-186 | for every prefix of edges, the sums of the turned polygon are the turned sums of the original |
| Invariance.RotateAllSplits | old/20201108.room.py:180-186 | rotating about o is moving o to the origin, turning, and moving back |
| Invariance.RotateSums | old/20201108.room.py:75-85 | the Shoelace sum and moments of a polygon rotated about o, computed from those before the rotation |
| Invariance.TurnedCentroid | old/20201108.room.py:154-155 | the centroid read off the rotated sums is the original centroid rotated about o |
| Invariance.RotatePreservesArea | old/20201108.room.py:75-85 | rotation keeps the signed area and the area of the vertex list |
| Invariance.RotateCentroid | old/20201108.room.py:75-85 | the centroid of the rotated vertex list is the rotated centroid |
| Invariance.RotateAboutCentroid | old/20201108.room.py:75-85 | rotating about the polygon's own centroid keeps its signed area and its centroid, so the stored attributes stay correct |
| Invariance.ReversedEdge | old/20201108.room.py:136-152 | edge i of the polygon of the reversed points is edge n-1-i of the original walked backwards, with the opposite term |
| Invariance.ReversedCyclicSum | old/20201108.room.py:136-152 | every prefix sum of the reversed polygon is the matching suffix sum of the original, negated |
| Invariance.ReverseKeepsCentroid | old/20201108.room.py:136-155 | reversing the caller's points negates the signed area, keeps the area and, with the signed-area division, keeps the centroid |
| OldRoom.Polygon.constructor | old/20201108.room.py:40-67 | vertices are the origin then the points, num_vertices is len(points) + 1, area is the unsigned area and centroid the centroid of the vertices |
| OldRoom.Polygon.Create | old/20201108.room.py:64-67 | construction fails with a division by zero exactly when the signed area is zero, and otherwise yields a valid polygon over the origin and the points |
| OldRoom.Polygon.CalcArea | old/20201108.room.py:87-119 | signed: half the Shoelace sum over all edges, the last-to-first included; unsigned: its absolute value, never negative |
| OldRoom.Polygon.CalcCentroid | old/20201108.room.py:121-160 | fails with DivisionByZero exactly when the given area is zero, and otherwise returns the two moments over six times that area |
| OldRoom.Polygon.Rotate | old/20201108.room.py:75-85 | vertices become their rotations about the stored centroid, in the same order; area, centroid and count are unchanged and still describe the new vertices |
| OldRoom.Polygon.GetVertices | old/20201108.room.py:197-198 | returns the vertex list, whose length is num_vertices |
| OldRoom.Polygon.GetArea | old/20201108.room.py:200-201 | returns the area of the current vertices, also after rotations, never negative |
| OldRoom.QuarterTurnExample | old/20201108.room.py:75-85 | the test rectangle turned a quarter turn about (1, 1.5) has corners (2.5, 0.5), (2.5, 2.5), (-0.5, 2.5), (-0.5, 0.5) and keeps signed area 6 and centroid (1, 1.5) |
| OldRoom.ClockwiseExample | old/20201108.room.py:64-67 | constructing from the clockwise rectangle stores area 6 and centroid (1, 1.5) |
| SpaciousRoom.UnsignedCentroidSign | spacious/room.py:52-80 | dividing by the unsigned area gives the centroid for counter-clockwise vertices and the centroid reflected through the origin for clockwise ones |
| SpaciousRoom.ReverseNegatesCentroid | spacious/room.py:52-80 | giving the points in the opposite order keeps the area and reflects this copy's centroid through the origin |
| SpaciousRoom.ScaleByInverse | spacious/room.py:68 | multiplying a sum by 1 / (6 * area) divides it by 6 * area |
| SpaciousRoom.Polygon.constructor | spacious/room.py:14-29 | vertices are the origin then the points, num_vertices is len(points) + 1, and no area or centroid exists yet |
| SpaciousRoom.Polygon.CalcArea | spacious/room.py:40-50 | stores half the absolute Shoelace sum over all edges, never negative, and changes nothing else |
| SpaciousRoom.Polygon.CalcCentroid | spacious/room.py:52-80 | fails on a missing area and then on a zero area, storing nothing; otherwise stores the moments over six times the unsigned area and changes nothing else |
| SpaciousRoom.Polygon.GetVertices | spacious/room.py:93-94 | returns the vertex list, which starts at the origin and has num_vertices elements |
| SpaciousRoom.Polygon.GetArea | spacious/room.py:96-97 | fails before CalcArea has run; afterwards returns the non-negative area of the vertices |
| SpaciousRoom.ConcaveArea | spacious/tests/test_room.py:20-27 | the concave test polygon has Shoelace sum 22.7, area 11.35, moments 87.55 and 48.82, and centroid (87.55 / 68.1, 48.82 / 68.1), about (1.2856, 0.7169), under both the signed and this copy's unsigned division |
| SpaciousRoom.AreaExamples | spacious/tests/test_room.py:68-73 | the areas the test suite expects: 6.0 for the rectangle and 11.35 for the concave polygon |
| SpaciousRoom.ClockwiseCentroidExample | spacious/room.py:68-79 | for the clockwise rectangle this copy's centroid is (-1, -1.5) while the centroid is (1, 1.5) |
| PyroomPolygon.Polygon.constructor | pyroom/room/polygon.py:15-31 | vertices are the origin then the points, num_vertices is len(points), one less than the list, and no area exists yet |
| PyroomPolygon.Polygon.CalcArea | pyroom/room/polygon.py:54-63 | stores the area of the first num_vertices vertices, wrapping at num_vertices, never negative, and changes nothing else |
| PyroomPolygon.Polygon.GetVertices | pyroom/room/polygon.py:42-43 | returns the vertex list, which starts at the origin and is one longer than num_vertices |
| PyroomPolygon.Polygon.GetArea | pyroom/room/polygon.py:51-52 | fails before CalcArea has run; afterwards returns the stored, non-negative area |
| PyroomPolygon.InnerEdges | pyroom/room/polygon.py:59-62 | the edges before the closing one are the same whether the indices wrap at n or at any larger m |
| PyroomPolygon.MissingTriangle | pyroom/room/polygon.py:58-63 | the stored area is that of the polygon without the last caller point; its Shoelace sum falls short by the cross product of the last two vertices |
| PyroomPolygon.RectangleAsWritten | pyroom/tests/test_polygon.py:35-37 | for the test rectangle the stored area is 3.0, while the rectangle's area is 6.0 |
| PyroomPolygon.NoPointsArea | pyroom/room/polygon.py:58-63 | with no points the list is the origin alone and the stored area is 0 |

## Left out

- Decimal and float arithmetic: the `Decimal(str(...))` and `float(...)` conversions, the precision context `CALC_PREC` and the `+x` rounding are not modelled. Arithmetic is exact.
- The sine and cosine of the angle are not computed. `Rotate` takes them as inputs `c` and `s`. Rigidity needs `c*c + s*s == 1`, which floating-point values satisfy only approximately.
- Rotation.RotateExample: it states the expected point only to within 1e-4, for a cosine and sine known to five places, because the source's values are floating-point approximations.
- OldRoom.Polygon.constructor: it requires a non-zero signed area, because a constructor cannot return an error. The source raises in that case. `OldRoom.Polygon.Create` models that failure, and so does `OldRoom.Polygon.CalcCentroid`.
- The `Room` and `Furniture` classes are not part of this model. They call `Polygon.__init__` without an instance and read an undefined attribute, so they cannot run.
- The stubs `set_segments`, `add_point` and `get_length` are not modelled. They reference names that do not exist or are empty.
- The `rotate` methods of spacious/room.py and pyroom/room/polygon.py are not modelled. One iterates a nonexistent attribute and does nothing; the other is empty.
- `__str__` is not modelled. It only formats Python tuples as text.
- pyroom/polygon.py, pyroom/geom_calc_2d.py, door.py, the configuration, logging, entry scripts and web views are not part of this model.
- The 56.3 test case of spacious/tests/test_room.py is not modelled. It is missing a comma in its point list, and its expected text contradicts its points.
- Aliasing is not modelled: `get_vertices` returns the list itself, so a caller could mutate it. The model returns the sequence by value.

## Findings

| source | as written | input that shows it | evidently intended | confidence | as-written member | corrected member |
|---|---|---|---|---|---|---|
| pyroom/room/polygon.py:31 | `num_vertices = len(points)`, one less than the vertex list, so `calc_area` wraps at `len(points)` and never reaches the last caller point | points (2, 0), (2, 3), (0, 3): the stored area is 3.0 | `num_vertices = len(self.vertices)`: area 6.0, as pyroom/tests/test_polygon.py:37 expects | not executed | PyroomPolygon.RectangleAsWritten | SpaciousRoom.Polygon.CalcArea |
| spacious/room.py:68 | the moment sums are scaled by `1 / (6 * self.area)`, where `self.area` is the unsigned area | points (0, 3), (2, 3), (2, 0), the rectangle walked clockwise: the stored centroid is (-1, -1.5) | divide by the signed area, as old/20201108.room.py:154-155 does: centroid (1, 1.5) for either orientation | not executed | SpaciousRoom.ClockwiseCentroidExample | OldRoom.Polygon.CalcCentroid |

The corrected members are proved to have the intended property:

- `SpaciousRoom.Polygon.CalcArea` wraps at the length of the whole vertex list and stores `Area(vertices)`. `SpaciousRoom.AreaExamples` proves that this is 6.0 for the rectangle.
- `OldRoom.Polygon.CalcCentroid` returns `Centroid`. `Invariance.ReverseKeepsCentroid` proves `Centroid` does not depend on the direction in which the vertices are walked. `OldRoom.ClockwiseExample` proves the clockwise rectangle gets (1, 1.5).
