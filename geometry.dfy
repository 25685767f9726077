/**
 * The part of SAT.js that the slope solver runs on: vectors, polygons with
 * cached edge normals, boxes, the collision Response, the projection of a
 * point set onto an axis, the separating-axis test and the polygon-polygon
 * test. Coordinates are reals, so the exact comparisons with 0 that the
 * solver makes keep their meaning; floating-point rounding is not modelled.
 */
module Geometry {
  import opened Wrappers

  /** Number.MAX_VALUE: where a projection range and a cleared Response's overlap start. */
  const MaxValue: real := 1.7976931348623157e308

  datatype Vector = Vector(x: real, y: real)

  const Zero := Vector(0.0, 0.0)

  function Dot(a: Vector, b: Vector): real { a.x * b.x + a.y * b.y }
  function Add(a: Vector, b: Vector): Vector { Vector(a.x + b.x, a.y + b.y) }
  function Sub(a: Vector, b: Vector): Vector { Vector(a.x - b.x, a.y - b.y) }
  /** `scale(s)` called with one factor scales both coordinates by it. */
  function Scale(v: Vector, s: real): Vector { Vector(v.x * s, v.y * s) }
  function Reverse(v: Vector): Vector { Vector(-v.x, -v.y) }
  /** `perp`: a quarter turn, (x, y) becomes (y, -x). */
  function Perp(v: Vector): Vector { Vector(v.y, -v.x) }
  /** `projectN`: the projection of v onto n, where n is meant to have unit length. */
  function ProjectN(v: Vector, n: Vector): Vector { Scale(n, Dot(v, n)) }

  function Abs(r: real): real { if r < 0.0 then -r else r }
  function Min(a: real, b: real): real { if a <= b then a else b }

  /** Along a unit vector, `projectN` splits v into a part along n and a part orthogonal to n. */
  lemma ProjectNSplits(v: Vector, n: Vector)
    requires Dot(n, n) == 1.0
    ensures Dot(Sub(v, ProjectN(v, n)), n) == 0.0
    ensures Add(ProjectN(v, n), Sub(v, ProjectN(v, n))) == v
    ensures Dot(ProjectN(v, n), n) == Dot(v, n)
  {
    var d := Dot(v, n);
    assert n.x * n.x + n.y * n.y == 1.0;
    calc {
      Dot(ProjectN(v, n), n);
      n.x * d * n.x + n.y * d * n.y;
      d * (n.x * n.x + n.y * n.y);
      d;
    }
  }

  /** Dot is linear in its first argument: moving a point moves its projection by the projected move. */
  lemma DotAdd(a: Vector, b: Vector, axis: Vector)
    ensures Dot(Add(a, b), axis) == Dot(a, axis) + Dot(b, axis)
  {}

  // ---------------------------------------------------------------- Polygon

  datatype PolygonData = PolygonData(pos: Vector, points: seq<Vector>, normals: seq<Vector>)

  /**
   * A polygon whose cached normals are in step with its points, which is
   * what `_recalc` maintains: one normal per point, for the edge leaving it.
   * Angle and offset are always 0 in the slope solver, so the calculated
   * points are the points.
   */
  type Polygon = p: PolygonData | |p.normals| == |p.points| witness PolygonData(Zero, [], [])

  /** The edge from point i to the next point, the last one closing back to the first. */
  function EdgeAt(points: seq<Vector>, i: nat): Vector
    requires i < |points|
  {
    Sub(if i < |points| - 1 then points[i + 1] else points[0], points[i])
  }

  /**
   * The normals `_recalc` caches: each edge turned by `perp` and normalised.
   * Normalising takes a square root, so it is a parameter of the model.
   */
  function Normals(points: seq<Vector>, normalize: Vector -> Vector): (ns: seq<Vector>)
    ensures |ns| == |points|
  {
    seq(|points|, i requires 0 <= i < |points| => normalize(Perp(EdgeAt(points, i))))
  }

  /** `new Polygon(pos, points)`. */
  function NewPolygon(pos: Vector, points: seq<Vector>, normalize: Vector -> Vector): Polygon
  {
    PolygonData(pos, points, Normals(points, normalize))
  }

  /** `Polygon._recalc`: fills the edge and normal arrays point by point. */
  method Recalc(points: seq<Vector>, normalize: Vector -> Vector) returns (edges: seq<Vector>, normals: seq<Vector>)
    ensures |edges| == |points| && normals == Normals(points, normalize)
    ensures forall i :: 0 <= i < |points| ==> edges[i] == EdgeAt(points, i) && normals[i] == normalize(Perp(edges[i]))
  {
    edges, normals := [], [];
    var i := 0;
    while i < |points|
      invariant 0 <= i <= |points|
      invariant |edges| == |normals| == i
      invariant forall k :: 0 <= k < i ==> edges[k] == EdgeAt(points, k)
      invariant forall k :: 0 <= k < i ==> normals[k] == normalize(Perp(EdgeAt(points, k)))
    {
      var p2 := if i < |points| - 1 then points[i + 1] else points[0];
      var e := Sub(p2, points[i]);
      edges := edges + [e];
      normals := normals + [normalize(Perp(e))];
      i := i + 1;
    }
  }

  /** The sum of the first k edge vectors. */
  function EdgeSum(points: seq<Vector>, k: nat): Vector
    requires k <= |points|
  {
    if k == 0 then Zero else Add(EdgeSum(points, k - 1), EdgeAt(points, k - 1))
  }

  /** The edges walk from the first point to the k-th; all of them together close the polygon. */
  lemma {:induction false} EdgesClose(points: seq<Vector>, k: nat)
    requires 0 < |points| && k <= |points|
    ensures k < |points| ==> EdgeSum(points, k) == Sub(points[k], points[0])
    ensures k == |points| ==> EdgeSum(points, k) == Zero
  {
    if k > 0 {
      EdgesClose(points, k - 1);
    }
  }

  /** A normal is perpendicular to its edge whenever normalising only rescales. */
  lemma NormalIsPerpendicular(points: seq<Vector>, normalize: Vector -> Vector, i: nat, k: real)
    requires i < |points|
    requires normalize(Perp(EdgeAt(points, i))) == Scale(Perp(EdgeAt(points, i)), k)
    ensures Dot(Normals(points, normalize)[i], EdgeAt(points, i)) == 0.0
  {
    var e := EdgeAt(points, i);
    calc {
      Dot(Normals(points, normalize)[i], e);
      e.y * k * e.x + (-e.x) * k * e.y;
      0.0;
    }
  }

  // -------------------------------------------------------------------- Box

  /** `new Box(pos, w, h).toPolygon()`: the rectangle's corners, clockwise on screen from the origin. */
  function BoxToPolygon(pos: Vector, w: real, h: real, normalize: Vector -> Vector): (p: Polygon)
    ensures p.pos == pos && |p.points| == 4
    ensures forall i :: 0 <= i < 4 ==> (p.points[i].x == 0.0 || p.points[i].x == w) && (p.points[i].y == 0.0 || p.points[i].y == h)
    ensures forall cx, cy :: cx in {0.0, w} && cy in {0.0, h} ==> Vector(cx, cy) in p.points
    ensures forall i :: 0 <= i < 4 ==> EdgeAt(p.points, i).x == 0.0 || EdgeAt(p.points, i).y == 0.0
  {
    NewPolygon(pos, [Zero, Vector(w, 0.0), Vector(w, h), Vector(0.0, h)], normalize)
  }

  // --------------------------------------------------------------- Response

  /** The observable fields of a Response. */
  datatype ResponseState = ResponseState(
    a: Option<Polygon>, b: Option<Polygon>,
    overlapN: Vector, overlapV: Vector, overlap: real,
    aInB: bool, bInA: bool)

  /** A collision response; it is reused across axis tests and accumulates the smallest overlap. */
  class Response {
    var a: Option<Polygon>
    var b: Option<Polygon>
    var overlapN: Vector
    var overlapV: Vector
    var overlap: real
    var aInB: bool
    var bInA: bool

    function State(): ResponseState
      reads this
    {
      ResponseState(a, b, overlapN, overlapV, overlap, aInB, bInA)
    }

    /** `new Response()`: no participants, zero vectors, then `clear`. */
    constructor ()
      ensures State() == ResponseState(None, None, Zero, Zero, MaxValue, true, true)
    {
      a, b := None, None;
      overlapN, overlapV := Zero, Zero;
      aInB, bInA := true, true;
      overlap := MaxValue;
    }

    /** `clear`: both containment flags back to true and the overlap back to MaxValue; nothing else changes. */
    method Clear()
      modifies this
      ensures State() == old(State()).(overlap := MaxValue, aInB := true, bInA := true)
    {
      aInB := true;
      bInA := true;
      overlap := MaxValue;
    }
  }

  // ------------------------------------------------------------- Projection

  /** The running minimum of `flattenPointsOn`, started at MaxValue. */
  function MinProjection(points: seq<Vector>, axis: Vector): real
  {
    if |points| == 0 then MaxValue
    else
      var m := MinProjection(points[..|points| - 1], axis);
      var d := Dot(points[|points| - 1], axis);
      if d < m then d else m
  }

  /** The running maximum of `flattenPointsOn`, started at -MaxValue. */
  function MaxProjection(points: seq<Vector>, axis: Vector): real
  {
    if |points| == 0 then -MaxValue
    else
      var m := MaxProjection(points[..|points| - 1], axis);
      var d := Dot(points[|points| - 1], axis);
      if d > m then d else m
  }

  /** The minimum is a lower bound of every projection, and is one of them unless it stayed at MaxValue. */
  lemma {:induction false} MinProjectionIsMinimum(points: seq<Vector>, axis: Vector)
    ensures MinProjection(points, axis) <= MaxValue
    ensures forall i :: 0 <= i < |points| ==> MinProjection(points, axis) <= Dot(points[i], axis)
    ensures MinProjection(points, axis) == MaxValue ||
      exists i :: 0 <= i < |points| && MinProjection(points, axis) == Dot(points[i], axis)
  {
    if |points| > 0 {
      var front := points[..|points| - 1];
      MinProjectionIsMinimum(front, axis);
      assert forall i :: 0 <= i < |front| ==> front[i] == points[i];
    }
  }

  /** The maximum is an upper bound of every projection, and is one of them unless it stayed at -MaxValue. */
  lemma {:induction false} MaxProjectionIsMaximum(points: seq<Vector>, axis: Vector)
    ensures MaxProjection(points, axis) >= -MaxValue
    ensures forall i :: 0 <= i < |points| ==> Dot(points[i], axis) <= MaxProjection(points, axis)
    ensures MaxProjection(points, axis) == -MaxValue ||
      exists i :: 0 <= i < |points| && MaxProjection(points, axis) == Dot(points[i], axis)
  {
    if |points| > 0 {
      var front := points[..|points| - 1];
      MaxProjectionIsMaximum(front, axis);
      assert forall i :: 0 <= i < |front| ==> front[i] == points[i];
    }
  }

  datatype Range = Range(lo: real, hi: real)

  function Flatten(points: seq<Vector>, axis: Vector): Range
  {
    Range(MinProjection(points, axis), MaxProjection(points, axis))
  }

  /** `flattenPointsOn`: one pass over the points keeping the smallest and the largest projection. */
  method FlattenPointsOn(points: seq<Vector>, normal: Vector) returns (lo: real, hi: real)
    ensures Range(lo, hi) == Flatten(points, normal)
    ensures forall i :: 0 <= i < |points| ==> lo <= Dot(points[i], normal) <= hi
  {
    lo, hi := MaxValue, -MaxValue;
    var i := 0;
    while i < |points|
      invariant 0 <= i <= |points|
      invariant lo == MinProjection(points[..i], normal)
      invariant hi == MaxProjection(points[..i], normal)
    {
      var d := Dot(points[i], normal);
      if d < lo { lo := d; }
      if d > hi { hi := d; }
      assert points[..i + 1][..i] == points[..i];
      i := i + 1;
    }
    assert points[..i] == points;
    MinProjectionIsMinimum(points, normal);
    MaxProjectionIsMaximum(points, normal);
  }

  // --------------------------------------------------------- Separating axis

  /** B's range on the axis, moved by the projection of the offset from A's position to B's. */
  function OffsetRange(aPos: Vector, bPos: Vector, bPoints: seq<Vector>, axis: Vector): Range
  {
    var off := Dot(Sub(bPos, aPos), axis);
    var rb := Flatten(bPoints, axis);
    Range(rb.lo + off, rb.hi + off)
  }

  predicate Disjoint(ra: Range, rb: Range)
  {
    ra.lo > rb.hi || rb.lo > ra.hi
  }

  predicate Separated(aPos: Vector, bPos: Vector, aPoints: seq<Vector>, bPoints: seq<Vector>, axis: Vector)
  {
    Disjoint(Flatten(aPoints, axis), OffsetRange(aPos, bPos, bPoints, axis))
  }

  /** Every vertex of A, placed in the world, projects strictly below every vertex of B. */
  ghost predicate Below(aPos: Vector, bPos: Vector, aPoints: seq<Vector>, bPoints: seq<Vector>, axis: Vector)
  {
    forall i, j :: 0 <= i < |aPoints| && 0 <= j < |bPoints| ==>
      Dot(Add(aPos, aPoints[i]), axis) < Dot(Add(bPos, bPoints[j]), axis)
  }

  /** Every projection lies strictly inside (-MaxValue, MaxValue). */
  ghost predicate Moderate(points: seq<Vector>, axis: Vector)
  {
    forall i :: 0 <= i < |points| ==> -MaxValue < Dot(points[i], axis) < MaxValue
  }

  /** The gap between two world vertices along an axis, split into local projections and the projected offset. */
  lemma WorldGap(aPos: Vector, bPos: Vector, p: Vector, q: Vector, axis: Vector)
    ensures Dot(Add(bPos, q), axis) - Dot(Add(aPos, p), axis) == Dot(q, axis) + Dot(Sub(bPos, aPos), axis) - Dot(p, axis)
  {}

  /**
   * A separating axis means what it says: the world vertices of the two
   * polygons project to two strictly ordered groups.
   */
  lemma SeparatedVerticesApart(aPos: Vector, bPos: Vector, aPoints: seq<Vector>, bPoints: seq<Vector>, axis: Vector)
    requires Separated(aPos, bPos, aPoints, bPoints, axis)
    ensures Below(aPos, bPos, aPoints, bPoints, axis) || Below(bPos, aPos, bPoints, aPoints, axis)
  {
    var ra, rb := Flatten(aPoints, axis), OffsetRange(aPos, bPos, bPoints, axis);
    MinProjectionIsMinimum(aPoints, axis);
    MaxProjectionIsMaximum(aPoints, axis);
    MinProjectionIsMinimum(bPoints, axis);
    MaxProjectionIsMaximum(bPoints, axis);
    if ra.lo > rb.hi {
      forall i, j | 0 <= i < |bPoints| && 0 <= j < |aPoints|
        ensures Dot(Add(bPos, bPoints[i]), axis) < Dot(Add(aPos, aPoints[j]), axis)
      {
        WorldGap(aPos, bPos, aPoints[j], bPoints[i], axis);
      }
    } else {
      forall i, j | 0 <= i < |aPoints| && 0 <= j < |bPoints|
        ensures Dot(Add(aPos, aPoints[i]), axis) < Dot(Add(bPos, bPoints[j]), axis)
      {
        WorldGap(aPos, bPos, aPoints[i], bPoints[j], axis);
      }
    }
  }

  /**
   * Conversely, for non-empty polygons whose projections stay within the
   * float range, two strictly ordered groups of world vertices make the axis
   * a separating one.
   */
  lemma VerticesApartSeparated(aPos: Vector, bPos: Vector, aPoints: seq<Vector>, bPoints: seq<Vector>, axis: Vector)
    requires |aPoints| > 0 && |bPoints| > 0 && Moderate(aPoints, axis) && Moderate(bPoints, axis)
    requires Below(aPos, bPos, aPoints, bPoints, axis) || Below(bPos, aPos, bPoints, aPoints, axis)
    ensures Separated(aPos, bPos, aPoints, bPoints, axis)
  {
    var ra := Flatten(aPoints, axis);
    MinProjectionIsMinimum(aPoints, axis);
    MaxProjectionIsMaximum(aPoints, axis);
    MinProjectionIsMinimum(bPoints, axis);
    MaxProjectionIsMaximum(bPoints, axis);
    var i0 :| 0 <= i0 < |aPoints| && ra.lo == Dot(aPoints[i0], axis);
    var i1 :| 0 <= i1 < |aPoints| && ra.hi == Dot(aPoints[i1], axis);
    var j0 :| 0 <= j0 < |bPoints| && MinProjection(bPoints, axis) == Dot(bPoints[j0], axis);
    var j1 :| 0 <= j1 < |bPoints| && MaxProjection(bPoints, axis) == Dot(bPoints[j1], axis);
    if Below(aPos, bPos, aPoints, bPoints, axis) {
      WorldGap(aPos, bPos, aPoints[i1], bPoints[j0], axis);
    } else {
      WorldGap(aPos, bPos, aPoints[i0], bPoints[j1], axis);
    }
  }

  /** The two ways out of an overlap when one range contains the other: the shorter one, negative to the left. */
  function Nested(ra: Range, rb: Range): real
  {
    var option1 := ra.hi - rb.lo;
    var option2 := rb.hi - ra.lo;
    if option1 < option2 then option1 else -option2
  }

  /**
   * The signed overlap `isSeparatingAxis` computes for overlapping ranges.
   * Pushing A's range back by it makes the two ranges just touch, and its
   * size is the shorter of the two ways out: the minimum translation on
   * this axis.
   */
  function SignedOverlap(ra: Range, rb: Range): (o: real)
    requires !Disjoint(ra, rb)
    ensures Abs(o) == Min(ra.hi - rb.lo, rb.hi - ra.lo)
    ensures (o >= 0.0 && ra.hi - o == rb.lo) || (o <= 0.0 && ra.lo - o == rb.hi)
  {
    if ra.lo < rb.lo then
      if ra.hi < rb.hi then ra.hi - rb.lo else Nested(ra, rb)
    else
      if ra.hi > rb.hi then ra.lo - rb.hi else Nested(ra, rb)
  }

  /** What a non-separating axis does to the response: containment flags, then a smaller overlap if it is one. */
  function Absorb(s: ResponseState, ra: Range, rb: Range, axis: Vector): ResponseState
    requires !Disjoint(ra, rb)
  {
    var s1 :=
      if ra.lo < rb.lo then s.(aInB := false, bInA := if ra.hi < rb.hi then false else s.bInA)
      else s.(bInA := false, aInB := if ra.hi > rb.hi then false else s.aInB);
    var o := SignedOverlap(ra, rb);
    if Abs(o) < s1.overlap then s1.(overlap := Abs(o), overlapN := if o < 0.0 then Reverse(axis) else axis)
    else s1
  }

  /** The overlap of the two polygons on an axis that does not separate them. */
  function AxisOverlap(aPos: Vector, bPos: Vector, aPoints: seq<Vector>, bPoints: seq<Vector>, axis: Vector): real
    requires !Separated(aPos, bPos, aPoints, bPoints, axis)
  {
    SignedOverlap(Flatten(aPoints, axis), OffsetRange(aPos, bPos, bPoints, axis))
  }

  /** One call of `isSeparatingAxis` on a response: untouched on a separating axis. */
  function AxisStep(s: ResponseState, aPos: Vector, bPos: Vector, aPoints: seq<Vector>, bPoints: seq<Vector>, axis: Vector): ResponseState
  {
    var ra := Flatten(aPoints, axis);
    var rb := OffsetRange(aPos, bPos, bPoints, axis);
    if Disjoint(ra, rb) then s else Absorb(s, ra, rb, axis)
  }

  /**
   * `isSeparatingAxis`: projects both point sets, shifts B's range by the
   * projected offset and reports a gap; with a response and no gap, records
   * containment and, if it is the smallest so far, the overlap and its axis.
   */
  method IsSeparatingAxis(aPos: Vector, bPos: Vector, aPoints: seq<Vector>, bPoints: seq<Vector>, axis: Vector, response: Response?)
    returns (separated: bool)
    modifies response
    ensures separated == Separated(aPos, bPos, aPoints, bPoints, axis)
    ensures response != null ==> response.State() == AxisStep(old(response.State()), aPos, bPos, aPoints, bPoints, axis)
  {
    var projectedOffset := Dot(Sub(bPos, aPos), axis);
    var aLo, aHi := FlattenPointsOn(aPoints, axis);
    var bLo, bHi := FlattenPointsOn(bPoints, axis);
    bLo := bLo + projectedOffset;
    bHi := bHi + projectedOffset;
    if aLo > bHi || bLo > aHi {
      return true;
    }
    if response != null {
      var overlap := 0.0;
      if aLo < bLo {
        response.aInB := false;
        if aHi < bHi {
          overlap := aHi - bLo;
          response.bInA := false;
        } else {
          var option1 := aHi - bLo;
          var option2 := bHi - aLo;
          overlap := if option1 < option2 then option1 else -option2;
        }
      } else {
        response.bInA := false;
        if aHi > bHi {
          overlap := aLo - bHi;
          response.aInB := false;
        } else {
          var option1 := aHi - bLo;
          var option2 := bHi - aLo;
          overlap := if option1 < option2 then option1 else -option2;
        }
      }
      var absOverlap := if overlap < 0.0 then -overlap else overlap;
      if absOverlap < response.overlap {
        response.overlap := absOverlap;
        response.overlapN := axis;
        if overlap < 0.0 {
          response.overlapN := Reverse(response.overlapN);
        }
      }
    }
    return false;
  }

  // ------------------------------------------------------ Polygon vs polygon

  /** The response after `isSeparatingAxis` has run on each of the axes in turn. */
  function Scan(s: ResponseState, aPos: Vector, bPos: Vector, aPoints: seq<Vector>, bPoints: seq<Vector>, axes: seq<Vector>): ResponseState
  {
    if |axes| == 0 then s
    else AxisStep(Scan(s, aPos, bPos, aPoints, bPoints, axes[..|axes| - 1]), aPos, bPos, aPoints, bPoints, axes[|axes| - 1])
  }

  predicate NoSeparatingAxis(aPos: Vector, bPos: Vector, aPoints: seq<Vector>, bPoints: seq<Vector>, axes: seq<Vector>)
  {
    forall i :: 0 <= i < |axes| ==> !Separated(aPos, bPos, aPoints, bPoints, axes[i])
  }

  /** The edge normals of A, then those of B: the axes `testPolygonPolygon` tries. */
  function Axes(a: Polygon, b: Polygon): seq<Vector> { a.normals + b.normals }

  /** What `testPolygonPolygon` adds once no axis separates: the participants and overlapV = overlapN * overlap. */
  function Finish(s: ResponseState, a: Polygon, b: Polygon): ResponseState
  {
    s.(a := Some(a), b := Some(b), overlapV := Scale(s.overlapN, s.overlap))
  }

  /** The test stopped at axis k: the first separating one, with the response as the axes before it left it. */
  ghost predicate StopsAt(s0: ResponseState, s: ResponseState, a: Polygon, b: Polygon, k: int)
  {
    var axes := Axes(a, b);
    0 <= k < |axes| && Separated(a.pos, b.pos, a.points, b.points, axes[k]) &&
    NoSeparatingAxis(a.pos, b.pos, a.points, b.points, axes[..k]) &&
    s == Scan(s0, a.pos, b.pos, a.points, b.points, axes[..k])
  }

  /** Testing one more axis is one more step of the scan, and keeps "no separating axis" only if it does not separate. */
  lemma ScanPrefix(s: ResponseState, aPos: Vector, bPos: Vector, aPoints: seq<Vector>, bPoints: seq<Vector>, axes: seq<Vector>, k: nat)
    requires k < |axes|
    ensures Scan(s, aPos, bPos, aPoints, bPoints, axes[..k + 1]) ==
      AxisStep(Scan(s, aPos, bPos, aPoints, bPoints, axes[..k]), aPos, bPos, aPoints, bPoints, axes[k])
    ensures NoSeparatingAxis(aPos, bPos, aPoints, bPoints, axes[..k + 1]) <==>
      NoSeparatingAxis(aPos, bPos, aPoints, bPoints, axes[..k]) && !Separated(aPos, bPos, aPoints, bPoints, axes[k])
    ensures Separated(aPos, bPos, aPoints, bPoints, axes[k]) ==> !NoSeparatingAxis(aPos, bPos, aPoints, bPoints, axes)
  {
    assert axes[..k + 1][..k] == axes[..k];
    assert axes[..k + 1][k] == axes[k];
  }

  /** After testing axis k on a response that had scanned the axes before it: either the test stops there or the scan grows by one. */
  lemma ScanAdvances(s0: ResponseState, t: ResponseState, a: Polygon, b: Polygon, k: nat)
    requires k < |Axes(a, b)|
    requires NoSeparatingAxis(a.pos, b.pos, a.points, b.points, Axes(a, b)[..k])
    requires t == AxisStep(Scan(s0, a.pos, b.pos, a.points, b.points, Axes(a, b)[..k]), a.pos, b.pos, a.points, b.points, Axes(a, b)[k])
    ensures Separated(a.pos, b.pos, a.points, b.points, Axes(a, b)[k]) ==> StopsAt(s0, t, a, b, k)
    ensures t == Scan(s0, a.pos, b.pos, a.points, b.points, Axes(a, b)[..k + 1])
  {
    ScanPrefix(s0, a.pos, b.pos, a.points, b.points, Axes(a, b), k);
    if Separated(a.pos, b.pos, a.points, b.points, Axes(a, b)[k]) {
      AxisStepOverlap(Scan(s0, a.pos, b.pos, a.points, b.points, Axes(a, b)[..k]), a.pos, b.pos, a.points, b.points, Axes(a, b)[k]);
    }
  }

  /**
   * One of the two loops of `testPolygonPolygon`: tests the axes from
   * `start` up to `end` in turn on a response that has scanned the ones
   * before, stopping at the first separating axis.
   */
  method TestAxes(a: Polygon, b: Polygon, start: nat, end: nat, response: Response?, ghost s0: ResponseState) returns (separated: bool)
    requires start <= end <= |Axes(a, b)|
    requires NoSeparatingAxis(a.pos, b.pos, a.points, b.points, Axes(a, b)[..start])
    requires response != null ==> response.State() == Scan(s0, a.pos, b.pos, a.points, b.points, Axes(a, b)[..start])
    modifies response
    ensures !separated ==> NoSeparatingAxis(a.pos, b.pos, a.points, b.points, Axes(a, b)[..end])
    ensures !separated && response != null ==> response.State() == Scan(s0, a.pos, b.pos, a.points, b.points, Axes(a, b)[..end])
    ensures separated ==> !NoSeparatingAxis(a.pos, b.pos, a.points, b.points, Axes(a, b))
    ensures separated && response != null ==> exists k :: StopsAt(s0, response.State(), a, b, k)
  {
    var axes := Axes(a, b);
    var k := start;
    while k < end
      invariant start <= k <= end
      invariant NoSeparatingAxis(a.pos, b.pos, a.points, b.points, axes[..k])
      invariant response != null ==> response.State() == Scan(s0, a.pos, b.pos, a.points, b.points, axes[..k])
    {
      separated := IsSeparatingAxis(a.pos, b.pos, a.points, b.points, axes[k], response);
      ScanPrefix(s0, a.pos, b.pos, a.points, b.points, axes, k);
      if response != null {
        ScanAdvances(s0, response.State(), a, b, k);
      }
      if separated {
        return;
      }
      k := k + 1;
    }
    return false;
  }

  /**
   * `testPolygonPolygon`: the polygons overlap exactly when none of A's and
   * B's edge normals separates them; it stops at the first separating one.
   */
  method TestPolygonPolygon(a: Polygon, b: Polygon, response: Response?) returns (r: bool)
    modifies response
    ensures r == NoSeparatingAxis(a.pos, b.pos, a.points, b.points, Axes(a, b))
    ensures response != null && r ==>
      response.State() == Finish(Scan(old(response.State()), a.pos, b.pos, a.points, b.points, Axes(a, b)), a, b)
    ensures response != null && !r ==> exists k :: StopsAt(old(response.State()), response.State(), a, b, k)
  {
    ghost var s0 := if response != null then response.State() else ResponseState(None, None, Zero, Zero, 0.0, false, false);
    assert Axes(a, b)[..0] == [];
    var separated := TestAxes(a, b, 0, |a.points|, response, s0);
    if separated {
      return false;
    }
    separated := TestAxes(a, b, |a.points|, |a.points| + |b.points|, response, s0);
    if separated {
      return false;
    }
    assert Axes(a, b)[..|a.points| + |b.points|] == Axes(a, b);
    if response != null {
      response.a := Some(a);
      response.b := Some(b);
      response.overlapV := Scale(response.overlapN, response.overlap);
    }
    return true;
  }

  // ------------------------------------------------- What the scan accumulates

  /** One axis step, seen through overlap and overlapN only. */
  lemma AxisStepOverlap(s: ResponseState, aPos: Vector, bPos: Vector, aPoints: seq<Vector>, bPoints: seq<Vector>, axis: Vector)
    ensures Separated(aPos, bPos, aPoints, bPoints, axis) ==> AxisStep(s, aPos, bPos, aPoints, bPoints, axis) == s
    ensures !Separated(aPos, bPos, aPoints, bPoints, axis) ==>
      var o := AxisOverlap(aPos, bPos, aPoints, bPoints, axis);
      var t := AxisStep(s, aPos, bPos, aPoints, bPoints, axis);
      if Abs(o) < s.overlap then t.overlap == Abs(o) && t.overlapN == (if o < 0.0 then Reverse(axis) else axis)
      else t.overlap == s.overlap && t.overlapN == s.overlapN
  {}

  /** `response.overlap` never grows from one axis to the next. */
  lemma {:induction false} ScanNeverIncreases(s: ResponseState, aPos: Vector, bPos: Vector, aPoints: seq<Vector>, bPoints: seq<Vector>, axes: seq<Vector>)
    ensures Scan(s, aPos, bPos, aPoints, bPoints, axes).overlap <= s.overlap
  {
    if |axes| > 0 {
      ScanNeverIncreases(s, aPos, bPos, aPoints, bPoints, axes[..|axes| - 1]);
      AxisStepOverlap(Scan(s, aPos, bPos, aPoints, bPoints, axes[..|axes| - 1]), aPos, bPos, aPoints, bPoints, axes[|axes| - 1]);
    }
  }

  /** Over axes none of which separates, the scan's overlap is at most every axis's overlap. */
  lemma {:induction false} ScanBelowEveryAxis(s: ResponseState, aPos: Vector, bPos: Vector, aPoints: seq<Vector>, bPoints: seq<Vector>, axes: seq<Vector>)
    requires NoSeparatingAxis(aPos, bPos, aPoints, bPoints, axes)
    ensures forall i :: 0 <= i < |axes| ==>
      Scan(s, aPos, bPos, aPoints, bPoints, axes).overlap <= Abs(AxisOverlap(aPos, bPos, aPoints, bPoints, axes[i]))
  {
    if |axes| > 0 {
      var front := axes[..|axes| - 1];
      var last := axes[|axes| - 1];
      ScanBelowEveryAxis(s, aPos, bPos, aPoints, bPoints, front);
      var u := Scan(s, aPos, bPos, aPoints, bPoints, front);
      AxisStepOverlap(u, aPos, bPos, aPoints, bPoints, last);
      var t := Scan(s, aPos, bPos, aPoints, bPoints, axes);
      assert t.overlap <= u.overlap;
      forall i | 0 <= i < |axes|
        ensures t.overlap <= Abs(AxisOverlap(aPos, bPos, aPoints, bPoints, axes[i]))
      {
        if i < |front| {
          assert front[i] == axes[i];
        }
      }
    }
  }

  /** The scan's overlap and overlapN were set by this axis: its size and direction, reversed when the signed overlap is negative. */
  ghost predicate SetBy(t: ResponseState, aPos: Vector, bPos: Vector, aPoints: seq<Vector>, bPoints: seq<Vector>, axis: Vector)
  {
    !Separated(aPos, bPos, aPoints, bPoints, axis) &&
    var o := AxisOverlap(aPos, bPos, aPoints, bPoints, axis);
    t.overlap == Abs(o) && t.overlapN == (if o < 0.0 then Reverse(axis) else axis)
  }

  /**
   * Over axes none of which separates, the scan's overlap either stays at
   * the starting value with overlapN untouched, or is the overlap of one of
   * the axes with overlapN along that axis.
   */
  lemma {:induction false} ScanOverlapFromAxis(s: ResponseState, aPos: Vector, bPos: Vector, aPoints: seq<Vector>, bPoints: seq<Vector>, axes: seq<Vector>)
    requires NoSeparatingAxis(aPos, bPos, aPoints, bPoints, axes)
    ensures Scan(s, aPos, bPos, aPoints, bPoints, axes).overlap == s.overlap ==>
      Scan(s, aPos, bPos, aPoints, bPoints, axes).overlapN == s.overlapN
    ensures Scan(s, aPos, bPos, aPoints, bPoints, axes).overlap < s.overlap ==>
      exists i :: 0 <= i < |axes| && SetBy(Scan(s, aPos, bPos, aPoints, bPoints, axes), aPos, bPos, aPoints, bPoints, axes[i])
  {
    if |axes| > 0 {
      var front := axes[..|axes| - 1];
      var last := axes[|axes| - 1];
      assert forall i :: 0 <= i < |front| ==> front[i] == axes[i];
      ScanOverlapFromAxis(s, aPos, bPos, aPoints, bPoints, front);
      ScanNeverIncreases(s, aPos, bPos, aPoints, bPoints, front);
      var u := Scan(s, aPos, bPos, aPoints, bPoints, front);
      var t := Scan(s, aPos, bPos, aPoints, bPoints, axes);
      var o := AxisOverlap(aPos, bPos, aPoints, bPoints, last);
      AxisStepOverlap(u, aPos, bPos, aPoints, bPoints, last);
      if Abs(o) < u.overlap {
        assert SetBy(t, aPos, bPos, aPoints, bPoints, last);
      } else {
        assert t.overlap == u.overlap && t.overlapN == u.overlapN;
        if t.overlap < s.overlap {
          var i :| 0 <= i < |front| && SetBy(u, aPos, bPos, aPoints, bPoints, front[i]);
          assert SetBy(t, aPos, bPos, aPoints, bPoints, axes[i]);
        }
      }
    }
  }
}
