/*
 * The restraint rules of the SAT restrainer: the vertex-location tables,
 * `intersectArrays` and `resolve` that pick neighbour types from them,
 * `resolveOverlaps` and `prepareRestraints` that turn the shorthand rules
 * into formal ones, the default rule table, and the rule matching that
 * `restrain` performs.
 */
module Restraints {
  import opened Wrappers
  import opened Geometry
  import opened Catalog
  import opened Factory

  // ---------------------------------------------------------------------
  // intersectArrays
  // ---------------------------------------------------------------------

  predicate Distinct<T(==)>(s: seq<T>)
  {
    forall i, j :: 0 <= i < j < |s| ==> s[i] != s[j]
  }

  /** `a.filter(v => b.indexOf(v) !== -1)`. */
  function KeepShared<T(==)>(a: seq<T>, b: seq<T>): seq<T>
  {
    if |a| == 0 then []
    else KeepShared(a[..|a| - 1], b) + (if a[|a| - 1] in b then [a[|a| - 1]] else [])
  }

  /** `s.filter((v, i, s) => s.indexOf(v) === i)`: the first occurrence of each value, in order. */
  function FirstOccurrences<T(==)>(s: seq<T>): seq<T>
  {
    if |s| == 0 then []
    else FirstOccurrences(s[..|s| - 1]) + (if s[|s| - 1] in s[..|s| - 1] then [] else [s[|s| - 1]])
  }

  /** `intersectArrays`: the values found in both sequences, each once, in the order of the first. */
  function IntersectArrays<T(==)>(a: seq<T>, b: seq<T>): seq<T>
  {
    FirstOccurrences(KeepShared(a, b))
  }

  lemma {:induction false} KeepSharedMembers<T>(a: seq<T>, b: seq<T>, x: T)
    ensures x in KeepShared(a, b) <==> x in a && x in b
  {
    if |a| > 0 {
      KeepSharedMembers(a[..|a| - 1], b, x);
      assert a == a[..|a| - 1] + [a[|a| - 1]];
    }
  }

  lemma {:induction false} FirstOccurrencesMembers<T>(s: seq<T>, x: T)
    ensures x in FirstOccurrences(s) <==> x in s
  {
    if |s| > 0 {
      FirstOccurrencesMembers(s[..|s| - 1], x);
      assert s == s[..|s| - 1] + [s[|s| - 1]];
    }
  }

  lemma {:induction false} FirstOccurrencesDistinct<T>(s: seq<T>)
    ensures Distinct(FirstOccurrences(s))
  {
    if |s| > 0 {
      FirstOccurrencesDistinct(s[..|s| - 1]);
      var last := s[|s| - 1];
      if last !in s[..|s| - 1] {
        FirstOccurrencesMembers(s[..|s| - 1], last);
      }
    }
  }

  /** The intersection holds exactly the shared values, with no repeats. */
  lemma IntersectArraysSpec<T>(a: seq<T>, b: seq<T>)
    ensures forall x :: x in IntersectArrays(a, b) <==> x in a && x in b
    ensures Distinct(IntersectArrays(a, b))
  {
    forall x
      ensures x in IntersectArrays(a, b) <==> x in a && x in b
    {
      FirstOccurrencesMembers(KeepShared(a, b), x);
      KeepSharedMembers(a, b, x);
    }
    FirstOccurrencesDistinct(KeepShared(a, b));
  }

  // ---------------------------------------------------------------------
  // Vertex maps
  // ---------------------------------------------------------------------

  /** The eight places on a tile's boundary that the vertex tables are named after. */
  datatype Location =
    | TopLeftCorner | TopCentre | TopRightCorner
    | LeftCentre | RightCentre
    | BottomLeftCorner | BottomCentre | BottomRightCorner

  /** The location a string names, as `<location>Vertices` looks it up; `None` for any other string. */
  function LocationOf(location: string): Option<Location>
  {
    if location == "top" then Some(TopCentre)
    else if location == "bottom" then Some(BottomCentre)
    else if location == "left" then Some(LeftCentre)
    else if location == "right" then Some(RightCentre)
    else if location == "topLeft" then Some(TopLeftCorner)
    else if location == "topRight" then Some(TopRightCorner)
    else if location == "bottomLeft" then Some(BottomLeftCorner)
    else if location == "bottomRight" then Some(BottomRightCorner)
    else None
  }

  /**
   * The `<location>Vertices` tables as the source lists them: for each
   * location, the slope types whose polygon has a vertex there, less the
   * three the source leaves out.
   */
  function VerticesAsWritten(l: Location): seq<SlopeType>
  {
    match l
    case TopCentre => [HalfLeft, HalfRight, QuarterLeftTopLow, QuarterRightTopLow,
      QuarterLeftBottomLow, QuarterRightBottomLow]
    case BottomCentre => [HalfLeft, HalfRight, QuarterLeftTopHigh, QuarterLeftBottomHigh,
      QuarterRightTopHigh, QuarterRightBottomHigh]
    case LeftCentre => [HalfTop, HalfBottom, QuarterTopLeftLow, QuarterTopRightHigh,
      QuarterBottomLeftLow, QuarterBottomRightHigh]
    case RightCentre => [HalfTop, HalfBottom, QuarterTopLeftHigh, QuarterTopRightLow,
      QuarterBottomLeftHigh, QuarterBottomRightLow]
    case TopLeftCorner => [Full, HalfTop, HalfLeft, HalfTopLeft, HalfTopRight, HalfBottomLeft,
      QuarterTopLeftLow, QuarterTopLeftHigh, QuarterTopRightHigh, QuarterBottomLeftHigh, QuarterLeftTopLow,
      QuarterLeftTopHigh, QuarterLeftBottomLow, QuarterLeftBottomHigh, QuarterRightTopHigh]
    case TopRightCorner => [Full, HalfTop, HalfRight, HalfTopLeft, HalfTopRight, HalfBottomRight,
      QuarterTopLeftLow, QuarterTopLeftHigh, QuarterTopRightLow, QuarterTopRightHigh, QuarterBottomRightHigh,
      QuarterLeftTopHigh, QuarterRightTopLow, QuarterRightTopHigh, QuarterRightBottomLow, QuarterRightBottomHigh]
    case BottomLeftCorner => [Full, HalfLeft, HalfBottom, HalfTopLeft, HalfBottomLeft,
      HalfBottomRight, QuarterTopLeftHigh, QuarterBottomLeftLow, QuarterBottomLeftHigh, QuarterBottomRightLow,
      QuarterBottomRightHigh, QuarterLeftTopHigh, QuarterLeftBottomLow, QuarterLeftBottomHigh,
      QuarterRightBottomLow]
    case BottomRightCorner => [Full, HalfRight, HalfBottom, HalfTopRight, HalfBottomLeft,
      HalfBottomRight, QuarterTopRightHigh, QuarterBottomLeftLow, QuarterBottomLeftHigh, QuarterBottomRightLow,
      QuarterBottomRightHigh, QuarterLeftBottomLow, QuarterRightTopHigh, QuarterRightBottomLow,
      QuarterRightBottomHigh]
  }

  /** The type each table leaves out, if any. */
  function Missing(l: Location): seq<SlopeType>
  {
    match l
    case TopLeftCorner => [QuarterTopRightLow]
    case BottomLeftCorner => [QuarterLeftTopLow]
    case BottomRightCorner => [QuarterRightTopLow]
    case _ => []
  }

  /**
   * The vertex tables with the three omissions filled in: the top-left
   * table gains QUARTER_TOP_RIGHT_LOW, the bottom-left table
   * QUARTER_LEFT_TOP_LOW and the bottom-right table QUARTER_RIGHT_TOP_LOW,
   * so that each table lists every type with a vertex at its location.
   */
  function Vertices(l: Location): seq<SlopeType>
  {
    VerticesAsWritten(l) + Missing(l)
  }

  /** The table `resolve` reads for a location string: the source's own table. */
  function VertexMap(location: string): Option<seq<SlopeType>>
  {
    match LocationOf(location)
    case None => None
    case Some(l) => Some(VerticesAsWritten(l))
  }

  /** The point of a w by h tile that each location names, in tile-local coordinates. */
  function LocationPoint(l: Location, w: real, h: real): Vector
  {
    match l
    case TopCentre => Vector(w / 2.0, 0.0)
    case BottomCentre => Vector(w / 2.0, h)
    case LeftCentre => Vector(0.0, h / 2.0)
    case RightCentre => Vector(w, h / 2.0)
    case TopLeftCorner => Vector(0.0, 0.0)
    case TopRightCorner => Vector(w, 0.0)
    case BottomLeftCorner => Vector(0.0, h)
    case BottomRightCorner => Vector(w, h)
  }

  /** Each table lists exactly the types whose polygon has a vertex at its location. */
  lemma TablesListVertices(l: Location, t: SlopeType, w: real, h: real)
    requires w > 0.0 && h > 0.0
    ensures t in Vertices(l) <==> LocationPoint(l, w, h) in ShapePoints(t, w, h)
  {
    match l
    case TopLeftCorner => TopLeftCornerTable(t, w, h);
    case TopRightCorner => TopRightCornerTable(t, w, h);
    case BottomLeftCorner => BottomLeftCornerTable(t, w, h);
    case BottomRightCorner => BottomRightCornerTable(t, w, h);
    case TopCentre => TopCentreTable(t, w, h);
    case BottomCentre => BottomCentreTable(t, w, h);
    case LeftCentre => LeftCentreTable(t, w, h);
    case RightCentre => RightCentreTable(t, w, h);
  }

  /** The table of the top-left corner. */
  lemma TopLeftCornerTable(t: SlopeType, w: real, h: real)
    requires w > 0.0 && h > 0.0
    ensures t in Vertices(TopLeftCorner) <==> LocationPoint(TopLeftCorner, w, h) in ShapePoints(t, w, h)
  {
    TopLeftCornerListed(t, w, h);
    TopLeftCornerComplete(t, w, h);
  }

  lemma TopLeftCornerListed(t: SlopeType, w: real, h: real)
    requires w > 0.0 && h > 0.0
    ensures t in Vertices(TopLeftCorner) ==> LocationPoint(TopLeftCorner, w, h) in ShapePoints(t, w, h)
  {
  }

  lemma TopLeftCornerComplete(t: SlopeType, w: real, h: real)
    requires w > 0.0 && h > 0.0
    ensures LocationPoint(TopLeftCorner, w, h) in ShapePoints(t, w, h) ==> t in Vertices(TopLeftCorner)
  {
  }

  /** The table of the top-right corner. */
  lemma TopRightCornerTable(t: SlopeType, w: real, h: real)
    requires w > 0.0 && h > 0.0
    ensures t in Vertices(TopRightCorner) <==> LocationPoint(TopRightCorner, w, h) in ShapePoints(t, w, h)
  {
    TopRightCornerListed(t, w, h);
    TopRightCornerComplete(t, w, h);
  }

  lemma TopRightCornerListed(t: SlopeType, w: real, h: real)
    requires w > 0.0 && h > 0.0
    ensures t in Vertices(TopRightCorner) ==> LocationPoint(TopRightCorner, w, h) in ShapePoints(t, w, h)
  {
  }

  lemma TopRightCornerComplete(t: SlopeType, w: real, h: real)
    requires w > 0.0 && h > 0.0
    ensures LocationPoint(TopRightCorner, w, h) in ShapePoints(t, w, h) ==> t in Vertices(TopRightCorner)
  {
  }

  /** The table of the bottom-left corner. */
  lemma BottomLeftCornerTable(t: SlopeType, w: real, h: real)
    requires w > 0.0 && h > 0.0
    ensures t in Vertices(BottomLeftCorner) <==> LocationPoint(BottomLeftCorner, w, h) in ShapePoints(t, w, h)
  {
    BottomLeftCornerListed(t, w, h);
    BottomLeftCornerComplete(t, w, h);
  }

  lemma BottomLeftCornerListed(t: SlopeType, w: real, h: real)
    requires w > 0.0 && h > 0.0
    ensures t in Vertices(BottomLeftCorner) ==> LocationPoint(BottomLeftCorner, w, h) in ShapePoints(t, w, h)
  {
  }

  lemma BottomLeftCornerComplete(t: SlopeType, w: real, h: real)
    requires w > 0.0 && h > 0.0
    ensures LocationPoint(BottomLeftCorner, w, h) in ShapePoints(t, w, h) ==> t in Vertices(BottomLeftCorner)
  {
  }

  /** The table of the bottom-right corner. */
  lemma BottomRightCornerTable(t: SlopeType, w: real, h: real)
    requires w > 0.0 && h > 0.0
    ensures t in Vertices(BottomRightCorner) <==> LocationPoint(BottomRightCorner, w, h) in ShapePoints(t, w, h)
  {
    BottomRightCornerListed(t, w, h);
    BottomRightCornerComplete(t, w, h);
  }

  lemma BottomRightCornerListed(t: SlopeType, w: real, h: real)
    requires w > 0.0 && h > 0.0
    ensures t in Vertices(BottomRightCorner) ==> LocationPoint(BottomRightCorner, w, h) in ShapePoints(t, w, h)
  {
  }

  lemma BottomRightCornerComplete(t: SlopeType, w: real, h: real)
    requires w > 0.0 && h > 0.0
    ensures LocationPoint(BottomRightCorner, w, h) in ShapePoints(t, w, h) ==> t in Vertices(BottomRightCorner)
  {
  }

  /** The table of the midpoint of the top edge. */
  lemma TopCentreTable(t: SlopeType, w: real, h: real)
    requires w > 0.0 && h > 0.0
    ensures t in Vertices(TopCentre) <==> LocationPoint(TopCentre, w, h) in ShapePoints(t, w, h)
  {}

  /** The table of the midpoint of the bottom edge. */
  lemma BottomCentreTable(t: SlopeType, w: real, h: real)
    requires w > 0.0 && h > 0.0
    ensures t in Vertices(BottomCentre) <==> LocationPoint(BottomCentre, w, h) in ShapePoints(t, w, h)
  {}

  /** The table of the midpoint of the left edge. */
  lemma LeftCentreTable(t: SlopeType, w: real, h: real)
    requires w > 0.0 && h > 0.0
    ensures t in Vertices(LeftCentre) <==> LocationPoint(LeftCentre, w, h) in ShapePoints(t, w, h)
  {}

  /** The table of the midpoint of the right edge. */
  lemma RightCentreTable(t: SlopeType, w: real, h: real)
    requires w > 0.0 && h > 0.0
    ensures t in Vertices(RightCentre) <==> LocationPoint(RightCentre, w, h) in ShapePoints(t, w, h)
  {}

  /**
   * The tables as written miss a vertex in three places: QUARTER_TOP_RIGHT_LOW
   * has a top-left vertex, QUARTER_LEFT_TOP_LOW a bottom-left one and
   * QUARTER_RIGHT_TOP_LOW a bottom-right one, yet none of them is listed.
   */
  lemma VertexTablesAsWrittenMissVertices(w: real, h: real)
    requires w > 0.0 && h > 0.0
    ensures LocationPoint(TopLeftCorner, w, h) in ShapePoints(QuarterTopRightLow, w, h)
    ensures QuarterTopRightLow !in VerticesAsWritten(TopLeftCorner)
    ensures LocationPoint(BottomLeftCorner, w, h) in ShapePoints(QuarterLeftTopLow, w, h)
    ensures QuarterLeftTopLow !in VerticesAsWritten(BottomLeftCorner)
    ensures LocationPoint(BottomRightCorner, w, h) in ShapePoints(QuarterRightTopLow, w, h)
    ensures QuarterRightTopLow !in VerticesAsWritten(BottomRightCorner)
  {
    assert ShapePoints(QuarterTopRightLow, w, h)[0] == LocationPoint(TopLeftCorner, w, h);
    assert ShapePoints(QuarterLeftTopLow, w, h)[2] == LocationPoint(BottomLeftCorner, w, h);
    assert ShapePoints(QuarterRightTopLow, w, h)[2] == LocationPoint(BottomRightCorner, w, h);
  }

  /**
   * The source's tables are the full ones less the three missing entries,
   * so (by `TablesListVertices`) they list only types with a vertex at their
   * location, and every such type but those three.
   */
  lemma TablesAsWrittenOmitThree(l: Location, t: SlopeType)
    ensures t in VerticesAsWritten(l) <==> t in Vertices(l) && t !in Missing(l)
  {
    VertexTablesAsWrittenMissVertices(1.0, 1.0);
  }

  // ---------------------------------------------------------------------
  // resolve
  // ---------------------------------------------------------------------

  /**
   * One pass of the loop in `resolve`, over a lookup of tables: an unknown
   * location is skipped; the location's table starts the result when it is
   * still empty, and is intersected with it otherwise.
   */
  function ResolveStep(tables: string -> Option<seq<SlopeType>>, types: seq<SlopeType>, location: string): seq<SlopeType>
  {
    match tables(location)
    case None => types
    case Some(m) => if |types| == 0 then m else IntersectArrays(types, m)
  }

  /** The result of `resolve` after its first i locations. */
  function ResolveUpTo(tables: string -> Option<seq<SlopeType>>, locations: seq<string>, i: nat): seq<SlopeType>
    requires i <= |locations|
  {
    if i == 0 then [] else ResolveStep(tables, ResolveUpTo(tables, locations, i - 1), locations[i - 1])
  }

  /** `resolve`: the slope types with vertices at all of the given locations. */
  function Resolve(locations: seq<string>): seq<SlopeType>
  {
    ResolveUpTo(VertexMap, locations, |locations|)
  }

  /**
   * `resolve` as the source runs it: a loop over the locations that
   * returns a single location's table straight away.
   */
  method ResolveLocations(locations: seq<string>) returns (types: seq<SlopeType>)
    ensures types == Resolve(locations)
  {
    types := [];
    if |locations| == 0 {
      return;
    }
    var i := 0;
    while i < |locations|
      invariant 0 <= i <= |locations|
      invariant types == ResolveUpTo(VertexMap, locations, i)
    {
      var m := VertexMap(locations[i]);
      if m.Some? && |locations| == 1 {
        types := m.value;
        return;
      }
      types := ResolveNext(types, locations[i]);
      i := i + 1;
    }
  }

  /** The body of the loop in `resolve`. */
  method ResolveNext(types: seq<SlopeType>, location: string) returns (next: seq<SlopeType>)
    ensures next == ResolveStep(VertexMap, types, location)
  {
    next := types;
    var m := VertexMap(location);
    if m.Some? {
      if |types| == 0 {
        next := m.value;
      } else {
        next := IntersectArrays(types, m.value);
      }
    }
  }

  /** Some location among the first i is known. */
  predicate AnyKnown(tables: string -> Option<seq<SlopeType>>, locations: seq<string>, i: nat)
    requires i <= |locations|
  {
    exists j :: 0 <= j < i && tables(locations[j]).Some?
  }

  /** t is in the table of every known location among the first i. */
  predicate InEveryTable(tables: string -> Option<seq<SlopeType>>, locations: seq<string>, i: nat, t: SlopeType)
    requires i <= |locations|
  {
    forall j :: 0 <= j < i && tables(locations[j]).Some? ==> t in tables(locations[j]).value
  }

  /**
   * The running result never empties out once a known location has been
   * seen, so no later table restarts it.
   */
  predicate NoRestart(tables: string -> Option<seq<SlopeType>>, locations: seq<string>, i: nat)
    requires i <= |locations|
  {
    forall k :: 0 <= k < i && tables(locations[k]).Some? && |ResolveUpTo(tables, locations, k)| == 0 ==>
      !AnyKnown(tables, locations, k)
  }

  /**
   * When no restart happens, `resolve` is the intersection of the tables of
   * the known locations, as its documentation promises.
   */
  lemma {:induction false} ResolveIsIntersection(tables: string -> Option<seq<SlopeType>>, locations: seq<string>,
                                                 i: nat, t: SlopeType)
    requires i <= |locations| && NoRestart(tables, locations, i)
    ensures t in ResolveUpTo(tables, locations, i) <==>
      AnyKnown(tables, locations, i) && InEveryTable(tables, locations, i, t)
  {
    if i > 0 {
      assert NoRestart(tables, locations, i - 1);
      ResolveIsIntersection(tables, locations, i - 1, t);
      var prev := ResolveUpTo(tables, locations, i - 1);
      match tables(locations[i - 1])
      case None =>
        if AnyKnown(tables, locations, i) {
          var j :| 0 <= j < i && tables(locations[j]).Some?;
          assert AnyKnown(tables, locations, i - 1);
        }
      case Some(m) =>
        assert AnyKnown(tables, locations, i);
        if |prev| == 0 {
          assert !AnyKnown(tables, locations, i - 1);
        } else {
          IntersectArraysSpec(prev, m);
          ResolveIsIntersection(tables, locations, i - 1, prev[0]);
        }
    }
  }

  /**
   * A type with vertices at every known location is always found: its
   * presence keeps the running result from emptying out.
   */
  lemma {:induction false} ResolveFindsCommonTypes(tables: string -> Option<seq<SlopeType>>, locations: seq<string>,
                                                   i: nat, t: SlopeType)
    requires i <= |locations| && AnyKnown(tables, locations, i) && InEveryTable(tables, locations, i, t)
    ensures t in ResolveUpTo(tables, locations, i)
  {
    var prev := ResolveUpTo(tables, locations, i - 1);
    if AnyKnown(tables, locations, i - 1) {
      ResolveFindsCommonTypes(tables, locations, i - 1, t);
      if tables(locations[i - 1]).Some? {
        IntersectArraysSpec(prev, tables(locations[i - 1]).value);
      }
    } else {
      EmptyBeforeKnown(tables, locations, i - 1);
    }
  }

  /** Before any known location the result is empty. */
  lemma {:induction false} EmptyBeforeKnown(tables: string -> Option<seq<SlopeType>>, locations: seq<string>, i: nat)
    requires i <= |locations| && !AnyKnown(tables, locations, i)
    ensures ResolveUpTo(tables, locations, i) == []
  {
    if i > 0 {
      EmptyBeforeKnown(tables, locations, i - 1);
    }
  }

  /**
   * The restart in action: no type has vertices at the left, top and right
   * centres, but as the left and top tables share nothing, the right table
   * starts the result afresh.
   */
  lemma ResolveRestartsAfterEmpty()
    ensures Resolve(["left", "top", "right"]) == VerticesAsWritten(RightCentre)
    ensures forall t :: !(t in VerticesAsWritten(LeftCentre) && t in VerticesAsWritten(TopCentre))
  {
    var l := ["left", "top", "right"];
    assert VertexMap("left") == Some(VerticesAsWritten(LeftCentre));
    assert VertexMap("top") == Some(VerticesAsWritten(TopCentre));
    assert VertexMap("right") == Some(VerticesAsWritten(RightCentre));
    assert ResolveUpTo(VertexMap, l, 1) == VerticesAsWritten(LeftCentre);
    DisjointTables();
    NothingShared(VerticesAsWritten(LeftCentre), VerticesAsWritten(TopCentre));
    assert ResolveUpTo(VertexMap, l, 2) == [];
  }

  lemma DisjointTables()
    ensures forall t :: !(t in VerticesAsWritten(LeftCentre) && t in VerticesAsWritten(TopCentre))
  {
  }

  /** Arrays with no common element intersect to the empty array. */
  lemma NothingShared<T>(a: seq<T>, b: seq<T>)
    requires forall x :: !(x in a && x in b)
    ensures IntersectArrays(a, b) == []
  {
    var r := IntersectArrays(a, b);
    if |r| > 0 {
      FirstOccurrencesMembers(KeepShared(a, b), r[0]);
      KeepSharedMembers(a, b, r[0]);
    }
  }

  // ---------------------------------------------------------------------
  // Rules
  // ---------------------------------------------------------------------

  /**
   * An `overlapX`/`overlapY` property of a rule: absent, present but
   * `undefined`, a number the component must equal, or an inclusive range.
   */
  datatype Constraint = Absent | Undefined | Exact(value: real) | Between(lo: real, hi: real)

  datatype Overlaps = Overlaps(x: Constraint, y: Constraint)

  /** The four `separate` callbacks of the default rules, each comparing a body edge with the tile's. */
  datatype SeparateTest =
    | BodyTopInside     // body.top > tile.top
    | BodyBottomInside  // body.bottom < tile.bottom
    | BodyLeftInside    // body.left > tile.left
    | BodyRightInside   // body.right < tile.right

  /** A rule's `separate`: a boolean or one of the callbacks. */
  datatype Separate = Flag(b: bool) | Test(test: SeparateTest)

  /** A rule as written in the shorthand schema; `direction` is "" when there is none. */
  datatype InformalRule = InformalRule(
    neighbour: Direction, direction: string, overlapX: Constraint, overlapY: Constraint,
    types: Option<seq<TypeValue>>, separate: Option<Separate>)

  /** A rule as `restrain` reads it. */
  datatype Rule = Rule(
    neighbour: Direction, overlapX: Constraint, overlapY: Constraint,
    types: Option<seq<TypeValue>>, separate: Separate)

  /** The unit overlap normal each direction string stands for. */
  function DirectionVector(direction: string): Option<Vector>
  {
    if direction == "up" then Some(Vector(0.0, -1.0))
    else if direction == "down" then Some(Vector(0.0, 1.0))
    else if direction == "left" then Some(Vector(-1.0, 0.0))
    else if direction == "right" then Some(Vector(1.0, 0.0))
    else None
  }

  /** `resolveOverlaps`: the overlap constraints of a direction, or none (`{}`) for an unknown one. */
  function ResolveOverlaps(direction: string): Overlaps
  {
    if direction == "up" then Overlaps(Exact(0.0), Between(-1.0, 0.0))
    else if direction == "down" then Overlaps(Exact(0.0), Between(0.0, 1.0))
    else if direction == "left" then Overlaps(Between(-1.0, 0.0), Exact(0.0))
    else if direction == "right" then Overlaps(Between(0.0, 1.0), Exact(0.0))
    else Overlaps(Absent, Absent)
  }

  /**
   * One overlap test of `restrain`: `condition && <test>`, where reading
   * `[0]` of an `undefined` constraint throws (`None`) once the condition
   * is true.
   */
  function Check(c: Constraint, v: real, condition: bool): (r: Option<bool>)
    ensures r.Some? && r.value ==> condition
    ensures r.None? <==> c.Undefined? && condition
  {
    match c
    case Absent => Some(condition)
    case Undefined => if condition then None else Some(false)
    case Exact(e) => Some(condition && v == e)
    case Between(lo, hi) => Some(condition && v >= lo && v <= hi)
  }

  /** The overlap normal n passes both constraints. */
  predicate Admits(o: Overlaps, n: Vector)
  {
    Check(o.x, n.x, true) == Some(true) && Check(o.y, n.y, true) == Some(true)
  }

  /**
   * Of all unit normals, the constraints of a known direction admit exactly
   * the one pointing that way; an unknown direction constrains nothing.
   */
  lemma ResolveOverlapsAdmitsDirection(direction: string, n: Vector)
    requires n.x * n.x + n.y * n.y == 1.0
    ensures DirectionVector(direction).Some? ==>
      (Admits(ResolveOverlaps(direction), n) <==> n == DirectionVector(direction).value)
    ensures DirectionVector(direction).None? ==> Admits(ResolveOverlaps(direction), n)
  {
    if n.x == 0.0 {
      assert n.y * n.y == 1.0;
      SquareIsOne(n.y);
    }
    if n.y == 0.0 {
      assert n.x * n.x == 1.0;
      SquareIsOne(n.x);
    }
  }

  lemma SquareIsOne(v: real)
    requires v * v == 1.0
    ensures v == 1.0 || v == -1.0
  {}

  /**
   * `prepareRestraints` on one rule, as written: a direction becomes overlap
   * constraints, with an unknown one leaving both overlaps `undefined`; the
   * types are resolved and a missing `separate` becomes `true`.
   */
  function PrepareRuleAsWritten(rule: InformalRule): (r: Rule)
    ensures r.neighbour == rule.neighbour
    ensures rule.separate.Some? ==> r.separate == rule.separate.value
    ensures rule.separate.None? ==> r.separate == Flag(true)
    ensures r.types == ResolveTypes(rule.types)
    ensures rule.direction == "" ==> r.overlapX == rule.overlapX && r.overlapY == rule.overlapY
    ensures DirectionVector(rule.direction).Some? ==> Overlaps(r.overlapX, r.overlapY) == ResolveOverlaps(rule.direction)
    ensures rule.direction != "" && DirectionVector(rule.direction).None? ==> r.overlapX.Undefined? && r.overlapY.Undefined?
    ensures WellFormed(rule) ==> !r.overlapX.Undefined? && !r.overlapY.Undefined?
  {
    var o := ResolveOverlaps(rule.direction);
    Rule(rule.neighbour,
      if rule.direction != "" then (if o.x.Absent? then Undefined else o.x) else rule.overlapX,
      if rule.direction != "" then (if o.y.Absent? then Undefined else o.y) else rule.overlapY,
      ResolveTypes(rule.types),
      if rule.separate.None? then Flag(true) else rule.separate.value)
  }

  /**
   * `prepareRestraints` on one rule, with an unknown direction adding no
   * overlap constraint (the `{}` that `resolveOverlaps` returns for it):
   * the direction becomes overlap constraints, the types are resolved and
   * a missing `separate` becomes `true`.
   */
  function PrepareRule(rule: InformalRule): (r: Rule)
    ensures r.neighbour == rule.neighbour
    ensures rule.separate.Some? ==> r.separate == rule.separate.value
    ensures rule.separate.None? ==> r.separate == Flag(true)
    ensures NamesNoUndefined(rule) ==> !r.overlapX.Undefined? && !r.overlapY.Undefined?
    ensures DirectionVector(rule.direction).Some? ==> Overlaps(r.overlapX, r.overlapY) == ResolveOverlaps(rule.direction)
  {
    var o := ResolveOverlaps(rule.direction);
    Rule(rule.neighbour,
      if rule.direction != "" && !o.x.Absent? then o.x else rule.overlapX,
      if rule.direction != "" && !o.y.Absent? then o.y else rule.overlapY,
      ResolveTypes(rule.types),
      if rule.separate.None? then Flag(true) else rule.separate.value)
  }

  /** An informal rule that names no `undefined` overlap. */
  predicate NamesNoUndefined(rule: InformalRule)
  {
    !rule.overlapX.Undefined? && !rule.overlapY.Undefined?
  }

  /** An informal rule that names no `undefined` overlap and whose direction, if any, is one of the four. */
  predicate WellFormed(rule: InformalRule)
  {
    NamesNoUndefined(rule) && (rule.direction == "" || DirectionVector(rule.direction).Some?)
  }

  /** On a well-formed rule the source's preparation and the corrected one agree. */
  lemma PrepareRuleAgrees(rule: InformalRule)
    ensures rule.direction == "" || DirectionVector(rule.direction).Some? ==> PrepareRuleAsWritten(rule) == PrepareRule(rule)
    ensures NamesNoUndefined(rule) ==> (PrepareRuleAsWritten(rule) == PrepareRule(rule) <==> WellFormed(rule))
  {
    if NamesNoUndefined(rule) && !WellFormed(rule) {
      assert PrepareRuleAsWritten(rule).overlapX.Undefined?;
      assert PrepareRule(rule).overlapX == rule.overlapX;
    }
  }

  /** Every entry of a rule's `types` passed through `resolveType`. */
  function ResolveTypes(types: Option<seq<TypeValue>>): (r: Option<seq<TypeValue>>)
    ensures r.Some? <==> types.Some?
    ensures r.Some? ==> |r.value| == |types.value|
    ensures r.Some? ==> forall i :: 0 <= i < |r.value| ==> r.value[i] == ResolveType(types.value[i])
  {
    match types
    case None => None
    case Some(ts) => Some(seq(|ts|, i requires 0 <= i < |ts| => ResolveType(ts[i])))
  }

  // ---------------------------------------------------------------------
  // Matching
  // ---------------------------------------------------------------------

  /** The neighbour-type test of a rule: one of its `types`, or the tile's own type when it lists none. */
  predicate TypeMatches(rule: Rule, tileType: TypeValue, neighbourType: TypeValue)
  {
    if rule.types.Some? then neighbourType in rule.types.value else neighbourType == tileType
  }

  /** The condition `restrain` computes for a rule whose neighbour has a slope; `None` when it throws. */
  function RuleCondition(rule: Rule, tileType: TypeValue, neighbour: TileSlope, n: Vector): (r: Option<bool>)
    ensures r == Some(true) <==>
      TypeMatches(rule, tileType, neighbour.slopeType) && Admits(Overlaps(rule.overlapX, rule.overlapY), n)
  {
    match Check(rule.overlapX, n.x, TypeMatches(rule, tileType, neighbour.slopeType))
    case None => None
    case Some(c) => Check(rule.overlapY, n.y, c)
  }

  /** How the loop of `restrain` ends: no rule matched, rule i matched, or a test threw. */
  datatype Verdict = NoMatch | MatchAt(index: nat) | Throws

  /** A rule matches when its neighbour has a slope and its condition holds. */
  predicate Matches(rule: Rule, tileType: TypeValue, neighbours: Direction -> Option<TileSlope>, n: Vector)
  {
    neighbours(rule.neighbour).Some? && RuleCondition(rule, tileType, neighbours(rule.neighbour).value, n) == Some(true)
  }

  /** A rule's test throws. */
  predicate Raises(rule: Rule, tileType: TypeValue, neighbours: Direction -> Option<TileSlope>, n: Vector)
  {
    neighbours(rule.neighbour).Some? && RuleCondition(rule, tileType, neighbours(rule.neighbour).value, n).None?
  }

  /** The loop of `restrain` from rule `from` on: it stops at the first rule that matches or throws. */
  function FirstMatch(rules: seq<Rule>, tileType: TypeValue, neighbours: Direction -> Option<TileSlope>,
                      n: Vector, from: nat): (v: Verdict)
    requires from <= |rules|
    decreases |rules| - from
    ensures v.MatchAt? ==> from <= v.index < |rules| && Matches(rules[v.index], tileType, neighbours, n)
    ensures v.MatchAt? ==> forall i :: from <= i < v.index ==>
      !Matches(rules[i], tileType, neighbours, n) && !Raises(rules[i], tileType, neighbours, n)
    ensures v == NoMatch <==> forall i :: from <= i < |rules| ==>
      !Matches(rules[i], tileType, neighbours, n) && !Raises(rules[i], tileType, neighbours, n)
  {
    if from == |rules| then NoMatch
    else
      var rule := rules[from];
      var neighbour := neighbours(rule.neighbour);
      if neighbour.None? then FirstMatch(rules, tileType, neighbours, n, from + 1)
      else match RuleCondition(rule, tileType, neighbour.value, n)
        case None => Throws
        case Some(true) => MatchAt(from)
        case Some(false) => FirstMatch(rules, tileType, neighbours, n, from + 1)
  }

  /** Rules without `undefined` overlaps never throw. */
  predicate RulesWellFormed(rules: seq<Rule>)
  {
    forall i :: 0 <= i < |rules| ==> !rules[i].overlapX.Undefined? && !rules[i].overlapY.Undefined?
  }

  lemma {:induction false} WellFormedRulesNeverThrow(rules: seq<Rule>, tileType: TypeValue, neighbours: Direction -> Option<TileSlope>,
                                  n: Vector, from: nat)
    requires from <= |rules| && RulesWellFormed(rules)
    decreases |rules| - from
    ensures FirstMatch(rules, tileType, neighbours, n, from) != Throws
  {
    if from < |rules| {
      WellFormedRulesNeverThrow(rules, tileType, neighbours, n, from + 1);
    }
  }

  /**
   * The unknown-direction defect: prepared as written, a rule with an
   * unrecognised direction throws as soon as its neighbour's type matches.
   */
  lemma UnknownDirectionThrows(rule: InformalRule, tileType: TypeValue, neighbour: TileSlope, n: Vector)
    requires rule.direction != "" && DirectionVector(rule.direction).None?
    requires TypeMatches(PrepareRuleAsWritten(rule), tileType, neighbour.slopeType)
    ensures RuleCondition(PrepareRuleAsWritten(rule), tileType, neighbour, n).None?
    ensures RuleCondition(PrepareRule(rule), tileType, neighbour, n).Some? || !NamesNoUndefined(rule)
  {}

  // ---------------------------------------------------------------------
  // prepareRestraints
  // ---------------------------------------------------------------------

  /** The restraints object before preparation: tile type keys and their rules, in order. */
  type InformalTable = seq<(string, seq<InformalRule>)>

  /** The property name under which a JavaScript object stores a type value. */
  function PropertyKey(v: TypeValue): string
  {
    match v
    case Num(n) => if n >= 0 then Decimal(n) else "-" + Decimal(-n)
    case Name(s) => s
  }

  /** All of an entry's rules prepared. */
  function PrepareRules(rules: seq<InformalRule>): (r: seq<Rule>)
    ensures |r| == |rules| && forall i :: 0 <= i < |r| ==> r[i] == PrepareRuleAsWritten(rules[i])
  {
    seq(|rules|, i requires 0 <= i < |rules| => PrepareRuleAsWritten(rules[i]))
  }

  /** The prepared object after its first i entries: each stored under its resolved type, a later entry replacing an earlier one. */
  function PreparedUpTo(table: InformalTable, i: nat): map<string, seq<Rule>>
    requires i <= |table|
  {
    if i == 0 then map[]
    else PreparedUpTo(table, i - 1)[PropertyKey(ResolveType(Name(table[i - 1].0))) := PrepareRules(table[i - 1].1)]
  }

  function Prepared(table: InformalTable): map<string, seq<Rule>>
  {
    PreparedUpTo(table, |table|)
  }

  /**
   * `prepareRestraints`: rewrites each rule of each entry in turn and files
   * the entry under its resolved type.
   */
  method PrepareRestraints(table: InformalTable) returns (prepared: map<string, seq<Rule>>)
    ensures prepared == Prepared(table)
  {
    prepared := map[];
    var k := 0;
    while k < |table|
      invariant 0 <= k <= |table|
      invariant prepared == PreparedUpTo(table, k)
    {
      prepared := FileEntry(prepared, table, k);
      k := k + 1;
    }
  }

  /** One pass of the outer loop of `prepareRestraints`: entry k prepared and filed under its resolved type. */
  method FileEntry(prepared: map<string, seq<Rule>>, table: InformalTable, k: nat) returns (next: map<string, seq<Rule>>)
    requires k < |table| && prepared == PreparedUpTo(table, k)
    ensures next == PreparedUpTo(table, k + 1)
  {
    var rules := PrepareRuleList(table[k].1);
    var key := PropertyKey(ResolveType(Name(table[k].0)));
    next := prepared[key := rules];
  }

  /** The inner loop of `prepareRestraints`, over one entry's rules. */
  method PrepareRuleList(restraint: seq<InformalRule>) returns (rules: seq<Rule>)
    ensures rules == PrepareRules(restraint)
  {
    rules := [];
    var r := 0;
    while r < |restraint|
      invariant 0 <= r <= |restraint|
      invariant rules == PrepareRules(restraint[..r])
    {
      var rule := PrepareOne(restraint[r]);
      rules := rules + [rule];
      assert restraint[..r + 1] == restraint[..r] + [restraint[r]];
      r := r + 1;
    }
    assert restraint[..|restraint|] == restraint;
  }

  /** The body of that loop: the rule's fields rewritten one by one. */
  method PrepareOne(rule: InformalRule) returns (r: Rule)
    ensures r == PrepareRuleAsWritten(rule)
  {
    var overlapX, overlapY := rule.overlapX, rule.overlapY;
    if rule.direction != "" {
      // a property the resolved object lacks reads as `undefined`
      var resolved := ResolveOverlaps(rule.direction);
      overlapX := if resolved.x.Absent? then Undefined else resolved.x;
      overlapY := if resolved.y.Absent? then Undefined else resolved.y;
    }
    var separate := rule.separate;
    r := Rule(rule.neighbour, overlapX, overlapY, ResolveTypes(rule.types),
      if separate == Some(Flag(false)) || (separate.Some? && separate.value.Test?) then separate.value else Flag(true));
  }

  /** Prepared rules of well-formed entries are well-formed, and so can never throw. */
  lemma {:induction false} PreparedWellFormed(table: InformalTable, i: nat, key: string)
    requires i <= |table|
    requires forall k, j :: 0 <= k < |table| && 0 <= j < |table[k].1| ==> WellFormed(table[k].1[j])
    ensures key in PreparedUpTo(table, i) ==> RulesWellFormed(PreparedUpTo(table, i)[key])
  {
    if i > 0 {
      PreparedWellFormed(table, i - 1, key);
    }
  }

  // ---------------------------------------------------------------------
  // The default restraints
  // ---------------------------------------------------------------------

  /** The type names of a list of slope types, as the vertex tables hold them. */
  function Names(types: seq<SlopeType>): (r: seq<TypeValue>)
    ensures |r| == |types| && forall i :: 0 <= i < |r| ==> r[i] == Name(TypeName(types[i]))
  {
    seq(|types|, i requires 0 <= i < |types| => Name(TypeName(types[i])))
  }

  /** The four directions the default rules name. */
  datatype Heading = Upward | Downward | Leftward | Rightward

  /** A heading's direction string, one that `resolveOverlaps` knows. */
  function HeadingName(d: Heading): (s: string)
    ensures DirectionVector(s).Some?
  {
    match d
    case Upward => "up"
    case Downward => "down"
    case Leftward => "left"
    case Rightward => "right"
  }

  /** A rule of the default table as written: neighbour, direction, the vertex locations its neighbour types come from, separate. */
  datatype Shorthand = Shorthand(neighbour: Direction, direction: Heading, locations: seq<string>, separate: Option<Separate>)

  /** A shorthand rule of the default table, its neighbour types resolved from vertex locations. */
  function Informal(rule: Shorthand): (r: InformalRule)
    ensures WellFormed(r)
  {
    InformalRule(rule.neighbour, HeadingName(rule.direction), Absent, Absent, Some(Names(Resolve(rule.locations))), rule.separate)
  }

  /** `setDefaultRestraints`: the shorthand rules of every type but FULL, their neighbour types resolved. */
  function DefaultInformal(): (table: InformalTable)
    ensures |table| == |DefaultShorthand()|
    ensures forall k :: 0 <= k < |table| ==> table[k].0 == DefaultShorthand()[k].0 && |table[k].1| == |DefaultShorthand()[k].1|
    ensures forall k, j :: 0 <= k < |table| && 0 <= j < |table[k].1| ==> table[k].1[j] == Informal(DefaultShorthand()[k].1[j])
  {
    var rules := DefaultShorthand();
    seq(|rules|, k requires 0 <= k < |rules| =>
      (rules[k].0, seq(|rules[k].1|, j requires 0 <= j < |rules[k].1| => Informal(rules[k].1[j]))))
  }

  /** The default table as `setDefaultRestraints` writes it. */
  function DefaultShorthand(): seq<(string, seq<Shorthand>)>
  {
    [
        ("HALF_TOP", [
          Shorthand(ToLeft, Leftward, ["topRight", "right"], Some(Flag(false))),
          Shorthand(ToRight, Rightward, ["topLeft", "left"], Some(Flag(false)))]),
        ("HALF_BOTTOM", [
          Shorthand(ToLeft, Leftward, ["right", "bottomRight"], Some(Flag(false))),
          Shorthand(ToRight, Rightward, ["left", "bottomLeft"], Some(Flag(false)))]),
        ("HALF_LEFT", [
          Shorthand(Above, Upward, ["bottomLeft", "bottom"], Some(Flag(false))),
          Shorthand(Below, Downward, ["topLeft", "top"], Some(Flag(false)))]),
        ("HALF_RIGHT", [
          Shorthand(Above, Upward, ["bottom", "bottomRight"], Some(Flag(false))),
          Shorthand(Below, Downward, ["top", "topRight"], Some(Flag(false)))]),
        ("HALF_BOTTOM_LEFT", [
          Shorthand(BottomRight, Rightward, ["topLeft"], None),
          Shorthand(TopLeft, Upward, ["bottomRight"], None)]),
        ("HALF_BOTTOM_RIGHT", [
          Shorthand(BottomLeft, Leftward, ["topRight"], None),
          Shorthand(TopRight, Upward, ["bottomLeft"], None)]),
        ("HALF_TOP_LEFT", [
          Shorthand(TopRight, Rightward, ["bottomLeft"], None),
          Shorthand(BottomLeft, Downward, ["topRight"], None)]),
        ("HALF_TOP_RIGHT", [
          Shorthand(TopLeft, Leftward, ["bottomRight"], None),
          Shorthand(BottomRight, Downward, ["topLeft"], None)]),
        ("QUARTER_BOTTOM_LEFT_LOW", [
          Shorthand(BottomRight, Rightward, ["topLeft"], None),
          Shorthand(ToLeft, Upward, ["topLeft", "right", "bottomRight"], None),
          Shorthand(ToLeft, Leftward, ["right", "bottomRight"], Some(Flag(false)))]),
        ("QUARTER_BOTTOM_LEFT_HIGH", [
          Shorthand(ToRight, Rightward, ["left", "bottomLeft"], Some(Test(BodyBottomInside))),
          Shorthand(TopLeft, Upward, ["bottomRight"], None)]),
        ("QUARTER_BOTTOM_RIGHT_LOW", [
          Shorthand(BottomLeft, Leftward, ["topRight"], None),
          Shorthand(ToRight, Upward, ["topRight", "left", "bottomLeft"], None),
          Shorthand(ToRight, Rightward, ["left", "bottomLeft"], Some(Flag(false)))]),
        ("QUARTER_BOTTOM_RIGHT_HIGH", [
          Shorthand(ToLeft, Leftward, ["right", "bottomRight"], Some(Test(BodyBottomInside))),
          Shorthand(TopRight, Upward, ["bottomLeft"], None)]),
        ("QUARTER_LEFT_BOTTOM_LOW", [
          Shorthand(Above, Upward, ["topLeft", "left"], Some(Test(BodyLeftInside))),
          Shorthand(BottomRight, Rightward, ["topLeft"], None)]),
        ("QUARTER_LEFT_BOTTOM_HIGH", [
          Shorthand(TopLeft, Upward, ["bottomRight"], None),
          Shorthand(Below, Downward, ["topLeft", "top"], Some(Flag(false))),
          Shorthand(Below, Rightward, ["topLeft", "top", "bottomRight"], None)]),
        ("QUARTER_RIGHT_BOTTOM_LOW", [
          Shorthand(Above, Upward, ["bottom", "bottomRight"], Some(Test(BodyRightInside))),
          Shorthand(BottomLeft, Leftward, ["topRight"], None)]),
        ("QUARTER_RIGHT_BOTTOM_HIGH", [
          Shorthand(TopRight, Upward, ["bottomLeft"], None),
          Shorthand(Below, Downward, ["top", "topRight"], Some(Flag(false))),
          Shorthand(Below, Leftward, ["top", "topRight", "bottomLeft"], None)]),
        ("QUARTER_LEFT_TOP_LOW", [
          Shorthand(Above, Upward, ["bottomLeft", "bottom"], None),
          Shorthand(Above, Rightward, ["bottomLeft", "bottom"], Some(Flag(false))),
          Shorthand(BottomLeft, Downward, ["topRight"], None)]),
        ("QUARTER_LEFT_TOP_HIGH", [
          Shorthand(TopRight, Rightward, ["bottomLeft"], None),
          Shorthand(Below, Downward, ["topLeft", "top"], Some(Test(BodyLeftInside)))]),
        ("QUARTER_RIGHT_TOP_LOW", [
          Shorthand(Above, Upward, ["bottom", "bottomRight"], None),
          Shorthand(Above, Leftward, ["bottom", "bottomRight"], Some(Flag(false))),
          Shorthand(BottomRight, Downward, ["topLeft"], None)]),
        ("QUARTER_RIGHT_TOP_HIGH", [
          Shorthand(TopLeft, Leftward, ["bottomRight"], None),
          Shorthand(Below, Downward, ["top", "topRight"], Some(Test(BodyRightInside)))]),
        ("QUARTER_TOP_LEFT_LOW", [
          Shorthand(TopRight, Rightward, ["bottomLeft"], None),
          Shorthand(ToLeft, Leftward, ["topRight", "right"], Some(Flag(false))),
          Shorthand(ToLeft, Downward, ["bottomLeft", "topRight", "right"], None)]),
        ("QUARTER_TOP_LEFT_HIGH", [
          Shorthand(ToRight, Rightward, ["topLeft", "left"], Some(Test(BodyTopInside))),
          Shorthand(BottomLeft, Downward, ["topRight"], None)]),
        ("QUARTER_TOP_RIGHT_LOW", [
          Shorthand(TopLeft, Leftward, ["bottomRight"], None),
          Shorthand(ToRight, Rightward, ["topLeft", "left"], Some(Flag(false))),
          Shorthand(ToRight, Downward, ["bottomRight", "topLeft", "left"], None)]),
        ("QUARTER_TOP_RIGHT_HIGH", [
          Shorthand(ToLeft, Leftward, ["topRight", "right"], Some(Test(BodyTopInside))),
          Shorthand(BottomRight, Downward, ["topLeft"], None)])
      ]
    
  }

  /** Every rule of the default table is well-formed, so its prepared rules never throw. */
  lemma DefaultRestraintsWellFormed()
    ensures forall key :: key in Prepared(DefaultInformal()) ==> RulesWellFormed(Prepared(DefaultInformal())[key])
  {
    var table := DefaultInformal();
    forall key | key in Prepared(table)
      ensures RulesWellFormed(Prepared(table)[key])
    {
      PreparedWellFormed(table, |table|, key);
    }
  }
}
