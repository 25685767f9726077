/**
 * The tile slope catalogue: the edge flags, the 25 slope type constants and
 * their names, type resolution from numbers and names, the TileSlope record
 * and the shape each `create*` builder gives a tile (tile-local polygon
 * points, INTERESTING edges and preferred separation axis).
 */
module Catalog {
  import opened Wrappers
  import opened Geometry

  // ------------------------------------------------------------------ Edges

  /** An edge flag: `EMPTY` (0), `SOLID` (1) or `INTERESTING` (2). */
  datatype Edge = Empty | Solid | Interesting

  function EdgeCode(e: Edge): (c: int)
    ensures 0 <= c <= 2
  {
    match e
    case Empty => 0
    case Solid => 1
    case Interesting => 2
  }

  datatype Side = Top | Bottom | Left | Right

  /** The edge flags of a tile slope. */
  datatype Edges = Edges(top: Edge, bottom: Edge, left: Edge, right: Edge)

  function EdgeAtSide(e: Edges, s: Side): Edge
  {
    match s
    case Top => e.top
    case Bottom => e.bottom
    case Left => e.left
    case Right => e.right
  }

  /**
   * The TileSlope constructor's mixin: the sides a builder lists are
   * INTERESTING, and every side it leaves out takes the SOLID default.
   */
  function MixinEdges(interesting: set<Side>): (e: Edges)
    ensures forall s: Side :: EdgeAtSide(e, s) == (if s in interesting then Interesting else Solid)
  {
    Edges(
      if Top in interesting then Interesting else Solid,
      if Bottom in interesting then Interesting else Solid,
      if Left in interesting then Interesting else Solid,
      if Right in interesting then Interesting else Solid)
  }

  // ------------------------------------------------------------- Slope types

  datatype SlopeType =
    | Full
    | HalfBottom | HalfTop | HalfLeft | HalfRight
    | HalfBottomLeft | HalfBottomRight | HalfTopLeft | HalfTopRight
    | QuarterBottomLeftLow | QuarterBottomLeftHigh | QuarterBottomRightLow | QuarterBottomRightHigh
    | QuarterLeftBottomLow | QuarterLeftBottomHigh | QuarterRightBottomLow | QuarterRightBottomHigh
    | QuarterLeftTopLow | QuarterLeftTopHigh | QuarterRightTopLow | QuarterRightTopHigh
    | QuarterTopLeftLow | QuarterTopLeftHigh | QuarterTopRightLow | QuarterTopRightHigh

  /** The `UNKNOWN` type constant. */
  const Unknown := -1

  /** The numeric constant of each slope type. */
  function Code(t: SlopeType): (c: int)
    ensures 0 <= c <= 24
  {
    match t
    case Full => 0
    case HalfBottom => 21
    case HalfTop => 22
    case HalfLeft => 23
    case HalfRight => 24
    case HalfBottomLeft => 1
    case HalfBottomRight => 2
    case HalfTopLeft => 3
    case HalfTopRight => 4
    case QuarterBottomLeftLow => 5
    case QuarterBottomLeftHigh => 6
    case QuarterBottomRightLow => 7
    case QuarterBottomRightHigh => 8
    case QuarterLeftBottomLow => 9
    case QuarterLeftBottomHigh => 10
    case QuarterRightBottomLow => 11
    case QuarterRightBottomHigh => 12
    case QuarterLeftTopLow => 13
    case QuarterLeftTopHigh => 14
    case QuarterRightTopLow => 15
    case QuarterRightTopHigh => 16
    case QuarterTopLeftLow => 17
    case QuarterTopLeftHigh => 18
    case QuarterTopRightLow => 19
    case QuarterTopRightHigh => 20
  }

  /** The slope type a numeric constant stands for; 0 to 24 are all taken, and nothing else is. */
  function FromCode(n: int): (r: Option<SlopeType>)
    ensures r.Some? <==> 0 <= n <= 24
    ensures r.Some? ==> Code(r.value) == n
  {
    match n
    case 0 => Some(Full)
    case 21 => Some(HalfBottom)
    case 22 => Some(HalfTop)
    case 23 => Some(HalfLeft)
    case 24 => Some(HalfRight)
    case 1 => Some(HalfBottomLeft)
    case 2 => Some(HalfBottomRight)
    case 3 => Some(HalfTopLeft)
    case 4 => Some(HalfTopRight)
    case 5 => Some(QuarterBottomLeftLow)
    case 6 => Some(QuarterBottomLeftHigh)
    case 7 => Some(QuarterBottomRightLow)
    case 8 => Some(QuarterBottomRightHigh)
    case 9 => Some(QuarterLeftBottomLow)
    case 10 => Some(QuarterLeftBottomHigh)
    case 11 => Some(QuarterRightBottomLow)
    case 12 => Some(QuarterRightBottomHigh)
    case 13 => Some(QuarterLeftTopLow)
    case 14 => Some(QuarterLeftTopHigh)
    case 15 => Some(QuarterRightTopLow)
    case 16 => Some(QuarterRightTopHigh)
    case 17 => Some(QuarterTopLeftLow)
    case 18 => Some(QuarterTopLeftHigh)
    case 19 => Some(QuarterTopRightLow)
    case 20 => Some(QuarterTopRightHigh)
    case _ => None
  }

  /** Distinct types have distinct constants, so a constant names exactly one type. */
  lemma CodeRoundTrip(t: SlopeType)
    ensures FromCode(Code(t)) == Some(t)
  {}

  /** The `typeNames` entry of each slope type; every one starts with a capital letter. */
  function TypeName(t: SlopeType): (name: string)
    ensures |name| > 0 && 'A' <= name[0] <= 'Z'
  {
    match t
    case Full => "FULL"
    case HalfBottom => "HALF_BOTTOM"
    case HalfTop => "HALF_TOP"
    case HalfLeft => "HALF_LEFT"
    case HalfRight => "HALF_RIGHT"
    case HalfBottomLeft => "HALF_BOTTOM_LEFT"
    case HalfBottomRight => "HALF_BOTTOM_RIGHT"
    case HalfTopLeft => "HALF_TOP_LEFT"
    case HalfTopRight => "HALF_TOP_RIGHT"
    case QuarterBottomLeftLow => "QUARTER_BOTTOM_LEFT_LOW"
    case QuarterBottomLeftHigh => "QUARTER_BOTTOM_LEFT_HIGH"
    case QuarterBottomRightLow => "QUARTER_BOTTOM_RIGHT_LOW"
    case QuarterBottomRightHigh => "QUARTER_BOTTOM_RIGHT_HIGH"
    case QuarterLeftBottomLow => "QUARTER_LEFT_BOTTOM_LOW"
    case QuarterLeftBottomHigh => "QUARTER_LEFT_BOTTOM_HIGH"
    case QuarterRightBottomLow => "QUARTER_RIGHT_BOTTOM_LOW"
    case QuarterRightBottomHigh => "QUARTER_RIGHT_BOTTOM_HIGH"
    case QuarterLeftTopLow => "QUARTER_LEFT_TOP_LOW"
    case QuarterLeftTopHigh => "QUARTER_LEFT_TOP_HIGH"
    case QuarterRightTopLow => "QUARTER_RIGHT_TOP_LOW"
    case QuarterRightTopHigh => "QUARTER_RIGHT_TOP_HIGH"
    case QuarterTopLeftLow => "QUARTER_TOP_LEFT_LOW"
    case QuarterTopLeftHigh => "QUARTER_TOP_LEFT_HIGH"
    case QuarterTopRightLow => "QUARTER_TOP_RIGHT_LOW"
    case QuarterTopRightHigh => "QUARTER_TOP_RIGHT_HIGH"
  }

  /**
   * The numeric own properties of the TileSlope constructor that a name can
   * look up: the 25 type constants, `UNKNOWN`, the three edge flags and
   * `length`, the constructor's six declared parameters.
   */
  function NamedConstant(s: string): (r: Option<int>)
    ensures forall t :: s == TypeName(t) ==> r == Some(Code(t))
    ensures s == "length" ==> r == Some(6)
  {
    match s
    case "EMPTY" => Some(0)
    case "SOLID" => Some(1)
    case "INTERESTING" => Some(2)
    case "UNKNOWN" => Some(-1)
    case "length" => Some(6)
    case "FULL" => Some(0)
    case "HALF_BOTTOM" => Some(21)
    case "HALF_TOP" => Some(22)
    case "HALF_LEFT" => Some(23)
    case "HALF_RIGHT" => Some(24)
    case "HALF_BOTTOM_LEFT" => Some(1)
    case "HALF_BOTTOM_RIGHT" => Some(2)
    case "HALF_TOP_LEFT" => Some(3)
    case "HALF_TOP_RIGHT" => Some(4)
    case "QUARTER_BOTTOM_LEFT_LOW" => Some(5)
    case "QUARTER_BOTTOM_LEFT_HIGH" => Some(6)
    case "QUARTER_BOTTOM_RIGHT_LOW" => Some(7)
    case "QUARTER_BOTTOM_RIGHT_HIGH" => Some(8)
    case "QUARTER_LEFT_BOTTOM_LOW" => Some(9)
    case "QUARTER_LEFT_BOTTOM_HIGH" => Some(10)
    case "QUARTER_RIGHT_BOTTOM_LOW" => Some(11)
    case "QUARTER_RIGHT_BOTTOM_HIGH" => Some(12)
    case "QUARTER_LEFT_TOP_LOW" => Some(13)
    case "QUARTER_LEFT_TOP_HIGH" => Some(14)
    case "QUARTER_RIGHT_TOP_LOW" => Some(15)
    case "QUARTER_RIGHT_TOP_HIGH" => Some(16)
    case "QUARTER_TOP_LEFT_LOW" => Some(17)
    case "QUARTER_TOP_LEFT_HIGH" => Some(18)
    case "QUARTER_TOP_RIGHT_LOW" => Some(19)
    case "QUARTER_TOP_RIGHT_HIGH" => Some(20)
    case _ => None
  }

  // --------------------------------------------------------- Type resolution

  /** A slope type as a caller gives it: a number, or a string (a name or digits). */
  datatype TypeValue = Num(n: int) | Name(s: string)

  predicate IsDigit(c: char) { '0' <= c <= '9' }

  /** The number of decimal digits at the front of s. */
  function DigitRun(s: string): (n: nat)
    ensures n <= |s|
    ensures forall i :: 0 <= i < n ==> IsDigit(s[i])
    ensures n < |s| ==> !IsDigit(s[n])
  {
    if |s| > 0 && IsDigit(s[0]) then 1 + DigitRun(s[1..]) else 0
  }

  /** The value of a string of decimal digits. */
  function DigitsValue(s: string): (v: int)
    requires forall i :: 0 <= i < |s| ==> IsDigit(s[i])
    ensures v >= 0
  {
    if |s| == 0 then 0
    else
      assert IsDigit(s[|s| - 1]);
      10 * DigitsValue(s[..|s| - 1]) + (s[|s| - 1] as int - '0' as int)
  }

  /**
   * `parseInt` on a string: an optional sign followed by at least one digit,
   * read up to the first non-digit; no number (`NaN`) otherwise.
   */
  function ParseInt(s: string): (r: Option<int>)
    ensures r.Some? <==> (|s| > 0 && IsDigit(s[0])) || (|s| > 1 && (s[0] == '-' || s[0] == '+') && IsDigit(s[1]))
  {
    var signed := |s| > 0 && (s[0] == '-' || s[0] == '+');
    var body := if signed then s[1..] else s;
    var n := DigitRun(body);
    if n == 0 then None
    else
      var v := DigitsValue(body[..n]);
      var r: int := if signed && s[0] == '-' then -v else v;
      Some(r)
  }

  /** The decimal digits of a natural number: the property name JavaScript gives it. */
  function Decimal(n: nat): (s: string)
    ensures |s| > 0 && forall i :: 0 <= i < |s| ==> IsDigit(s[i])
  {
    if n < 10 then [('0' as int + n) as char] else Decimal(n / 10) + [('0' as int + n % 10) as char]
  }

  /** Reading the digits of a number back gives the number. */
  lemma {:induction false} DecimalRoundTrip(n: nat)
    ensures DigitsValue(Decimal(n)) == n
  {
    if n >= 10 {
      var s := Decimal(n);
      DecimalRoundTrip(n / 10);
      assert s[..|s| - 1] == Decimal(n / 10);
    }
  }

  /** A decimal string parses to its own number, so `resolveType` keeps it verbatim. */
  lemma DecimalParses(n: nat)
    ensures ParseInt(Decimal(n)) == Some(n)
  {
    var s := Decimal(n);
    assert IsDigit(s[0]);
    assert s[..DigitRun(s)] == s;
    DecimalRoundTrip(n);
  }

  /**
   * `TileSlope.resolveType`: anything whose integer reading is above -1 is
   * returned as it is (a digit string stays a string); otherwise a name of
   * a TileSlope constant resolves to that constant; anything else is
   * `UNKNOWN`.
   */
  function ResolveType(v: TypeValue): (r: TypeValue)
    ensures r == v || r == Num(Unknown) || (v.Name? && r.Num? && Some(r.n) == NamedConstant(v.s))
    ensures v.Num? ==> r == (if v.n > -1 then v else Num(Unknown))
    ensures r.Num? ==> r.n >= -1
  {
    match v
    case Num(n) => if n > -1 then v else Num(Unknown)
    case Name(s) =>
      var p := ParseInt(s);
      if p.Some? && p.value > -1 then v
      else if NamedConstant(s).Some? then Num(NamedConstant(s).value)
      else Num(Unknown)
  }

  /** Resolving twice gives what resolving once gave. */
  lemma ResolveTypeIdempotent(v: TypeValue)
    ensures ResolveType(ResolveType(v)) == ResolveType(v)
  {
    match v
    case Num(_) =>
    case Name(s) =>
      var p := ParseInt(s);
      if !(p.Some? && p.value > -1) && NamedConstant(s).Some? {
        assert ResolveType(v) == Num(NamedConstant(s).value);
      }
  }

  /** Every type's name and every type's constant resolve to that constant. */
  lemma ResolveTypeOfType(t: SlopeType)
    ensures ResolveType(Name(TypeName(t))) == Num(Code(t))
    ensures ResolveType(Num(Code(t))) == Num(Code(t))
  {
    NameIsNotNumeric(t);
  }

  /** No type name starts with a sign or a digit, so `parseInt` reads none of them as a number. */
  lemma NameIsNotNumeric(t: SlopeType)
    ensures ParseInt(TypeName(t)).None?
  {}

  /** `TileSlope.resolveTypeName`: the `typeNames` entry, or `UNKNOWN` for any other number. */
  function ResolveTypeName(n: int): (name: string)
    ensures forall t :: n == Code(t) ==> name == TypeName(t)
    ensures FromCode(n).None? ==> name == "UNKNOWN"
  {
    match FromCode(n)
    case Some(t) => TypeName(t)
    case None => "UNKNOWN"
  }

  /** Naming a number and resolving the name gives the number back when it is a type, and `UNKNOWN` otherwise. */
  lemma NameRoundTrip(n: int)
    ensures ResolveType(Name(ResolveTypeName(n))) == Num(if 0 <= n <= 24 then n else Unknown)
  {
    match FromCode(n)
    case Some(t) => ResolveTypeOfType(t);
    case None =>
  }

  // ------------------------------------------------------------- Tile slopes

  /** The part of a Phaser tile a builder reads: its world position and size. */
  datatype TileBox = TileBox(worldX: real, worldY: real, width: real, height: real)

  /**
   * A TileSlope: the resolved type as the factory passed it, the polygon in
   * world position, the edge flags and the preferred separation axis; the
   * friction starts at (0, 0).
   */
  datatype TileSlope = TileSlope(slopeType: TypeValue, polygon: Polygon, edges: Edges, axis: Option<Vector>, friction: Vector)

  /**
   * The `typeNames` entry under a property name: its keys are "-1" and the
   * decimal forms of the 25 constants, so a string finds the type whose
   * constant it spells and anything else falls back to `UNKNOWN`.
   */
  function KeyTypeName(s: string): (name: string)
    ensures forall t :: s == Decimal(Code(t)) ==> name == TypeName(t)
    ensures (forall t :: s != Decimal(Code(t))) ==> name == "UNKNOWN"
  {
    if |s| > 0 && (forall i :: 0 <= i < |s| ==> IsDigit(s[i])) && Decimal(DigitsValue(s)) == s
    then
      assert forall t :: s == Decimal(Code(t)) ==> DigitsValue(s) == Code(t) by {
        forall t | s == Decimal(Code(t)) ensures DigitsValue(s) == Code(t) {
          DecimalRoundTrip(Code(t));
        }
      }
      ResolveTypeName(DigitsValue(s))
    else
      assert forall t :: s != Decimal(Code(t)) by {
        forall t ensures s != Decimal(Code(t)) {
          DecimalRoundTrip(Code(t));
        }
      }
      "UNKNOWN"
  }

  /**
   * The `typeName` getter, `resolveTypeName` of the type: a number is looked
   * up by its decimal form, a string (a digit string `resolveType` kept) by
   * itself.
   */
  function SlopeTypeName(slope: TileSlope): (name: string)
    ensures slope.slopeType.Num? ==> name == ResolveTypeName(slope.slopeType.n)
    ensures forall t :: slope.slopeType == Name(Decimal(Code(t))) ==> name == TypeName(t)
    ensures slope.slopeType.Name? && (forall t :: slope.slopeType.s != Decimal(Code(t))) ==> name == "UNKNOWN"
  {
    match slope.slopeType
    case Num(n) => ResolveTypeName(n)
    case Name(s) => KeyTypeName(s)
  }

  /** The `typeName` setter: the type becomes the resolved value, nothing else changes. */
  function WithTypeName(slope: TileSlope, v: TypeValue): (r: TileSlope)
    ensures r.slopeType == ResolveType(v)
    ensures r.(slopeType := slope.slopeType) == slope
  {
    slope.(slopeType := ResolveType(v))
  }

  /** Setting a type as `typeName`, by its name, its constant or the constant's decimal string, reads its name back. */
  lemma TypeNameSetGet(slope: TileSlope, t: SlopeType)
    ensures SlopeTypeName(WithTypeName(slope, Name(TypeName(t)))) == TypeName(t)
    ensures SlopeTypeName(WithTypeName(slope, Num(Code(t)))) == TypeName(t)
    ensures SlopeTypeName(WithTypeName(slope, Name(Decimal(Code(t))))) == TypeName(t)
  {
    ResolveTypeOfType(t);
    DecimalParses(Code(t));
  }

  /** The axis constants of the quarter slopes: 1/sqrt(5) and 2/sqrt(5) as doubles. */
  const A: real := 0.4472135954999579
  const B: real := 0.8944271909999159
  /** 1/sqrt(2) as a double. */
  const D: real := 0.7071067811865475

  /** The tile-local points of each builder's polygon, for a w by h tile (y grows downwards). */
  function ShapePoints(t: SlopeType, w: real, h: real): (pts: seq<Vector>)
    ensures 3 <= |pts| <= 4
  {
    var tl, tr, br, bl := Vector(0.0, 0.0), Vector(w, 0.0), Vector(w, h), Vector(0.0, h);
    match t
    case Full => [tl, tr, br, bl]
    case HalfBottom => [Vector(0.0, h / 2.0), Vector(w, h / 2.0), br, bl]
    case HalfTop => [tl, tr, Vector(w, h / 2.0), Vector(0.0, h / 2.0)]
    case HalfLeft => [tl, Vector(w / 2.0, 0.0), Vector(w / 2.0, h), bl]
    case HalfRight => [Vector(w / 2.0, 0.0), tr, br, Vector(w / 2.0, h)]
    case HalfBottomLeft => [tl, br, bl]
    case HalfBottomRight => [tr, br, bl]
    case HalfTopLeft => [tl, tr, bl]
    case HalfTopRight => [tl, tr, br]
    case QuarterBottomLeftLow => [Vector(0.0, h / 2.0), br, bl]
    case QuarterBottomLeftHigh => [tl, Vector(w, h / 2.0), br, bl]
    case QuarterBottomRightLow => [Vector(w, h / 2.0), br, bl]
    case QuarterBottomRightHigh => [tr, Vector(0.0, h / 2.0), bl, br]
    case QuarterLeftBottomLow => [tl, Vector(w / 2.0, 0.0), br, bl]
    case QuarterLeftBottomHigh => [tl, Vector(w / 2.0, h), bl]
    case QuarterRightBottomLow => [Vector(w / 2.0, 0.0), tr, br, bl]
    case QuarterRightBottomHigh => [tr, br, Vector(w / 2.0, h)]
    case QuarterLeftTopLow => [tl, Vector(w / 2.0, 0.0), bl]
    case QuarterLeftTopHigh => [tl, tr, Vector(w / 2.0, h), bl]
    case QuarterRightTopLow => [Vector(w / 2.0, 0.0), tr, br]
    case QuarterRightTopHigh => [tl, tr, br, Vector(w / 2.0, h)]
    case QuarterTopLeftLow => [tl, tr, Vector(0.0, h / 2.0)]
    case QuarterTopLeftHigh => [tl, tr, Vector(w, h / 2.0), bl]
    case QuarterTopRightLow => [tl, tr, Vector(w, h / 2.0)]
    case QuarterTopRightHigh => [tl, tr, br, Vector(0.0, h / 2.0)]
  }

  /** The sides each builder marks INTERESTING, as the source writes them. */
  function InterestingSidesAsWritten(t: SlopeType): set<Side>
  {
    match t
    case QuarterRightTopLow => {Top, Bottom, Right}
    case QuarterRightTopHigh => {Bottom, Right}
    case _ => InterestingSides(t)
  }

  /** The source's table and the corrected one differ only on the two right-top quarter slopes. */
  lemma InterestingSidesAgree(t: SlopeType)
    ensures InterestingSidesAsWritten(t) == InterestingSides(t) <==> t != QuarterRightTopLow && t != QuarterRightTopHigh
  {
    if t == QuarterRightTopLow || t == QuarterRightTopHigh {
      assert Right in InterestingSidesAsWritten(t) && Right !in InterestingSides(t);
    }
  }

  /**
   * The sides each builder marks INTERESTING, with the two right-top quarter
   * slopes marking their open left side instead of their solid right side,
   * as their mirror images (the left-top quarter slopes) do.
   */
  function InterestingSides(t: SlopeType): set<Side>
  {
    match t
    case Full => {}
    case HalfBottom => {Top, Left, Right}
    case HalfTop => {Bottom, Left, Right}
    case HalfLeft => {Top, Bottom, Right}
    case HalfRight => {Top, Bottom, Left}
    case HalfBottomLeft => {Top, Right}
    case HalfBottomRight => {Top, Left}
    case HalfTopLeft => {Bottom, Right}
    case HalfTopRight => {Bottom, Left}
    case QuarterBottomLeftLow => {Top, Left, Right}
    case QuarterBottomLeftHigh => {Top, Right}
    case QuarterBottomRightLow => {Top, Left, Right}
    case QuarterBottomRightHigh => {Top, Left}
    case QuarterLeftBottomLow => {Top, Right}
    case QuarterLeftBottomHigh => {Top, Bottom, Right}
    case QuarterRightBottomLow => {Top, Left}
    case QuarterRightBottomHigh => {Top, Bottom, Left}
    case QuarterLeftTopLow => {Top, Bottom, Right}
    case QuarterLeftTopHigh => {Bottom, Right}
    case QuarterRightTopLow => {Top, Bottom, Left}
    case QuarterRightTopHigh => {Bottom, Left}
    case QuarterTopLeftLow => {Bottom, Left, Right}
    case QuarterTopLeftHigh => {Bottom, Right}
    case QuarterTopRightLow => {Bottom, Left, Right}
    case QuarterTopRightHigh => {Bottom, Left}
  }

  /** The axis a builder hands to the TileSlope: none for the full and half tiles. */
  function PreferredAxis(t: SlopeType): Option<Vector>
  {
    match t
    case Full => None
    case HalfBottom => None
    case HalfTop => None
    case HalfLeft => None
    case HalfRight => None
    case HalfBottomLeft => Some(Vector(D, -D))
    case HalfBottomRight => Some(Vector(-0.707106781186548, -0.707106781186548))
    case HalfTopLeft => Some(Vector(D, D))
    case HalfTopRight => Some(Vector(-D, D))
    case QuarterBottomLeftLow => Some(Vector(A, -B))
    case QuarterBottomLeftHigh => Some(Vector(A, -B))
    case QuarterBottomRightLow => Some(Vector(-A, -B))
    case QuarterBottomRightHigh => Some(Vector(-A, -B))
    case QuarterLeftBottomLow => Some(Vector(B, -A))
    case QuarterLeftBottomHigh => Some(Vector(B, -A))
    case QuarterRightBottomLow => Some(Vector(-B, -A))
    case QuarterRightBottomHigh => Some(Vector(-B, -A))
    case QuarterLeftTopLow => Some(Vector(B, A))
    case QuarterLeftTopHigh => Some(Vector(B, A))
    case QuarterRightTopLow => Some(Vector(-B, A))
    case QuarterRightTopHigh => Some(Vector(-B, A))
    case QuarterTopLeftLow => Some(Vector(A, B))
    case QuarterTopLeftHigh => Some(Vector(A, B))
    case QuarterTopRightLow => Some(Vector(-A, B))
    case QuarterTopRightHigh => Some(Vector(-A, B))
  }

  /** The full and half tiles have straight sides only; the other twenty are sloped. */
  predicate IsSloped(t: SlopeType)
  {
    !(t.Full? || t.HalfBottom? || t.HalfTop? || t.HalfLeft? || t.HalfRight?)
  }

  /**
   * The `create*` builder for type t: the polygon at the tile's world
   * position (a Box turned into a polygon for the full tile), the mixed-in
   * edge flags and the preferred axis.
   */
  function Build(t: SlopeType, slopeType: TypeValue, tile: TileBox, normalize: Vector -> Vector): (slope: TileSlope)
    ensures slope.slopeType == slopeType && slope.friction == Zero
    ensures slope.polygon.pos == Vector(tile.worldX, tile.worldY)
    ensures slope.polygon.points == ShapePoints(t, tile.width, tile.height)
    ensures forall s :: EdgeAtSide(slope.edges, s) == (if s in InterestingSidesAsWritten(t) then Interesting else Solid)
    ensures slope.axis.Some? <==> IsSloped(t)
  {
    var pos := Vector(tile.worldX, tile.worldY);
    var polygon :=
      if t == Full then BoxToPolygon(pos, tile.width, tile.height, normalize)
      else NewPolygon(pos, ShapePoints(t, tile.width, tile.height), normalize);
    TileSlope(slopeType, polygon, MixinEdges(InterestingSidesAsWritten(t)), PreferredAxis(t), Zero)
  }

  // ------------------------------------------------------ What the shapes mean

  /** The two tile corners at the ends of a side. */
  function Corners(s: Side, w: real, h: real): (Vector, Vector)
  {
    match s
    case Top => (Vector(0.0, 0.0), Vector(w, 0.0))
    case Bottom => (Vector(0.0, h), Vector(w, h))
    case Left => (Vector(0.0, 0.0), Vector(0.0, h))
    case Right => (Vector(w, 0.0), Vector(w, h))
  }

  /** The shape covers a whole side of the tile: both of its corners are vertices. */
  predicate CoversSide(pts: seq<Vector>, s: Side, w: real, h: real)
  {
    Corners(s, w, h).0 in pts && Corners(s, w, h).1 in pts
  }

  /**
   * A side is SOLID exactly when the shape covers it: an INTERESTING side is
   * one the shape leaves at least partly open. This holds for every type
   * once the two right-top quarter slopes are corrected.
   */
  lemma InterestingIffOpen(t: SlopeType, s: Side, w: real, h: real)
    requires w > 0.0 && h > 0.0
    ensures s in InterestingSides(t) <==> !CoversSide(ShapePoints(t, w, h), s, w, h)
  {
    var pts := ShapePoints(t, w, h);
    assert w / 2.0 != 0.0 && w / 2.0 != w && h / 2.0 != 0.0 && h / 2.0 != h;
    match t
    case Full => assert pts[0] == Corners(s, w, h).0 || pts[1] == Corners(s, w, h).0 || pts[2] == Corners(s, w, h).0 || pts[3] == Corners(s, w, h).0;
    case _ =>
  }

  /** As written, the right-top quarter slopes call their solid right side INTERESTING and their open left side SOLID. */
  lemma RightTopQuarterEdgesAsWritten(w: real, h: real)
    requires w > 0.0 && h > 0.0
    ensures Right in InterestingSidesAsWritten(QuarterRightTopLow) && CoversSide(ShapePoints(QuarterRightTopLow, w, h), Right, w, h)
    ensures Left !in InterestingSidesAsWritten(QuarterRightTopLow) && !CoversSide(ShapePoints(QuarterRightTopLow, w, h), Left, w, h)
    ensures Right in InterestingSidesAsWritten(QuarterRightTopHigh) && CoversSide(ShapePoints(QuarterRightTopHigh, w, h), Right, w, h)
    ensures Left !in InterestingSidesAsWritten(QuarterRightTopHigh) && !CoversSide(ShapePoints(QuarterRightTopHigh, w, h), Left, w, h)
  {
    assert w / 2.0 != 0.0;
    assert ShapePoints(QuarterRightTopLow, w, h)[1] == Vector(w, 0.0);
    assert ShapePoints(QuarterRightTopLow, w, h)[2] == Vector(w, h);
    assert ShapePoints(QuarterRightTopHigh, w, h)[1] == Vector(w, 0.0);
    assert ShapePoints(QuarterRightTopHigh, w, h)[2] == Vector(w, h);
  }

  /** Every builder's points lie in the tile, [0, w] by [0, h]. */
  lemma ShapeInsideTile(t: SlopeType, w: real, h: real, i: nat)
    requires w >= 0.0 && h >= 0.0 && i < |ShapePoints(t, w, h)|
    ensures 0.0 <= ShapePoints(t, w, h)[i].x <= w && 0.0 <= ShapePoints(t, w, h)[i].y <= h
  {}

  /** The preferred axes have unit length, to within double rounding. */
  lemma AxisNearlyUnit(t: SlopeType)
    requires PreferredAxis(t).Some?
    ensures var v := PreferredAxis(t).value; -0.00000000000001 < Dot(v, v) - 1.0 < 0.00000000000001
  {}

  /** The index, in each builder's points, of the edge that carries the slope (0 for the tiles without one). */
  function SlopedEdge(t: SlopeType): nat
  {
    match t
    case HalfBottomLeft => 0
    case HalfBottomRight => 2
    case HalfTopLeft => 1
    case HalfTopRight => 2
    case QuarterBottomLeftLow => 0
    case QuarterBottomLeftHigh => 0
    case QuarterBottomRightLow => 2
    case QuarterBottomRightHigh => 0
    case QuarterLeftBottomLow => 1
    case QuarterLeftBottomHigh => 0
    case QuarterRightBottomLow => 3
    case QuarterRightBottomHigh => 2
    case QuarterLeftTopLow => 1
    case QuarterLeftTopHigh => 1
    case QuarterRightTopLow => 2
    case QuarterRightTopHigh => 3
    case QuarterTopLeftLow => 1
    case QuarterTopLeftHigh => 2
    case QuarterTopRightLow => 2
    case QuarterTopRightHigh => 2
    case _ => 0
  }

  /**
   * On a square tile the preferred axis is perpendicular to the polygon's
   * sloped edge, to within one part in 10^12 of the tile size.
   */
  lemma AxisPerpendicularToSlope(t: SlopeType, w: real)
    requires w > 0.0 && PreferredAxis(t).Some?
    ensures SlopedEdge(t) < |ShapePoints(t, w, w)|
    ensures var e := EdgeAt(ShapePoints(t, w, w), SlopedEdge(t));
      -w / 1000000000000.0 <= Dot(e, PreferredAxis(t).value) <= w / 1000000000000.0
  {
    if PreferredAxis(t).value.y < 0.0 {
      FloorAxisPerpendicularToSlope(t, w);
    } else {
      CeilingAxisPerpendicularToSlope(t, w);
    }
  }

  /** The perpendicularity for the slopes whose axis points up (floors). */
  lemma FloorAxisPerpendicularToSlope(t: SlopeType, w: real)
    requires w > 0.0 && PreferredAxis(t).Some? && PreferredAxis(t).value.y < 0.0
    ensures SlopedEdge(t) < |ShapePoints(t, w, w)|
    ensures var e := EdgeAt(ShapePoints(t, w, w), SlopedEdge(t));
      -w / 1000000000000.0 <= Dot(e, PreferredAxis(t).value) <= w / 1000000000000.0
  {}

  /** The perpendicularity for the slopes whose axis points down (ceilings). */
  lemma CeilingAxisPerpendicularToSlope(t: SlopeType, w: real)
    requires w > 0.0 && PreferredAxis(t).Some? && PreferredAxis(t).value.y >= 0.0
    ensures SlopedEdge(t) < |ShapePoints(t, w, w)|
    ensures var e := EdgeAt(ShapePoints(t, w, w), SlopedEdge(t));
      -w / 1000000000000.0 <= Dot(e, PreferredAxis(t).value) <= w / 1000000000000.0
  {}

  /** No vertex of the polygon lies beyond its sloped edge in the direction of the axis (to the same tolerance). */
  ghost predicate NothingBeyond(pts: seq<Vector>, i: nat, axis: Vector, w: real)
    requires i < |pts|
  {
    forall j :: 0 <= j < |pts| ==> Dot(Sub(pts[j], pts[i]), axis) <= w / 1000000000000.0
  }

  /** So the preferred axis is the outward normal of the slope: it points away from the solid part of the tile. */
  lemma AxisPointsOutOfShape(t: SlopeType, w: real)
    requires w > 0.0 && PreferredAxis(t).Some?
    ensures SlopedEdge(t) < |ShapePoints(t, w, w)|
    ensures NothingBeyond(ShapePoints(t, w, w), SlopedEdge(t), PreferredAxis(t).value, w)
  {
    if PreferredAxis(t).value.y < 0.0 {
      FloorAxisPointsOutOfShape(t, w);
    } else {
      CeilingAxisPointsOutOfShape(t, w);
    }
  }

  /** The outward direction for the floor slopes. */
  lemma FloorAxisPointsOutOfShape(t: SlopeType, w: real)
    requires w > 0.0 && PreferredAxis(t).Some? && PreferredAxis(t).value.y < 0.0
    ensures SlopedEdge(t) < |ShapePoints(t, w, w)|
    ensures NothingBeyond(ShapePoints(t, w, w), SlopedEdge(t), PreferredAxis(t).value, w)
  {}

  /** The outward direction for the ceiling slopes. */
  lemma CeilingAxisPointsOutOfShape(t: SlopeType, w: real)
    requires w > 0.0 && PreferredAxis(t).Some? && PreferredAxis(t).value.y >= 0.0
    ensures SlopedEdge(t) < |ShapePoints(t, w, w)|
    ensures NothingBeyond(ShapePoints(t, w, w), SlopedEdge(t), PreferredAxis(t).value, w)
  {}

  /**
   * The preferred axis points out through INTERESTING sides only: a
   * negative y component means the top is INTERESTING, a positive one the
   * bottom, and likewise for x with left and right.
   */
  lemma AxisPointsThroughInterestingSides(t: SlopeType)
    requires PreferredAxis(t).Some?
    ensures var v := PreferredAxis(t).value;
      (v.y < 0.0 ==> Top in InterestingSides(t)) && (v.y > 0.0 ==> Bottom in InterestingSides(t)) &&
      (v.x < 0.0 ==> Left in InterestingSides(t)) && (v.x > 0.0 ==> Right in InterestingSides(t))
  {}
}
