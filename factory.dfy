/*
 * The tile slope factory: the neighbour lookups of a tilemap layer, the
 * edge-flag rule `compareEdges`, the in-place `calculateEdges` pass over a
 * layer, `create` and `convertTilemapLayer`.
 *
 * A layer is a grid of tiles indexed `[y, x]` (rows first, as Phaser stores
 * `layer.data`); a cell holds `Some(slope)` when the tile has a `slope`
 * property and `None` when it has not.
 */
module Factory {
  import opened Wrappers
  import opened Geometry
  import opened Catalog

  // ---------------------------------------------------------------------
  // Neighbours
  // ---------------------------------------------------------------------

  /** The eight neighbour directions of `tile.neighbours`. */
  datatype Direction =
    | Above | Below | ToLeft | ToRight
    | TopLeft | TopRight | BottomLeft | BottomRight

  function DeltaX(d: Direction): int
  {
    match d
    case ToLeft | TopLeft | BottomLeft => -1
    case ToRight | TopRight | BottomRight => 1
    case Above | Below => 0
  }

  function DeltaY(d: Direction): int
  {
    match d
    case Above | TopLeft | TopRight => -1
    case Below | BottomLeft | BottomRight => 1
    case ToLeft | ToRight => 0
  }

  /** The direction that looks back from the neighbour. */
  function Opposite(d: Direction): (o: Direction)
    ensures DeltaX(o) == -DeltaX(d) && DeltaY(o) == -DeltaY(d)
  {
    match d
    case Above => Below
    case Below => Above
    case ToLeft => ToRight
    case ToRight => ToLeft
    case TopLeft => BottomRight
    case TopRight => BottomLeft
    case BottomLeft => TopRight
    case BottomRight => TopLeft
  }

  predicate InLayer(w: int, h: int, x: int, y: int)
  {
    0 <= x < w && 0 <= y < h
  }

  /**
   * The tile getters `getTileAbove` … `getTileBottomRight` on a layer of
   * `w` columns and `h` rows, as the coordinates of the tile they return
   * (`None` for `null`), each guarded by the bounds test it makes.
   */
  function Neighbour(w: int, h: int, x: int, y: int, d: Direction): (r: Option<(int, int)>)
    ensures InLayer(w, h, x, y) ==>
      (r.Some? <==> InLayer(w, h, x + DeltaX(d), y + DeltaY(d)))
    ensures r.Some? ==> r.value == (x + DeltaX(d), y + DeltaY(d))
  {
    var ok := match d
      case Above => y > 0
      case Below => y < h - 1
      case ToLeft => x > 0
      case ToRight => x < w - 1
      case TopLeft => x > 0 && y > 0
      case TopRight => x < w - 1 && y > 0
      case BottomLeft => x > 0 && y < h - 1
      case BottomRight => x < w - 1 && y < h - 1;
    if ok then Some((x + DeltaX(d), y + DeltaY(d))) else None
  }

  /** Neighbourhood is symmetric: the tile a getter finds sees the first tile in the opposite direction. */
  lemma NeighbourSymmetric(w: int, h: int, x: int, y: int, d: Direction)
    requires InLayer(w, h, x, y) && Neighbour(w, h, x, y, d).Some?
    ensures var p := Neighbour(w, h, x, y, d).value;
      Neighbour(w, h, p.0, p.1, Opposite(d)) == Some((x, y))
  {
    var p := Neighbour(w, h, x, y, d).value;
    assert InLayer(w, h, p.0, p.1);
    assert InLayer(w, h, p.0 + DeltaX(Opposite(d)), p.1 + DeltaY(Opposite(d)));
  }

  // ---------------------------------------------------------------------
  // Edge flags
  // ---------------------------------------------------------------------

  /**
   * `compareEdges`: the flag the first of two shared edges keeps once it is
   * compared with the second. A SOLID edge facing a SOLID or EMPTY edge is
   * cleared to EMPTY; every other flag is kept.
   */
  function CompareEdges(first: Edge, second: Edge): (r: Edge)
    ensures r == Empty || r == first
    ensures r != first <==> first == Solid && second != Interesting
  {
    match (first, second)
    case (Solid, Solid) => Empty
    case (Solid, Empty) => Empty
    case _ => first
  }

  /** INTERESTING and EMPTY edges are never altered, and comparing twice changes nothing more. */
  lemma CompareEdgesFixedPoints(first: Edge, second: Edge)
    ensures first != Solid ==> CompareEdges(first, second) == first
    ensures CompareEdges(CompareEdges(first, second), second) == CompareEdges(first, second)
  {}

  /**
   * Comparing against a neighbour's edge that was already compared against
   * ours gives the same flag as comparing against the neighbour's original
   * edge: the order in which the two tiles are visited does not matter.
   */
  lemma CompareEdgesOrderFree(mine: Edge, theirs: Edge)
    ensures CompareEdges(mine, CompareEdges(theirs, mine)) == CompareEdges(mine, theirs)
  {}

  // ---------------------------------------------------------------------
  // Layers as values
  // ---------------------------------------------------------------------

  type Row = seq<Option<TileSlope>>

  /** A layer of `w` columns and `h` rows. */
  predicate Rectangular(l: seq<Row>, w: int, h: int)
  {
    |l| == h && forall y :: 0 <= y < h ==> |l[y]| == w
  }

  /** The tile at the given coordinates, or `None` when there is none. */
  function Cell(l: seq<Row>, p: Option<(int, int)>): Option<TileSlope>
  {
    if p.Some? && 0 <= p.value.1 < |l| && 0 <= p.value.0 < |l[p.value.1]| then l[p.value.1][p.value.0] else None
  }

  /** The neighbour of `(x, y)` in direction `d`, when it exists and has a slope. */
  function Peer(l: seq<Row>, w: int, h: int, x: int, y: int, d: Direction): Option<TileSlope>
  {
    Cell(l, Neighbour(w, h, x, y, d))
  }

  /** One edge of a tile compared with the facing edge of its neighbour, if that neighbour has a slope. */
  function Against(mine: Edge, neighbour: Option<TileSlope>, facing: Side): Edge
  {
    if neighbour.Some? then CompareEdges(mine, EdgeAtSide(neighbour.value.edges, facing)) else mine
  }

  /**
   * What `calculateEdges` does to one tile, given its four orthogonal
   * neighbours: each edge is compared with the opposite edge of the tile
   * on that side.
   */
  function Settle(cell: Option<TileSlope>, above: Option<TileSlope>, below: Option<TileSlope>,
                  left: Option<TileSlope>, right: Option<TileSlope>): Option<TileSlope>
  {
    match cell
    case None => None
    case Some(s) =>
      Some(s.(edges := Edges(
        Against(s.edges.top, above, Bottom),
        Against(s.edges.bottom, below, Top),
        Against(s.edges.left, left, Right),
        Against(s.edges.right, right, Left))))
  }

  /** The tile at `(x, y)` once every tile of the layer has been settled against the original layer `l`. */
  function Settled(l: seq<Row>, w: int, h: int, x: int, y: int): Option<TileSlope>
  {
    Settle(Cell(l, Some((x, y))),
      Peer(l, w, h, x, y, Above), Peer(l, w, h, x, y, Below),
      Peer(l, w, h, x, y, ToLeft), Peer(l, w, h, x, y, ToRight))
  }

  /**
   * Settling only ever clears edges: a tile without a slope stays without,
   * a tile keeps everything but its edges, each new flag is EMPTY or the old
   * flag, and a side whose neighbour has no slope is left alone.
   */
  lemma SettleOnlyClearsEdges(l: seq<Row>, w: int, h: int, x: int, y: int, s: Side)
    ensures Settled(l, w, h, x, y).Some? <==> Cell(l, Some((x, y))).Some?
    ensures Cell(l, Some((x, y))).Some? ==>
      var t := Cell(l, Some((x, y))).value;
      var t' := Settled(l, w, h, x, y).value;
      && t' == t.(edges := t'.edges)
      && (EdgeAtSide(t'.edges, s) == Empty || EdgeAtSide(t'.edges, s) == EdgeAtSide(t.edges, s))
      && (Peer(l, w, h, x, y, SideDirection(s)).None? ==> EdgeAtSide(t'.edges, s) == EdgeAtSide(t.edges, s))
  {
    if Cell(l, Some((x, y))).Some? {
      var t := Cell(l, Some((x, y))).value;
      var t' := Settled(l, w, h, x, y).value;
      match s
      case Top =>
        assert EdgeAtSide(t'.edges, s) == Against(t.edges.top, Peer(l, w, h, x, y, Above), Bottom);
      case Bottom =>
        assert EdgeAtSide(t'.edges, s) == Against(t.edges.bottom, Peer(l, w, h, x, y, Below), Top);
      case Left =>
        assert EdgeAtSide(t'.edges, s) == Against(t.edges.left, Peer(l, w, h, x, y, ToLeft), Right);
      case Right =>
        assert EdgeAtSide(t'.edges, s) == Against(t.edges.right, Peer(l, w, h, x, y, ToRight), Left);
    }
  }

  /** The neighbour direction on each side of a tile. */
  function SideDirection(s: Side): Direction
  {
    match s
    case Top => Above
    case Bottom => Below
    case Left => ToLeft
    case Right => ToRight
  }

  /**
   * Where two sloped tiles share an edge that both mark SOLID, settling
   * clears it on both sides.
   */
  lemma SharedSolidEdgeVanishes(l: seq<Row>, w: int, h: int, x: int, y: int)
    requires Rectangular(l, w, h) && InLayer(w, h, x, y) && y > 0
    requires Cell(l, Some((x, y))).Some? && Cell(l, Some((x, y - 1))).Some?
    requires Cell(l, Some((x, y))).value.edges.top == Solid
    requires Cell(l, Some((x, y - 1))).value.edges.bottom == Solid
    ensures Settled(l, w, h, x, y).value.edges.top == Empty
    ensures Settled(l, w, h, x, y - 1).value.edges.bottom == Empty
  {
    assert Neighbour(w, h, x, y, Above) == Some((x, y - 1));
    assert Neighbour(w, h, x, y - 1, Below) == Some((x, y));
  }

  /**
   * The sequential pass visits the tiles above and to the left first, so a
   * tile reads those neighbours already settled; it still ends in the state
   * the order-free `Settled` describes.
   */
  lemma SettleInRowMajorOrder(l: seq<Row>, w: int, h: int, x: int, y: int,
                              above: Option<TileSlope>, left: Option<TileSlope>)
    requires Rectangular(l, w, h) && InLayer(w, h, x, y) && Cell(l, Some((x, y))).Some?
    requires above == (if y > 0 then Settled(l, w, h, x, y - 1) else None)
    requires left == (if x > 0 then Settled(l, w, h, x - 1, y) else None)
    ensures Settle(Cell(l, Some((x, y))), above, Peer(l, w, h, x, y, Below), left, Peer(l, w, h, x, y, ToRight))
         == Settled(l, w, h, x, y)
  {
    var t := Cell(l, Some((x, y))).value;
    if y > 0 {
      assert Neighbour(w, h, x, y, Above) == Some((x, y - 1));
      assert Neighbour(w, h, x, y - 1, Below) == Some((x, y));
      var u := Cell(l, Some((x, y - 1)));
      if u.Some? {
        CompareEdgesOrderFree(t.edges.top, u.value.edges.bottom);
      }
    } else {
      assert Neighbour(w, h, x, y, Above) == None;
    }
    if x > 0 {
      assert Neighbour(w, h, x, y, ToLeft) == Some((x - 1, y));
      assert Neighbour(w, h, x - 1, y, ToRight) == Some((x, y));
      var u := Cell(l, Some((x - 1, y)));
      if u.Some? {
        CompareEdgesOrderFree(t.edges.left, u.value.edges.right);
      }
    } else {
      assert Neighbour(w, h, x, y, ToLeft) == None;
    }
  }

  // ---------------------------------------------------------------------
  // The layer grid
  // ---------------------------------------------------------------------

  /** The contents of a layer grid as a value. */
  ghost function Snapshot(g: array2<Option<TileSlope>>): (l: seq<Row>)
    reads g
    ensures Rectangular(l, g.Length1, g.Length0)
    ensures forall y, x :: 0 <= y < g.Length0 && 0 <= x < g.Length1 ==> l[y][x] == g[y, x]
  {
    seq(g.Length0, y requires 0 <= y < g.Length0 reads g =>
      seq(g.Length1, x requires 0 <= x < g.Length1 reads g => g[y, x]))
  }

  /** The tile a getter returns, read from the grid. */
  method TileAt(g: array2<Option<TileSlope>>, p: Option<(int, int)>) returns (t: Option<TileSlope>)
    ensures t == Cell(Snapshot(g), p)
  {
    if p.Some? && 0 <= p.value.1 < g.Length0 && 0 <= p.value.0 < g.Length1 {
      t := g[p.value.1, p.value.0];
    } else {
      t := None;
    }
  }

  /** `(i, j)` comes before `(x, y)` in row-major order. */
  predicate Before(i: int, j: int, x: int, y: int)
  {
    j < y || (j == y && i < x)
  }

  /**
   * `calculateEdges`: visits the tiles row by row and rewrites the edge
   * flags of each tile with a slope against its four orthogonal
   * neighbours, in place. Each tile ends as `Settled` describes against the
   * layer as it was before the pass.
   */
  method CalculateEdges(g: array2<Option<TileSlope>>)
    modifies g
    ensures forall y, x :: 0 <= y < g.Length0 && 0 <= x < g.Length1 ==>
      g[y, x] == Settled(old(Snapshot(g)), g.Length1, g.Length0, x, y)
  {
    ghost var l := Snapshot(g);
    var w, h := g.Length1, g.Length0;
    var y := 0;
    while y < h
      invariant 0 <= y <= h
      invariant forall j, i :: 0 <= j < h && 0 <= i < w ==>
        g[j, i] == (if j < y then Settled(l, w, h, i, j) else l[j][i])
    {
      var x := 0;
      while x < w
        invariant 0 <= x <= w
        invariant SettledBefore(g, l, x, y)
      {
        SettleTile(g, l, x, y);
        x := x + 1;
      }
      y := y + 1;
    }
  }

  /** The layer part way through `calculateEdges`: the tiles before `(x, y)` are settled, the rest as they were. */
  ghost predicate SettledBefore(g: array2<Option<TileSlope>>, l: seq<Row>, x: int, y: int)
    reads g
  {
    && Rectangular(l, g.Length1, g.Length0)
    && forall j, i :: 0 <= j < g.Length0 && 0 <= i < g.Length1 ==>
      g[j, i] == (if Before(i, j, x, y) then Settled(l, g.Length1, g.Length0, i, j) else l[j][i])
  }

  /** The body of the inner loop of `calculateEdges`, for the tile at `(x, y)`. */
  method SettleTile(g: array2<Option<TileSlope>>, ghost l: seq<Row>, x: int, y: int)
    requires InLayer(g.Length1, g.Length0, x, y) && SettledBefore(g, l, x, y)
    modifies g
    ensures SettledBefore(g, l, x + 1, y)
  {
    var w, h := g.Length1, g.Length0;
    var tile := g[y, x];
    if tile.Some? {
      var above, below, left, right := GetNeighbours(g, l, x, y);
      var e := CompareWithNeighbours(tile.value, above, below, left, right);
      SettleInRowMajorOrder(l, w, h, x, y, above, left);
      g[y, x] := Some(tile.value.(edges := e));
    } else {
      assert Settled(l, w, h, x, y) == None;
    }
  }

  /** The four `compareEdges` updates of one tile's edges, in the order `calculateEdges` makes them. */
  method CompareWithNeighbours(t: TileSlope, above: Option<TileSlope>, below: Option<TileSlope>,
                               left: Option<TileSlope>, right: Option<TileSlope>) returns (e: Edges)
    ensures Some(t.(edges := e)) == Settle(Some(t), above, below, left, right)
  {
    e := t.edges;
    if above.Some? {
      e := e.(top := CompareEdges(e.top, above.value.edges.bottom));
    }
    if below.Some? {
      e := e.(bottom := CompareEdges(e.bottom, below.value.edges.top));
    }
    if left.Some? {
      e := e.(left := CompareEdges(e.left, left.value.edges.right));
    }
    if right.Some? {
      e := e.(right := CompareEdges(e.right, right.value.edges.left));
    }
  }

  /** The four orthogonal neighbours of `(x, y)`, as `calculateEdges` reads them part way through. */
  method GetNeighbours(g: array2<Option<TileSlope>>, ghost l: seq<Row>, x: int, y: int)
    returns (above: Option<TileSlope>, below: Option<TileSlope>, left: Option<TileSlope>, right: Option<TileSlope>)
    requires InLayer(g.Length1, g.Length0, x, y) && SettledBefore(g, l, x, y)
    ensures above == (if y > 0 then Settled(l, g.Length1, g.Length0, x, y - 1) else None)
    ensures left == (if x > 0 then Settled(l, g.Length1, g.Length0, x - 1, y) else None)
    ensures below == Peer(l, g.Length1, g.Length0, x, y, Below)
    ensures right == Peer(l, g.Length1, g.Length0, x, y, ToRight)
  {
    var w, h := g.Length1, g.Length0;
    above := TileAt(g, Neighbour(w, h, x, y, Above));
    below := TileAt(g, Neighbour(w, h, x, y, Below));
    left := TileAt(g, Neighbour(w, h, x, y, ToLeft));
    right := TileAt(g, Neighbour(w, h, x, y, ToRight));
  }

  // ---------------------------------------------------------------------
  // create and convertTilemapLayer
  // ---------------------------------------------------------------------

  /**
   * The definition a resolved type finds in the factory's `definitions`
   * object. Its keys are the property names "0" to "24"; a number looks up
   * its decimal form, a string looks itself up, so "05" or "+5" find
   * nothing.
   */
  function Definition(v: TypeValue): (r: Option<SlopeType>)
    ensures r.Some? ==> v == Num(Code(r.value)) || v == Name(Decimal(Code(r.value)))
  {
    match v
    case Num(n) => FromCode(n)
    case Name(s) =>
      if 1 <= |s| <= 2 && IsDigit(s[0]) && (|s| == 1 || (IsDigit(s[1]) && s[0] != '0'))
      then (assert s == Decimal(DigitsValue(s)) by { DecimalOfShort(s); }
            FromCode(DigitsValue(s)))
      else None
  }

  /** A short canonical digit string is the decimal form of its value. */
  lemma DecimalOfShort(s: string)
    requires 1 <= |s| <= 2 && IsDigit(s[0]) && (|s| == 1 || (IsDigit(s[1]) && s[0] != '0'))
    ensures s == Decimal(DigitsValue(s))
  {
    if |s| == 2 {
      assert s[..1] == [s[0]];
      assert DigitsValue(s) == DigitsValue(s[..1]) * 10 + (s[1] as int - '0' as int);
    }
  }

  /** Every slope type is found both by its constant and by the constant's decimal string. */
  lemma DefinitionOfEveryType(t: SlopeType)
    ensures Definition(Num(Code(t))) == Some(t)
    ensures Definition(Name(Decimal(Code(t)))) == Some(t)
  {
    CodeRoundTrip(t);
    var n := Code(t);
    DecimalRoundTrip(n);
    DecimalIsCanonical(n);
    assert Definition(Name(Decimal(n))) == FromCode(DigitsValue(Decimal(n)));
  }

  /** The decimal form of a number below 100 has one or two digits and no leading zero. */
  lemma DecimalIsCanonical(n: nat)
    requires n < 100
    ensures var s := Decimal(n);
      1 <= |s| <= 2 && IsDigit(s[0]) && (|s| == 1 || (IsDigit(s[1]) && s[0] != '0'))
  {
    if n >= 10 {
      assert Decimal(n) == [('0' as int + n / 10) as char] + [('0' as int + n % 10) as char];
    }
  }

  /**
   * `create`: resolves the type and, when the factory has a definition for
   * it, builds the slope for the tile with the resolved type; otherwise
   * there is no slope (`null`).
   */
  function Create(v: TypeValue, tile: TileBox, normalize: Vector -> Vector): (r: Option<TileSlope>)
    ensures r.Some? <==> Definition(ResolveType(v)).Some?
    ensures r.Some? ==> r.value.slopeType == ResolveType(v)
  {
    var resolved := ResolveType(v);
    match Definition(resolved)
    case None => None
    case Some(t) => Some(Build(t, resolved, tile, normalize))
  }

  /** Every slope type can be created by its constant, its name or its constant's decimal string. */
  lemma CreateEveryType(t: SlopeType, tile: TileBox, normalize: Vector -> Vector)
    ensures Create(Num(Code(t)), tile, normalize) == Some(Build(t, Num(Code(t)), tile, normalize))
    ensures Create(Name(TypeName(t)), tile, normalize) == Some(Build(t, Num(Code(t)), tile, normalize))
    ensures Create(Name(Decimal(Code(t))), tile, normalize) == Some(Build(t, Name(Decimal(Code(t))), tile, normalize))
  {
    ResolveTypeOfType(t);
    DefinitionOfEveryType(t);
    assert ResolveType(Name(Decimal(Code(t)))) == Name(Decimal(Code(t))) by {
      DecimalParses(Code(t));
    }
  }

  /** The tile of column `x` and row `y` on a layer of tiles `tw` by `th`. */
  function TileOf(x: int, y: int, tw: real, th: real): TileBox
  {
    TileBox(x as real * tw, y as real * th, tw, th)
  }

  /**
   * The first half of `convertTilemapLayer` for one tile: a tile whose
   * index has an entry in the slope map gets the slope `create` builds, if
   * it builds one; every other tile keeps whatever slope it had.
   */
  function Attach(old_: Option<TileSlope>, index: int, slopeMap: map<int, TypeValue>, tile: TileBox,
                  normalize: Vector -> Vector): (r: Option<TileSlope>)
    ensures index !in slopeMap ==> r == old_
    ensures index in slopeMap ==> r == (if Create(slopeMap[index], tile, normalize).Some?
                                        then Create(slopeMap[index], tile, normalize) else old_)
  {
    if index in slopeMap then
      match Create(slopeMap[index], tile, normalize)
      case Some(s) => Some(s)
      case None => old_
    else old_
  }

  /**
   * `convertTilemapLayer`: attaches a slope to every tile whose index the
   * slope map names, then runs `calculateEdges` over the layer. `indices`
   * holds each tile's `index`, and the tiles are `tw` by `th` in size.
   */
  method ConvertTilemapLayer(g: array2<Option<TileSlope>>, indices: array2<int>, slopeMap: map<int, TypeValue>,
                             tw: real, th: real, normalize: Vector -> Vector)
    requires indices.Length0 == g.Length0 && indices.Length1 == g.Length1
    modifies g
    ensures forall y, x :: 0 <= y < g.Length0 && 0 <= x < g.Length1 && old(g[y, x]).Some? ==> g[y, x].Some?
    ensures forall y, x :: 0 <= y < g.Length0 && 0 <= x < g.Length1 ==>
      g[y, x] == Settled(Attached(old(Snapshot(g)), indices, slopeMap, tw, th, normalize), g.Length1, g.Length0, x, y)
  {
    ghost var l0 := Snapshot(g);
    var w, h := g.Length1, g.Length0;
    AttachSlopes(g, indices, slopeMap, tw, th, normalize);
    SameLayer(Snapshot(g), Attached(l0, indices, slopeMap, tw, th, normalize), w, h);
    ghost var l1 := Snapshot(g);
    CalculateEdges(g);
    forall y, x | 0 <= y < h && 0 <= x < w
      ensures l0[y][x].Some? ==> g[y, x].Some?
    {
      SettleOnlyClearsEdges(l1, w, h, x, y, Top);
    }
  }

  /** The first loop of `convertTilemapLayer`, which attaches the slopes tile by tile. */
  method AttachSlopes(g: array2<Option<TileSlope>>, indices: array2<int>, slopeMap: map<int, TypeValue>,
                      tw: real, th: real, normalize: Vector -> Vector)
    requires indices.Length0 == g.Length0 && indices.Length1 == g.Length1
    modifies g
    ensures forall j, i :: 0 <= j < g.Length0 && 0 <= i < g.Length1 ==>
      g[j, i] == Attach(old(g[j, i]), indices[j, i], slopeMap, TileOf(i, j, tw, th), normalize)
  {
    var w, h := g.Length1, g.Length0;
    var y := 0;
    while y < h
      invariant 0 <= y <= h
      invariant forall j, i :: 0 <= j < h && 0 <= i < w ==>
        g[j, i] == (if j < y then Attach(old(g[j, i]), indices[j, i], slopeMap, TileOf(i, j, tw, th), normalize) else old(g[j, i]))
    {
      var x := 0;
      while x < w
        invariant 0 <= x <= w
        invariant forall j, i :: 0 <= j < h && 0 <= i < w ==>
          g[j, i] == (if Before(i, j, x, y) then Attach(old(g[j, i]), indices[j, i], slopeMap, TileOf(i, j, tw, th), normalize) else old(g[j, i]))
      {
        AttachTile(g, indices, slopeMap, tw, th, normalize, x, y);
        x := x + 1;
      }
      y := y + 1;
    }
  }

  /** The body of the first loop of `convertTilemapLayer`, for the tile at `(x, y)`. */
  method AttachTile(g: array2<Option<TileSlope>>, indices: array2<int>, slopeMap: map<int, TypeValue>,
                    tw: real, th: real, normalize: Vector -> Vector, x: int, y: int)
    requires indices.Length0 == g.Length0 && indices.Length1 == g.Length1 && InLayer(g.Length1, g.Length0, x, y)
    modifies g
    ensures forall j, i :: 0 <= j < g.Length0 && 0 <= i < g.Length1 ==>
      g[j, i] == (if i == x && j == y then Attach(old(g[j, i]), indices[j, i], slopeMap, TileOf(i, j, tw, th), normalize)
                  else old(g[j, i]))
  {
    if indices[y, x] in slopeMap {
      var slope := Create(slopeMap[indices[y, x]], TileOf(x, y, tw, th), normalize);
      if slope.Some? {
        g[y, x] := slope;
      }
    }
  }

  /** Two layers of the same shape with the same tiles are the same layer. */
  lemma SameLayer(a: seq<Row>, b: seq<Row>, w: int, h: int)
    requires Rectangular(a, w, h) && Rectangular(b, w, h)
    requires forall y, x :: 0 <= y < h && 0 <= x < w ==> a[y][x] == b[y][x]
    ensures a == b
  {
    forall y | 0 <= y < h
      ensures a[y] == b[y]
    {}
  }

  /** The layer once every tile has had its slope attached. */
  ghost function Attached(l: seq<Row>, indices: array2<int>, slopeMap: map<int, TypeValue>,
                          tw: real, th: real, normalize: Vector -> Vector): (r: seq<Row>)
    requires Rectangular(l, indices.Length1, indices.Length0)
    reads indices
    ensures Rectangular(r, indices.Length1, indices.Length0)
  {
    seq(indices.Length0, y requires 0 <= y < indices.Length0 reads indices =>
      seq(indices.Length1, x requires 0 <= x < indices.Length1 reads indices =>
        Attach(l[y][x], indices[y, x], slopeMap, TileOf(x, y, tw, th), normalize)))
  }
}
