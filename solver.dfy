/*
 * The SAT solver: what a collision between a physics body and a sloped
 * tile does to the body.
 *
 * Each step of `collide` has a specification function on body values
 * (`BodyState`) that says what it returns and what the body becomes; the
 * methods of `SatSolver` and `SatRestrainer` work on a `Body` object in
 * place and are proved to follow those functions. Lemmas beside the
 * functions state what the steps promise.
 */
module Solver {
  import opened Wrappers
  import opened Geometry
  import opened Catalog
  import opened Factory
  import opened Restraints

  // ---------------------------------------------------------------------
  // Bodies and tiles
  // ---------------------------------------------------------------------

  /** The four `touching` or `blocked` flags of a body. */
  datatype Flags = Flags(up: bool, down: bool, left: bool, right: bool)

  /**
   * A body's `slopes` settings: its friction, whether it prefers Y
   * separation, the four pull amounts (zero for none) and the velocity it
   * had before its last collision response.
   */
  datatype SlopesConfig = SlopesConfig(
    friction: Vector, preferY: bool,
    pullUp: real, pullDown: real, pullLeft: real, pullRight: real,
    velocity: Vector)

  /** The observable state of an arcade physics body. */
  datatype BodyState = BodyState(
    enable: bool, position: Vector, width: real, height: real,
    velocity: Vector, bounce: Vector,
    polygon: Option<Polygon>, slopes: Option<SlopesConfig>,
    touching: Flags, blocked: Flags,
    overlapX: real, overlapY: real)

  /**
   * A tile as the solver sees it: its bounds, its slope (if any), its
   * neighbours' slopes (if `convertTilemapLayer` gave it neighbours), and
   * the results its tile-level and layer-level collision callbacks give,
   * when it has them.
   */
  datatype Tile = Tile(
    box: TileBox, slope: Option<TileSlope>,
    neighbours: Option<Direction -> Option<TileSlope>>,
    collisionCallback: Option<bool>, layerCallback: Option<bool>)

  /** The solver options: `preferY` and `restrain`. */
  datatype Options = Options(preferY: bool, restrain: bool)

  /** What a step returns, and the body after it. */
  datatype Outcome = Outcome(result: bool, body: BodyState)

  /** The response of a fresh `new SAT.Response()`. */
  const FreshResponse := ResponseState(None, None, Zero, Zero, MaxValue, true, true)

  /**
   * The collision steps never change how a body is configured: whether it
   * is enabled, its size, bounce, polygon shape and slopes settings (only
   * the recorded velocity in the settings changes).
   */
  predicate SameConfig(s: BodyState, t: BodyState)
  {
    t.enable == s.enable && t.width == s.width && t.height == s.height && t.bounce == s.bounce &&
    (t.slopes.Some? <==> s.slopes.Some?) &&
    (s.slopes.Some? ==> t.slopes.value.(velocity := Zero) == s.slopes.value.(velocity := Zero)) &&
    (t.polygon.Some? <==> s.polygon.Some?) &&
    (s.polygon.Some? ==> t.polygon.value.points == s.polygon.value.points && t.polygon.value.normals == s.polygon.value.normals)
  }

  // ---------------------------------------------------------------------
  // Small helpers of the solver
  // ---------------------------------------------------------------------

  /** `prepareResponse`: both overlap vectors scaled by -1, so that they face out of the tile. */
  function Inverted(r: ResponseState): (t: ResponseState)
    ensures t.overlap == r.overlap && t.a == r.a && t.b == r.b
    ensures Dot(t.overlapN, r.overlapN) == -Dot(r.overlapN, r.overlapN)
    ensures Dot(t.overlapV, r.overlapV) == -Dot(r.overlapV, r.overlapV)
  {
    r.(overlapV := Scale(r.overlapV, -1.0), overlapN := Scale(r.overlapN, -1.0))
  }

  /** Inverting twice gives the response back. */
  lemma InvertedTwice(r: ResponseState)
    ensures Inverted(Inverted(r)) == r
  {
    assert Scale(Scale(r.overlapV, -1.0), -1.0) == r.overlapV;
    assert Scale(Scale(r.overlapN, -1.0), -1.0) == r.overlapN;
  }

  /** `prepareResponse`, in place. */
  method PrepareResponse(response: Response)
    modifies response
    ensures response.State() == Inverted(old(response.State()))
  {
    response.overlapV := Scale(response.overlapV, -1.0);
    response.overlapN := Scale(response.overlapN, -1.0);
  }

  /** `minimumOffsetX`: the horizontal shift that moves a point as far along v as v itself reaches. */
  function MinimumOffsetX(v: Vector): (d: real)
    requires v.x != 0.0
    ensures Dot(Vector(d, 0.0), v) == Dot(v, v)
  {
    (v.y * v.y) / v.x + v.x
  }

  /** `minimumOffsetY`: the vertical shift that moves a point as far along v as v itself reaches. */
  function MinimumOffsetY(v: Vector): (d: real)
    requires v.y != 0.0
    ensures Dot(Vector(0.0, d), v) == Dot(v, v)
  {
    (v.x * v.x) / v.y + v.y
  }

  /** `movingAgainstY`: the body's vertical velocity opposes the overlap vector's vertical part. */
  function MovingAgainstY(overlapV: Vector, velocity: Vector): (b: bool)
    ensures b <==> overlapV.y * velocity.y < 0.0
  {
    (overlapV.y < 0.0 && velocity.y > 0.0) || (overlapV.y > 0.0 && velocity.y < 0.0)
  }

  /**
   * `shouldPreferY`: Y-only separation is enabled (on the solver or the
   * body), the overlap vector is diagonal and the body moves into it.
   */
  function ShouldPreferY(options: Options, s: BodyState, r: ResponseState): (b: bool)
    requires options.preferY || s.slopes.Some?
    ensures b <==> ((options.preferY || s.slopes.value.preferY) &&
                    r.overlapV.x != 0.0 && r.overlapV.y * s.velocity.y < 0.0)
  {
    (options.preferY || s.slopes.value.preferY) &&
    r.overlapV.y != 0.0 && r.overlapV.x != 0.0 &&
    MovingAgainstY(r.overlapV, s.velocity)
  }

  /**
   * The move of `separate`: by `minimumOffsetY` straight up or down when
   * Y is preferred, by the overlap vector otherwise. Either way the body
   * moves exactly as far along the overlap vector as the vector is long.
   */
  function Moved(options: Options, s: BodyState, r: ResponseState): (t: BodyState)
    requires options.preferY || s.slopes.Some?
    ensures t == s.(position := t.position)
    ensures Dot(Sub(t.position, s.position), r.overlapV) == Dot(r.overlapV, r.overlapV)
    ensures ShouldPreferY(options, s, r) ==> t.position.x == s.position.x
    ensures !ShouldPreferY(options, s, r) ==> Sub(t.position, s.position) == r.overlapV
  {
    if ShouldPreferY(options, s, r) then
      s.(position := s.position.(y := s.position.y + MinimumOffsetY(r.overlapV)))
    else
      s.(position := Vector(s.position.x + r.overlapV.x, s.position.y + r.overlapV.y))
  }

  /** The tile's own and its layer's collision callbacks, where present, both agree. */
  predicate CallbacksAllow(tile: Tile)
  {
    (tile.collisionCallback.None? || tile.collisionCallback.value) &&
    (tile.layerCallback.None? || tile.layerCallback.value)
  }

  // ---------------------------------------------------------------------
  // pull, applyVelocity, updateFlags
  // ---------------------------------------------------------------------

  /** `pull`: the first pull whose direction the inward normal takes adds that normal, scaled by its amount. */
  function Pulled(c: SlopesConfig, v: Vector, n: Vector): (bool, Vector)
  {
    if c.pullUp == 0.0 && c.pullDown == 0.0 && c.pullLeft == 0.0 && c.pullRight == 0.0 then (false, v)
    else
      var inward := Scale(n, -1.0);
      if c.pullUp != 0.0 && inward.y < 0.0 then (true, Add(v, Scale(inward, c.pullUp)))
      else if c.pullDown != 0.0 && inward.y > 0.0 then (true, Add(v, Scale(inward, c.pullDown)))
      else if c.pullLeft != 0.0 && inward.x < 0.0 then (true, Add(v, Scale(inward, c.pullLeft)))
      else if c.pullRight != 0.0 && inward.x > 0.0 then (true, Add(v, Scale(inward, c.pullRight)))
      else (false, v)
  }

  /** `pull` reports true exactly when it changed the velocity. */
  lemma PulledIffChanged(c: SlopesConfig, v: Vector, n: Vector)
    ensures Pulled(c, v, n).0 <==> Pulled(c, v, n).1 != v
  {
    var inward := Scale(n, -1.0);
    if Pulled(c, v, n).0 {
      var k :| k != 0.0 && (inward.x != 0.0 || inward.y != 0.0) && Pulled(c, v, n).1 == Add(v, Scale(inward, k));
      assert Scale(inward, k) != Zero by {
        if inward.x != 0.0 { assert inward.x * k != 0.0; } else { assert inward.y * k != 0.0; }
      }
    }
  }

  /** With non-negative pull amounts, a pull never points out of the surface it pulls towards. */
  lemma PullPointsInward(c: SlopesConfig, v: Vector, n: Vector)
    requires c.pullUp >= 0.0 && c.pullDown >= 0.0 && c.pullLeft >= 0.0 && c.pullRight >= 0.0
    ensures Dot(Sub(Pulled(c, v, n).1, v), n) <= 0.0
  {
    var inward := Scale(n, -1.0);
    if c.pullUp != 0.0 && inward.y < 0.0 {
      ScaledInward(v, n, c.pullUp);
    } else if c.pullDown != 0.0 && inward.y > 0.0 {
      ScaledInward(v, n, c.pullDown);
    } else if c.pullLeft != 0.0 && inward.x < 0.0 {
      ScaledInward(v, n, c.pullLeft);
    } else if c.pullRight != 0.0 && inward.x > 0.0 {
      ScaledInward(v, n, c.pullRight);
    } else {
      assert Sub(v, v) == Zero;
    }
  }

  lemma ScaledInward(v: Vector, n: Vector, k: real)
    requires k >= 0.0
    ensures Dot(Sub(Add(v, Scale(Scale(n, -1.0), k)), v), n) == -k * Dot(n, n)
    ensures -k * Dot(n, n) <= 0.0
  {
    assert Sub(Add(v, Scale(Scale(n, -1.0), k)), v) == Vector(-k * n.x, -k * n.y);
    assert Dot(n, n) >= 0.0 by { assert n.x * n.x >= 0.0 && n.y * n.y >= 0.0; }
  }

  /** `pull` on a body: only the velocity changes, and it changes exactly when `pull` returns true. */
  function PullOutcome(s: BodyState, n: Vector): (o: Outcome)
    requires s.slopes.Some?
    ensures o.body == s.(velocity := o.body.velocity)
    ensures o.result <==> o.body.velocity != s.velocity
  {
    PulledIffChanged(s.slopes.value, s.velocity, n);
    var p := Pulled(s.slopes.value, s.velocity, n);
    Outcome(p.0, s.(velocity := p.1))
  }

  /**
   * `applyVelocity`: the velocity split into its part along the normal
   * (bounce) and the rest (friction), the first scaled by minus the body's
   * bounce and the second by one minus the body's and the tile's friction,
   * recombined, then pulled; the old velocity is kept in the slopes settings.
   */
  function VelocityApplied(s: BodyState, tileFriction: Vector, n: Vector): (t: BodyState)
    requires s.slopes.Some?
    ensures SameConfig(s, t)
    ensures t == s.(velocity := t.velocity, slopes := t.slopes)
  {
    var c := s.slopes.value;
    var s1 := s.(velocity := Rebound(s.velocity, s.bounce, c.friction, tileFriction, n), slopes := Some(c.(velocity := s.velocity)));
    PullOutcome(s1, n).body
  }

  /** The velocity before the pull: the bounce part scaled by minus `bounce`, the friction part by one minus both frictions. */
  function Rebound(v: Vector, bounce: Vector, bodyFriction: Vector, tileFriction: Vector, n: Vector): Vector
  {
    var normal := ProjectN(v, n);
    var along := Sub(v, normal);
    Add(Vector(normal.x * -bounce.x, normal.y * -bounce.y),
        Vector(along.x * (1.0 - bodyFriction.x - tileFriction.x), along.y * (1.0 - bodyFriction.y - tileFriction.y)))
  }

  /** No pull configured. */
  predicate NoPull(c: SlopesConfig)
  {
    c.pullUp == 0.0 && c.pullDown == 0.0 && c.pullLeft == 0.0 && c.pullRight == 0.0
  }

  /**
   * Without bounce, friction or pull, against a unit normal, the body keeps
   * only the part of its velocity along the surface: it slides.
   */
  lemma NoBounceSlides(s: BodyState, tileFriction: Vector, n: Vector)
    requires s.slopes.Some? && NoPull(s.slopes.value)
    requires s.bounce == Zero && s.slopes.value.friction == Zero && tileFriction == Zero
    requires Dot(n, n) == 1.0
    ensures VelocityApplied(s, tileFriction, n).velocity == Sub(s.velocity, ProjectN(s.velocity, n))
    ensures Dot(VelocityApplied(s, tileFriction, n).velocity, n) == 0.0
  {
    var v := s.velocity;
    var d := Dot(v, n);
    assert Dot(Sub(v, ProjectN(v, n)), n) == d - d * Dot(n, n);
  }

  /**
   * With full bounce and no friction or pull, against a unit normal, the
   * velocity is reflected: its normal part flips, its surface part stays.
   */
  lemma FullBounceReflects(s: BodyState, tileFriction: Vector, n: Vector)
    requires s.slopes.Some? && NoPull(s.slopes.value)
    requires s.bounce == Vector(1.0, 1.0) && s.slopes.value.friction == Zero && tileFriction == Zero
    requires Dot(n, n) == 1.0
    ensures VelocityApplied(s, tileFriction, n).velocity == Sub(s.velocity, Scale(ProjectN(s.velocity, n), 2.0))
    ensures Dot(VelocityApplied(s, tileFriction, n).velocity, n) == -Dot(s.velocity, n)
  {
    var v := s.velocity;
    var d := Dot(v, n);
    assert Dot(Sub(v, Scale(ProjectN(v, n), 2.0)), n) == d - 2.0 * d * Dot(n, n);
  }

  /** Every flag that was raised is still raised. */
  predicate Raised(before: Flags, after: Flags)
  {
    (before.up ==> after.up) && (before.down ==> after.down) &&
    (before.left ==> after.left) && (before.right ==> after.right)
  }

  /** Each blocked flag comes with the touching flag of the same side. */
  predicate BlockedTouches(touching: Flags, blocked: Flags)
  {
    (blocked.up ==> touching.up) && (blocked.down ==> touching.down) &&
    (blocked.left ==> touching.left) && (blocked.right ==> touching.right)
  }

  /** From one body state to the next, flags only rise and "blocked implies touching" is kept. */
  predicate FlagsFollow(s: BodyState, t: BodyState)
  {
    Raised(s.touching, t.touching) && Raised(s.blocked, t.blocked) &&
    (BlockedTouches(s.touching, s.blocked) ==> BlockedTouches(t.touching, t.blocked))
  }

  /**
   * `updateFlags`: touching on the side the overlap vector pushes from, and
   * blocked too when the push is straight along one axis; flags only rise.
   */
  function FlagsUpdated(s: BodyState, v: Vector): (t: BodyState)
    ensures t == s.(touching := t.touching, blocked := t.blocked)
    ensures Raised(s.touching, t.touching) && Raised(s.blocked, t.blocked)
    ensures v.y > 0.0 ==> t.touching.up
    ensures v.y < 0.0 ==> t.touching.down
    ensures v.x > 0.0 ==> t.touching.left
    ensures v.x < 0.0 ==> t.touching.right
  {
    s.(touching := Touched(s.touching, v), blocked := Blocked(s.blocked, v))
  }

  /** The touching flags after `updateFlags`: the sides the overlap vector pushes from are added. */
  function Touched(f: Flags, v: Vector): Flags
  {
    Flags(f.up || v.y > 0.0, f.down || v.y < 0.0, f.left || v.x > 0.0, f.right || v.x < 0.0)
  }

  /** The blocked flags after `updateFlags`: a side is added only when the push is straight along one axis. */
  function Blocked(f: Flags, v: Vector): Flags
  {
    Flags(
      f.up || (v.x == 0.0 && v.y > 0.0), f.down || (v.x == 0.0 && v.y < 0.0),
      f.left || (v.y == 0.0 && v.x > 0.0), f.right || (v.y == 0.0 && v.x < 0.0))
  }

  /** `updateFlags` keeps "blocked implies touching", and a second update with the same vector changes nothing. */
  lemma FlagsUpdatedKeepsBlockedTouching(s: BodyState, v: Vector)
    ensures BlockedTouches(s.touching, s.blocked) ==>
      BlockedTouches(FlagsUpdated(s, v).touching, FlagsUpdated(s, v).blocked)
    ensures FlagsUpdated(FlagsUpdated(s, v), v) == FlagsUpdated(s, v)
  {}

  /** What a successful separation adds: `applyVelocity`, then `updateFlags`. */
  function AfterContact(s: BodyState, tile: Tile, r: ResponseState): (t: BodyState)
    requires s.slopes.Some? && tile.slope.Some?
    ensures SameConfig(s, t) && t.position == s.position && t.polygon == s.polygon
    ensures FlagsFollow(s, t)
  {
    FlagsUpdatedKeepsBlockedTouching(VelocityApplied(s, tile.slope.value.friction, r.overlapN), r.overlapV);
    FlagsUpdated(VelocityApplied(s, tile.slope.value.friction, r.overlapN), r.overlapV)
  }

  // ---------------------------------------------------------------------
  // separate, collideOnAxis, restrain, shouldSeparate, collide
  // ---------------------------------------------------------------------

  /** `separate` past its `shouldSeparate` test (or forced): the callbacks decide, then the body moves. */
  function DisplaceOutcome(options: Options, s: BodyState, tile: Tile, r: ResponseState): (o: Outcome)
    requires s.slopes.Some?
    ensures SameConfig(s, o.body) && o.body == s.(position := o.body.position)
    ensures o.result <==> CallbacksAllow(tile)
    ensures o.result ==> Dot(Sub(o.body.position, s.position), r.overlapV) == Dot(r.overlapV, r.overlapV)
    ensures !o.result ==> o.body == s
  {
    if !CallbacksAllow(tile) then Outcome(false, s)
    else Outcome(true, Moved(options, s, r))
  }

  /** The response `collideOnAxis` gets from the solver's `isSeparatingAxis` on a fresh response. */
  function AxisResponse(s: ResponseState, a: Polygon, b: Polygon, axis: Vector): ResponseState
  {
    var t := AxisStep(s, a.pos, b.pos, a.points, b.points, axis);
    t.(a := Some(a), b := Some(b), overlapV := Scale(t.overlapN, t.overlap))
  }

  /**
   * `collideOnAxis` with a fresh response: nothing happens without an
   * enabled body with a polygon and slopes settings and a tile with a
   * slope, or when the axis separates the polygons; otherwise a forced
   * separation along that axis, then velocity and flags.
   */
  function CollideOnAxisOutcome(options: Options, s: BodyState, tile: Tile, axis: Vector): (o: Outcome)
    ensures SameConfig(s, o.body) && o.body.polygon == s.polygon
    ensures !o.result ==> o.body == s
    ensures FlagsFollow(s, o.body)
  {
    if !(s.enable && s.polygon.Some? && s.slopes.Some? && tile.slope.Some?) then Outcome(false, s)
    else
      var a := s.polygon.value;
      var b := tile.slope.value.polygon;
      if Separated(a.pos, b.pos, a.points, b.points, axis) then Outcome(false, s)
      else
        var r := Inverted(AxisResponse(FreshResponse, a, b, axis));
        var d := DisplaceOutcome(options, s, tile, r);
        if !d.result then d else Outcome(true, AfterContact(d.body, tile, r))
  }

  /** Rule tables with no `undefined` overlap anywhere. */
  predicate TableWellFormed(restraints: map<string, seq<Rule>>)
  {
    forall key :: key in restraints ==> RulesWellFormed(restraints[key])
  }

  /** A `separate` value, with each callback evaluated on the body's and the tile's bounds. */
  predicate SeparateHolds(separate: Separate, s: BodyState, tile: Tile)
  {
    match separate
    case Flag(b) => b
    case Test(BodyTopInside) => s.position.y > tile.box.worldY
    case Test(BodyBottomInside) => s.position.y + s.height < tile.box.worldY + tile.box.height
    case Test(BodyLeftInside) => s.position.x > tile.box.worldX
    case Test(BodyRightInside) => s.position.x + s.width < tile.box.worldX + tile.box.width
  }

  /** The rules `restrain` consults, when it gets as far as its loop. */
  predicate Consulted(restraints: map<string, seq<Rule>>, tile: Tile, r: ResponseState)
  {
    tile.slope.Some? && r.overlap != 0.0 && tile.neighbours.Some? &&
    PropertyKey(tile.slope.value.slopeType) in restraints
  }

  function RulesFor(restraints: map<string, seq<Rule>>, tile: Tile): seq<Rule>
    requires tile.slope.Some? && PropertyKey(tile.slope.value.slopeType) in restraints
  {
    restraints[PropertyKey(tile.slope.value.slopeType)]
  }

  /** The verdict of the loop of `restrain`. */
  function Verdict(restraints: map<string, seq<Rule>>, tile: Tile, r: ResponseState): Verdict
    requires Consulted(restraints, tile, r)
  {
    FirstMatch(RulesFor(restraints, tile), tile.slope.value.slopeType, tile.neighbours.value, r.overlapN, 0)
  }

  /** `restrain` calls `collideOnAxis`: a rule matched, its `separate` holds and the tile has an axis. */
  predicate CallsCollideOnAxis(restraints: map<string, seq<Rule>>, s: BodyState, tile: Tile, r: ResponseState)
  {
    Consulted(restraints, tile, r) &&
    var v := Verdict(restraints, tile, r);
    v.MatchAt? && SeparateHolds(RulesFor(restraints, tile)[v.index].separate, s, tile) &&
    tile.slope.value.axis.Some?
  }

  /**
   * `restrain`: true (carry on) when there is no overlap, no neighbours or
   * no rules for the tile's type, or when no rule matches; false when one
   * does, after colliding on the tile's axis if the rule says to separate.
   */
  function RestrainOutcome(restraints: map<string, seq<Rule>>, options: Options, s: BodyState, tile: Tile, r: ResponseState): (o: Outcome)
    requires tile.slope.Some? && TableWellFormed(restraints)
    ensures SameConfig(s, o.body) && o.body.polygon == s.polygon
    ensures FlagsFollow(s, o.body)
  {
    if !Consulted(restraints, tile, r) then Outcome(true, s)
    else
      WellFormedRulesNeverThrow(RulesFor(restraints, tile), tile.slope.value.slopeType, tile.neighbours.value, r.overlapN, 0);
      match Verdict(restraints, tile, r)
      case NoMatch => Outcome(true, s)
      case MatchAt(_) =>
        if CallsCollideOnAxis(restraints, s, tile, r) then
          Outcome(false, CollideOnAxisOutcome(options, s, tile, tile.slope.value.axis.value).body)
        else Outcome(false, s)
  }

  /** Restrainers k onwards, in order, each seeing the body as the previous one left it; the first false wins. */
  function RestrainAll(tables: seq<map<string, seq<Rule>>>, k: nat, options: Options, s: BodyState, tile: Tile, r: ResponseState): (o: Outcome)
    requires k <= |tables| && tile.slope.Some?
    requires forall i :: 0 <= i < |tables| ==> TableWellFormed(tables[i])
    decreases |tables| - k
    ensures SameConfig(s, o.body) && o.body.polygon == s.polygon
    ensures FlagsFollow(s, o.body)
  {
    if k == |tables| then Outcome(true, s)
    else
      var o := RestrainOutcome(tables[k], options, s, tile, r);
      if !o.result then o else RestrainAll(tables, k + 1, options, o.body, tile, r)
  }

  /** The overlap normal points straight out through a side of the tile whose edge is EMPTY. */
  predicate TowardsEmptyEdge(e: Edges, n: Vector)
  {
    (e.top == Empty && n.y < 0.0 && n.x == 0.0) ||
    (e.bottom == Empty && n.y > 0.0 && n.x == 0.0) ||
    (e.left == Empty && n.x < 0.0 && n.y == 0.0) ||
    (e.right == Empty && n.x > 0.0 && n.y == 0.0)
  }

  /**
   * `shouldSeparate`: no for a disabled body, a zero overlap or a normal
   * straight out through an EMPTY edge; yes if restraints are off;
   * otherwise whatever the restrainers decide.
   */
  function ShouldSeparateOutcome(tables: seq<map<string, seq<Rule>>>, options: Options, s: BodyState, tile: Tile, r: ResponseState): (o: Outcome)
    requires tile.slope.Some?
    requires forall i :: 0 <= i < |tables| ==> TableWellFormed(tables[i])
    ensures SameConfig(s, o.body) && o.body.polygon == s.polygon
    ensures FlagsFollow(s, o.body)
  {
    if !(s.enable && r.overlap != 0.0) then Outcome(false, s)
    else if TowardsEmptyEdge(tile.slope.value.edges, r.overlapN) then Outcome(false, s)
    else if !options.restrain then Outcome(true, s)
    else RestrainAll(tables, 0, options, s, tile, r)
  }

  /** `separate` without `force`: `shouldSeparate`, then the callbacks and the move. */
  function SeparateOutcome(tables: seq<map<string, seq<Rule>>>, options: Options, s: BodyState, tile: Tile, r: ResponseState): (o: Outcome)
    requires tile.slope.Some? && s.slopes.Some?
    requires forall i :: 0 <= i < |tables| ==> TableWellFormed(tables[i])
    ensures SameConfig(s, o.body) && o.body.polygon == s.polygon
    ensures FlagsFollow(s, o.body)
  {
    var should := ShouldSeparateOutcome(tables, options, s, tile, r);
    if !should.result then should else DisplaceOutcome(options, should.body, tile, r)
  }

  /** The tile as `collide` leaves it: its slope polygon placed at the tile's world position. */
  function Placed(tile: Tile): (t: Tile)
    requires tile.slope.Some?
    ensures t.slope.Some? && t.slope.value.polygon.pos == Vector(tile.box.worldX, tile.box.worldY)
  {
    var slope := tile.slope.value;
    tile.(slope := Some(slope.(polygon := slope.polygon.(pos := Vector(tile.box.worldX, tile.box.worldY)))))
  }

  /** The body polygon placed at the body's position. */
  function PlacedPolygon(s: BodyState): (p: Polygon)
    requires s.polygon.Some?
    ensures p.pos == s.position && p.points == s.polygon.value.points
  {
    s.polygon.value.(pos := s.position)
  }

  /** Everything `collide` needs is there. */
  predicate Ready(s: BodyState, tile: Tile)
  {
    s.enable && s.polygon.Some? && s.slopes.Some? && tile.slope.Some?
  }

  /** The body and tile polygons overlap: no axis of `testPolygonPolygon` separates them. */
  predicate Overlapping(s: BodyState, tile: Tile)
    requires Ready(s, tile)
  {
    var a := PlacedPolygon(s);
    var b := Placed(tile).slope.value.polygon;
    NoSeparatingAxis(a.pos, b.pos, a.points, b.points, Axes(a, b))
  }

  /** The response `testPolygonPolygon` leaves when the polygons overlap. */
  function CollisionResponse(s: BodyState, tile: Tile): ResponseState
    requires Ready(s, tile)
  {
    var a := PlacedPolygon(s);
    var b := Placed(tile).slope.value.polygon;
    Finish(Scan(FreshResponse, a.pos, b.pos, a.points, b.points, Axes(a, b)), a, b)
  }

  /**
   * `collide`: false without its inputs or without an overlap; true with
   * `overlapOnly`; otherwise the overlap recorded, the response inverted,
   * and, if `separate` agrees, velocity and flags updated.
   */
  function CollideOutcome(tables: seq<map<string, seq<Rule>>>, options: Options, s: BodyState, tile: Tile, overlapOnly: bool): (o: Outcome)
    requires forall i :: 0 <= i < |tables| ==> TableWellFormed(tables[i])
    ensures SameConfig(s, o.body)
    ensures FlagsFollow(s, o.body)
  {
    if !Ready(s, tile) then Outcome(false, s)
    else
      var s1 := s.(polygon := Some(PlacedPolygon(s)));
      if !Overlapping(s, tile) then Outcome(false, s1)
      else if overlapOnly then Outcome(true, s1)
      else
        ContactOutcome(tables, options, s1, tile, CollisionResponse(s, tile))
  }

  /** `collide` past its overlap test: the overlap recorded, the response inverted, then its end. */
  function ContactOutcome(tables: seq<map<string, seq<Rule>>>, options: Options, s: BodyState, tile: Tile, found: ResponseState): (o: Outcome)
    requires tile.slope.Some? && s.slopes.Some?
    requires forall i :: 0 <= i < |tables| ==> TableWellFormed(tables[i])
    ensures SameConfig(s, o.body) && o.body.polygon == s.polygon
    ensures FlagsFollow(s, o.body)
  {
    ResponseOutcome(tables, options, s.(overlapX := found.overlapV.x, overlapY := found.overlapV.y), Placed(tile), Inverted(found))
  }

  /** The end of `collide`: `separate`, and after a separation `applyVelocity` and `updateFlags`. */
  function ResponseOutcome(tables: seq<map<string, seq<Rule>>>, options: Options, s: BodyState, tile: Tile, r: ResponseState): (o: Outcome)
    requires tile.slope.Some? && s.slopes.Some?
    requires forall i :: 0 <= i < |tables| ==> TableWellFormed(tables[i])
    ensures SameConfig(s, o.body) && o.body.polygon == s.polygon
    ensures FlagsFollow(s, o.body)
  {
    var sep := SeparateOutcome(tables, options, s, tile, r);
    if !sep.result then sep else Outcome(true, AfterContact(sep.body, tile, r))
  }

  // ---------------------------------------------------------------------
  // What the steps promise
  // ---------------------------------------------------------------------

  /** The outward normal of each side of a tile (y grows downwards). */
  function SideNormal(side: Side): Vector
  {
    match side
    case Top => Vector(0.0, -1.0)
    case Bottom => Vector(0.0, 1.0)
    case Left => Vector(-1.0, 0.0)
    case Right => Vector(1.0, 0.0)
  }

  /** The EMPTY-edge test of `shouldSeparate` holds exactly for normals pointing straight out through an EMPTY side. */
  lemma TowardsEmptyEdgeIsOutward(e: Edges, n: Vector)
    ensures TowardsEmptyEdge(e, n) <==>
      exists side: Side, k: real :: k > 0.0 && EdgeAtSide(e, side) == Empty && n == Scale(SideNormal(side), k)
  {
    if TowardsEmptyEdge(e, n) {
      if e.top == Empty && n.y < 0.0 && n.x == 0.0 {
        assert n == Scale(SideNormal(Top), -n.y);
      } else if e.bottom == Empty && n.y > 0.0 && n.x == 0.0 {
        assert n == Scale(SideNormal(Bottom), n.y);
      } else if e.left == Empty && n.x < 0.0 && n.y == 0.0 {
        assert n == Scale(SideNormal(Left), -n.x);
      } else {
        assert n == Scale(SideNormal(Right), n.x);
      }
    }
  }

  /**
   * `shouldSeparate` refuses, leaving the body as it is, for a disabled
   * body, a zero overlap and a normal straight out through an EMPTY edge;
   * past those tests, with restraints off, it agrees, again leaving the body.
   */
  lemma ShouldSeparateRefusals(tables: seq<map<string, seq<Rule>>>, options: Options, s: BodyState, tile: Tile, r: ResponseState, side: Side, k: real)
    requires tile.slope.Some?
    requires forall i :: 0 <= i < |tables| ==> TableWellFormed(tables[i])
    ensures !s.enable || r.overlap == 0.0 ==> ShouldSeparateOutcome(tables, options, s, tile, r) == Outcome(false, s)
    ensures k > 0.0 && EdgeAtSide(tile.slope.value.edges, side) == Empty && r.overlapN == Scale(SideNormal(side), k) ==>
      ShouldSeparateOutcome(tables, options, s, tile, r) == Outcome(false, s)
    ensures s.enable && r.overlap != 0.0 && !TowardsEmptyEdge(tile.slope.value.edges, r.overlapN) && !options.restrain ==>
      ShouldSeparateOutcome(tables, options, s, tile, r) == Outcome(true, s)
  {
    TowardsEmptyEdgeIsOutward(tile.slope.value.edges, r.overlapN);
  }

  /**
   * Once `restrain` consults the rules of a well-formed table, it returns
   * false exactly when one of them matches; otherwise it returns true.
   * The body changes only through the `collideOnAxis` call.
   */
  lemma RestrainFalseIffMatch(restraints: map<string, seq<Rule>>, options: Options, s: BodyState, tile: Tile, r: ResponseState)
    requires tile.slope.Some? && TableWellFormed(restraints)
    ensures !Consulted(restraints, tile, r) ==> RestrainOutcome(restraints, options, s, tile, r) == Outcome(true, s)
    ensures Consulted(restraints, tile, r) ==>
      var rules := RulesFor(restraints, tile);
      (!RestrainOutcome(restraints, options, s, tile, r).result <==>
        exists i :: 0 <= i < |rules| && Matches(rules[i], tile.slope.value.slopeType, tile.neighbours.value, r.overlapN))
    ensures !CallsCollideOnAxis(restraints, s, tile, r) ==> RestrainOutcome(restraints, options, s, tile, r).body == s
  {
    if Consulted(restraints, tile, r) {
      var rules := RulesFor(restraints, tile);
      WellFormedRulesNeverThrow(rules, tile.slope.value.slopeType, tile.neighbours.value, r.overlapN, 0);
    }
  }

  /**
   * `collide` gives up, moving and slowing nothing, without its inputs or
   * without an overlap, and with `overlapOnly` it reports an overlap the
   * same way.
   */
  lemma CollideLeavesBodyWhenItStops(tables: seq<map<string, seq<Rule>>>, options: Options, s: BodyState, tile: Tile, overlapOnly: bool)
    requires forall i :: 0 <= i < |tables| ==> TableWellFormed(tables[i])
    ensures var o := CollideOutcome(tables, options, s, tile, overlapOnly);
      (!Ready(s, tile) || !Overlapping(s, tile) || overlapOnly) ==>
        o.result == (Ready(s, tile) && Overlapping(s, tile)) &&
        o.body.position == s.position && o.body.velocity == s.velocity &&
        o.body.touching == s.touching && o.body.blocked == s.blocked
  {}

  /**
   * Without restraints, a collision either separates the body (moving it
   * as far along the outward overlap vector as that vector is long) or
   * leaves its position, velocity and flags alone: velocity and flags
   * change only after a successful separation.
   */
  lemma CollideWithoutRestraints(tables: seq<map<string, seq<Rule>>>, options: Options, s: BodyState, tile: Tile)
    requires forall i :: 0 <= i < |tables| ==> TableWellFormed(tables[i])
    requires !options.restrain && Ready(s, tile) && Overlapping(s, tile)
    ensures var o := CollideOutcome(tables, options, s, tile, false);
      var v := Inverted(CollisionResponse(s, tile)).overlapV;
      if o.result then Dot(Sub(o.body.position, s.position), v) == Dot(v, v)
      else (o.body.position == s.position && o.body.velocity == s.velocity &&
            o.body.touching == s.touching && o.body.blocked == s.blocked)
  {
    var o := CollideOutcome(tables, options, s, tile, false);
    var found := CollisionResponse(s, tile);
    var s2 := s.(polygon := Some(PlacedPolygon(s)), overlapX := found.overlapV.x, overlapY := found.overlapV.y);
    var r := Inverted(found);
    var sep := SeparateOutcome(tables, options, s2, Placed(tile), r);
    assert sep.body == s2 || sep.body == Moved(options, s2, r);
    if o.result {
      assert o.body.position == sep.body.position;
    }
  }

  // ---------------------------------------------------------------------
  // The objects
  // ---------------------------------------------------------------------

  /** An arcade physics body with the plugin's `slopes` settings. */
  class Body {
    var enable: bool
    var position: Vector
    var width: real
    var height: real
    var velocity: Vector
    var bounce: Vector
    var polygon: Option<Polygon>
    var slopes: Option<SlopesConfig>
    var touching: Flags
    var blocked: Flags
    var overlapX: real
    var overlapY: real
    /** How many times `collideOnAxis` has run on this body. */
    ghost var axisCollisions: nat

    function State(): BodyState
      reads this
    {
      BodyState(enable, position, width, height, velocity, bounce, polygon, slopes, touching, blocked, overlapX, overlapY)
    }
  }

  /** The condition `restrain` builds for one rule whose neighbour has a slope. */
  method EvaluateRule(rule: Rule, tileType: TypeValue, neighbour: TileSlope, n: Vector) returns (condition: bool)
    requires !rule.overlapX.Undefined? && !rule.overlapY.Undefined?
    ensures RuleCondition(rule, tileType, neighbour, n) == Some(condition)
  {
    if rule.types.Some? {
      condition := neighbour.slopeType in rule.types.value;
    } else {
      condition := neighbour.slopeType == tileType;
    }
    if rule.overlapX.Exact? {
      condition := condition && n.x == rule.overlapX.value;
    } else if rule.overlapX.Between? {
      condition := condition && n.x >= rule.overlapX.lo && n.x <= rule.overlapX.hi;
    }
    if rule.overlapY.Exact? {
      condition := condition && n.y == rule.overlapY.value;
    } else if rule.overlapY.Between? {
      condition := condition && n.y >= rule.overlapY.lo && n.y <= rule.overlapY.hi;
    }
  }

  /** The restrainer: the prepared default restraints, keyed by tile type. */
  class SatRestrainer {
    const restraints: map<string, seq<Rule>>

    predicate Valid()
    {
      TableWellFormed(restraints)
    }

    /** The constructor: the default restraints, prepared. */
    constructor ()
      ensures restraints == Prepared(DefaultInformal())
      ensures Valid()
    {
      var prepared := PrepareRestraints(DefaultInformal());
      DefaultRestraintsWellFormed();
      restraints := prepared;
    }

    /**
     * `restrain`: walks the rules of the tile's type and stops at the first
     * that matches, colliding on the tile's axis first if the rule says to
     * separate and the tile has one.
     */
    method Restrain(solver: SatSolver, body: Body, tile: Tile, response: Response) returns (proceed: bool)
      requires Valid() && solver.Valid() && tile.slope.Some?
      modifies body
      decreases 2
      ensures Outcome(proceed, body.State()) == RestrainOutcome(restraints, solver.options, old(body.State()), tile, response.State())
      ensures body.axisCollisions ==
        old(body.axisCollisions) + (if CallsCollideOnAxis(restraints, old(body.State()), tile, response.State()) then 1 else 0)
    {
      var key := PropertyKey(tile.slope.value.slopeType);
      if response.overlap == 0.0 || tile.neighbours.None? || key !in restraints {
        return true;
      }
      var rules := restraints[key];
      var tileType := tile.slope.value.slopeType;
      var neighbours := tile.neighbours.value;
      var n := response.overlapN;
      var i := 0;
      while i < |rules|
        invariant 0 <= i <= |rules|
        invariant FirstMatch(rules, tileType, neighbours, n, 0) == FirstMatch(rules, tileType, neighbours, n, i)
        invariant body.State() == old(body.State()) && body.axisCollisions == old(body.axisCollisions)
      {
        var rule := rules[i];
        var neighbour := neighbours(rule.neighbour);
        if neighbour.Some? {
          var condition := EvaluateRule(rule, tileType, neighbour.value, n);
          if condition {
            if SeparateHolds(rule.separate, body.State(), tile) && tile.slope.value.axis.Some? {
              var _ := solver.CollideOnAxis(body, tile, tile.slope.value.axis.value);
            }
            return false;
          }
        }
        i := i + 1;
      }
      return true;
    }
  }

  /** The SAT solver: its options and its restrainers. */
  class SatSolver {
    const options: Options
    const restrainers: seq<SatRestrainer>

    predicate Valid()
    {
      forall i :: 0 <= i < |restrainers| ==> restrainers[i].Valid()
    }

    /** The rule tables of the restrainers, in order. */
    function Tables(): (tables: seq<map<string, seq<Rule>>>)
      ensures |tables| == |restrainers|
      ensures forall i :: 0 <= i < |tables| ==> tables[i] == restrainers[i].restraints
    {
      seq(|restrainers|, i requires 0 <= i < |restrainers| => restrainers[i].restraints)
    }

    /** The constructor: given options over the defaults (no Y preference, restraints on) and one default restrainer. */
    constructor (preferY: Option<bool>, restrain: Option<bool>)
      ensures options.preferY == (preferY.Some? && preferY.value)
      ensures options.restrain == (restrain.None? || restrain.value)
      ensures |restrainers| == 1 && restrainers[0].restraints == Prepared(DefaultInformal())
      ensures Valid()
    {
      options := Options(if preferY.Some? then preferY.value else false, if restrain.Some? then restrain.value else true);
      var restrainer := new SatRestrainer();
      restrainers := [restrainer];
    }

    /** The solver's `isSeparatingAxis`: SAT's axis test, then the participants and overlapV recorded. */
    static method IsSeparatingAxis(a: Polygon, b: Polygon, axis: Vector, response: Response?) returns (separated: bool)
      modifies response
      ensures separated == Separated(a.pos, b.pos, a.points, b.points, axis)
      ensures response != null ==> response.State() == AxisResponse(old(response.State()), a, b, axis)
    {
      separated := Geometry.IsSeparatingAxis(a.pos, b.pos, a.points, b.points, axis, response);
      if response != null {
        response.a := Some(a);
        response.b := Some(b);
        response.overlapV := Scale(response.overlapN, response.overlap);
      }
    }

    /** `pull`, in place. */
    method Pull(body: Body, response: Response) returns (pulled: bool)
      requires body.slopes.Some?
      modifies body`velocity
      ensures (pulled, body.velocity) == Pulled(body.slopes.value, old(body.velocity), response.overlapN)
    {
      var c := body.slopes.value;
      if c.pullUp == 0.0 && c.pullDown == 0.0 && c.pullLeft == 0.0 && c.pullRight == 0.0 {
        return false;
      }
      var overlapN := Scale(response.overlapN, -1.0);
      if c.pullUp != 0.0 && overlapN.y < 0.0 {
        var pullUp := Scale(overlapN, c.pullUp);
        body.velocity := Vector(body.velocity.x + pullUp.x, body.velocity.y + pullUp.y);
        return true;
      }
      if c.pullDown != 0.0 && overlapN.y > 0.0 {
        var pullDown := Scale(overlapN, c.pullDown);
        body.velocity := Vector(body.velocity.x + pullDown.x, body.velocity.y + pullDown.y);
        return true;
      }
      if c.pullLeft != 0.0 && overlapN.x < 0.0 {
        var pullLeft := Scale(overlapN, c.pullLeft);
        body.velocity := Vector(body.velocity.x + pullLeft.x, body.velocity.y + pullLeft.y);
        return true;
      }
      if c.pullRight != 0.0 && overlapN.x > 0.0 {
        var pullRight := Scale(overlapN, c.pullRight);
        body.velocity := Vector(body.velocity.x + pullRight.x, body.velocity.y + pullRight.y);
        return true;
      }
      return false;
    }

    /** `applyVelocity`, in place. */
    method ApplyVelocity(body: Body, tile: Tile, response: Response)
      requires body.slopes.Some? && tile.slope.Some?
      modifies body`velocity, body`slopes
      ensures body.State() == VelocityApplied(old(body.State()), tile.slope.value.friction, response.overlapN)
    {
      var c := body.slopes.value.(velocity := body.velocity);
      body.slopes := Some(c);
      body.velocity := Rebound(c.velocity, body.bounce, c.friction, tile.slope.value.friction, response.overlapN);
      var _ := Pull(body, response);
    }

    /** `updateFlags`, in place. */
    method UpdateFlags(body: Body, response: Response)
      modifies body`touching, body`blocked
      ensures body.State() == FlagsUpdated(old(body.State()), response.overlapV)
    {
      body.touching := Touched(body.touching, response.overlapV);
      body.blocked := Blocked(body.blocked, response.overlapV);
    }

    /** `separate`: unless forced, ask `shouldSeparate`; then the callbacks; then move the body. */
    method Separate(body: Body, tile: Tile, response: Response, force: bool) returns (separated: bool)
      requires Valid() && tile.slope.Some? && body.slopes.Some?
      modifies body
      decreases if force then 0 else 4
      ensures !force ==>
        Outcome(separated, body.State()) == SeparateOutcome(Tables(), options, old(body.State()), tile, response.State())
      ensures force ==>
        Outcome(separated, body.State()) == DisplaceOutcome(options, old(body.State()), tile, response.State())
      ensures force ==> body.axisCollisions == old(body.axisCollisions)
    {
      if !force {
        var should := ShouldSeparate(body, tile, response);
        if !should {
          return false;
        }
      }
      if tile.collisionCallback.Some? && !tile.collisionCallback.value {
        return false;
      } else if tile.layerCallback.Some? && !tile.layerCallback.value {
        return false;
      }
      if ShouldPreferY(options, body.State(), response.State()) {
        body.position := body.position.(y := body.position.y + MinimumOffsetY(response.overlapV));
      } else {
        body.position := Vector(body.position.x + response.overlapV.x, body.position.y + response.overlapV.y);
      }
      return true;
    }

    /** `collideOnAxis` with a fresh response. */
    method CollideOnAxis(body: Body, tile: Tile, axis: Vector) returns (separated: bool)
      requires Valid()
      modifies body
      decreases 1
      ensures Outcome(separated, body.State()) == CollideOnAxisOutcome(options, old(body.State()), tile, axis)
      ensures body.axisCollisions == old(body.axisCollisions) + 1
    {
      body.axisCollisions := body.axisCollisions + 1;
      if !(body.enable && body.polygon.Some? && body.slopes.Some? && tile.slope.Some?) {
        return false;
      }
      var response := new Response();
      var separatingAxis := IsSeparatingAxis(body.polygon.value, tile.slope.value.polygon, axis, response);
      if separatingAxis {
        return false;
      }
      PrepareResponse(response);
      separated := Separate(body, tile, response, true);
      if !separated {
        return false;
      }
      ApplyVelocity(body, tile, response);
      UpdateFlags(body, response);
      return true;
    }

    /** `shouldSeparate`: the edge tests, then each restrainer in turn. */
    method ShouldSeparate(body: Body, tile: Tile, response: Response) returns (separate: bool)
      requires Valid() && tile.slope.Some?
      modifies body
      decreases 3
      ensures Outcome(separate, body.State()) == ShouldSeparateOutcome(Tables(), options, old(body.State()), tile, response.State())
    {
      if !(body.enable && response.overlap != 0.0) {
        return false;
      }
      var edges := tile.slope.value.edges;
      var n := response.overlapN;
      if edges.top == Empty && n.y < 0.0 && n.x == 0.0 {
        return false;
      }
      if edges.bottom == Empty && n.y > 0.0 && n.x == 0.0 {
        return false;
      }
      if edges.left == Empty && n.x < 0.0 && n.y == 0.0 {
        return false;
      }
      if edges.right == Empty && n.x > 0.0 && n.y == 0.0 {
        return false;
      }
      if !options.restrain {
        return true;
      }
      ghost var s0 := body.State();
      var k := 0;
      while k < |restrainers|
        invariant 0 <= k <= |restrainers|
        invariant RestrainAll(Tables(), 0, options, s0, tile, response.State()) ==
          RestrainAll(Tables(), k, options, body.State(), tile, response.State())
      {
        var proceed := restrainers[k].Restrain(this, body, tile, response);
        if !proceed {
          return false;
        }
        k := k + 1;
      }
      return true;
    }

    /** `collide`: the full collision of a body with a tile. */
    method Collide(body: Body, tile: Tile, overlapOnly: bool) returns (collided: bool)
      requires Valid()
      modifies body
      ensures Outcome(collided, body.State()) == CollideOutcome(Tables(), options, old(body.State()), tile, overlapOnly)
    {
      if !(body.enable && body.polygon.Some? && body.slopes.Some? && tile.slope.Some?) {
        return false;
      }
      var overlapping, response := Test(body, tile);
      body.polygon := Some(body.polygon.value.(pos := body.position));
      if !overlapping {
        return false;
      }
      if overlapOnly {
        return true;
      }
      collided := Contact(body, tile, response);
    }

    /** `collide` past its overlap test: record the overlap, invert the response, then `separate` and the rest. */
    method Contact(body: Body, tile: Tile, response: Response) returns (separated: bool)
      requires Valid() && tile.slope.Some? && body.slopes.Some?
      modifies body, response
      ensures Outcome(separated, body.State()) == ContactOutcome(Tables(), options, old(body.State()), tile, old(response.State()))
    {
      body.overlapX := response.overlapV.x;
      body.overlapY := response.overlapV.y;
      PrepareResponse(response);
      separated := Respond(body, Placed(tile), response);
    }

    /** The overlap test of `collide`, on a fresh response, with the body polygon placed at the body's position. */
    static method Test(body: Body, tile: Tile) returns (overlapping: bool, response: Response)
      requires Ready(body.State(), tile)
      ensures fresh(response)
      ensures overlapping == Overlapping(body.State(), tile)
      ensures overlapping ==> response.State() == CollisionResponse(body.State(), tile)
    {
      var a := body.polygon.value.(pos := body.position);
      var b := Placed(tile).slope.value.polygon;
      response := new Response();
      overlapping := TestPolygonPolygon(a, b, response);
    }

    /** The end of `collide`, once the response is inverted. */
    method Respond(body: Body, tile: Tile, response: Response) returns (separated: bool)
      requires Valid() && tile.slope.Some? && body.slopes.Some?
      modifies body
      ensures Outcome(separated, body.State()) == ResponseOutcome(Tables(), options, old(body.State()), tile, response.State())
    {
      separated := Separate(body, tile, response, false);
      if !separated {
        return false;
      }
      ApplyVelocity(body, tile, response);
      UpdateFlags(body, response);
    }
  }
}
