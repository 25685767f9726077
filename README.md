# Arcade Slopes in Dafny

This project models the core of Arcade Slopes, a Phaser CE plugin. The plugin
lets arcade-physics bodies collide with sloped tiles. It separates a body from
a tile's polygon with the Separating Axis Theorem, using a bundled copy of
SAT.js. The model covers five parts.

- **SAT kernel** (`geometry.dfy`, module `Geometry`). This holds SAT.js's
  vectors, polygons with their edges and normals, boxes, and responses. It also
  holds `flattenPointsOn`, `isSeparatingAxis` and `testPolygonPolygon`. Floating
  point numbers are modelled as reals.
- **Tile catalogue** (`catalog.dfy`, module `Catalog`). This holds the 25 slope
  types and their numeric constants and names, the edge flags (EMPTY, SOLID,
  INTERESTING), and the `TileSlope` values the factory's builders produce. A
  builder's output is the polygon's points, its interesting sides and its
  preferred separation axis. The `type`/`typeName` accessors and
  `resolveType` / `resolveTypeName` are here too.
- **Tile factory** (`factory.dfy`, module `Factory`). This holds `create`, the
  definitions keyed by type, and `convertTilemapLayer`. That function attaches
  slopes to a layer's tiles and then runs `calculateEdges`, which flags each
  edge against its neighbours in row-major order on an `array2` grid, using
  `compareEdges`. The overridden diagonal neighbour getters are modelled too.
- **Restraint engine** (`restraints.dfy`, module `Restraints`). This holds the
  vertex tables, `intersectArrays` and `resolve`, `resolveOverlaps`,
  `prepareRestraints` and the default restraint table. It also holds the rule
  evaluation that `SatRestrainer.restrain` performs.
- **Solver pipeline** (`solver.dfy`, module `Solver`). This holds the
  `SatSolver` object and its methods (`collide`, `shouldSeparate`, `separate`,
  `collideOnAxis`, `applyVelocity`, `updateFlags`, `pull`, `prepareResponse`,
  the minimum offsets and the Y preference), plus `SatRestrainer`.
  - A body is a `Body` object whose fields these methods update in place.
  - Each method is proved equal to a specification function on body values
    (`BodyState`).
  - Lemmas about those functions state what a collision promises.

The methods keep the source's imperative form.

- `Response` objects are mutated by `isSeparatingAxis`, `clear` and
  `prepareResponse`.
- `calculateEdges` rewrites tiles in a grid as it walks it.
- `prepareRestraints` and `resolve` build their results in loops.

The tables and pure helpers are functions.

Where the source has a defect (see "## Findings"), the operations follow the
source as written. The corrected definition sits beside the as-written one,
with the intended property proved about it and a lemma saying where the two
agree (`InterestingSidesAgree`, `TablesAsWrittenOmitThree`,
`PrepareRuleAgrees`).

## Model

| member | source | states |
|---|---|---|
| Geometry.ProjectNSplits | phaser-arcade-slopes/assets/js/phaser-arcade-slopes.js:3583-3588 | for a unit normal, `projectN` keeps the component along the normal: the rest is orthogonal to it and both parts add back to the vector |
| Geometry.Recalc | phaser-arcade-slopes/assets/js/phaser-arcade-slopes.js:3800-3834 | each edge runs from a point to the next one (wrapping to the first), and each normal is the normalised perpendicular of its edge |
| Geometry.EdgesClose | phaser-arcade-slopes/assets/js/phaser-arcade-slopes.js:3800-3834 | the edges `_recalc` computes telescope: the first k sum to point k minus point 0, and all of them sum to zero, so the outline closes |
| Geometry.NormalIsPerpendicular | phaser-arcade-slopes/assets/js/phaser-arcade-slopes.js:3800-3834 | when normalising only rescales, every normal is perpendicular to its edge |
| Geometry.BoxToPolygon | phaser-arcade-slopes/assets/js/phaser-arcade-slopes.js:3895-3903 | a box becomes a four-point polygon at the box's position whose points are exactly the box's four corners and whose edges are axis-aligned |
| Geometry.Response.constructor | phaser-arcade-slopes/assets/js/phaser-arcade-slopes.js:3916-3922 | a new response has no participants, zero vectors, overlap `Number.MAX_VALUE`, and `aInB` and `bInA` set |
| Geometry.Response.Clear | phaser-arcade-slopes/assets/js/phaser-arcade-slopes.js:3931-3936 | clearing resets the overlap and both containment flags and keeps the participants and the vectors |
| Geometry.MinProjectionIsMinimum | phaser-arcade-slopes/assets/js/phaser-arcade-slopes.js:3980-3991 | the lower bound is at most every point's projection and is attained by some point (unless it stays at `Number.MAX_VALUE`) |
| Geometry.MaxProjectionIsMaximum | phaser-arcade-slopes/assets/js/phaser-arcade-slopes.js:3980-3991 | the upper bound is at least every point's projection and is attained by some point (unless it stays at `-Number.MAX_VALUE`) |
| Geometry.FlattenPointsOn | phaser-arcade-slopes/assets/js/phaser-arcade-slopes.js:3980-3991 | the loop computes the projection range, and every point projects inside it |
| Geometry.SeparatedVerticesApart | phaser-arcade-slopes/assets/js/phaser-arcade-slopes.js:4008-4027 | if the two projection ranges are disjoint on an axis, every world vertex of one polygon lies strictly below every world vertex of the other along that axis |
| Geometry.VerticesApartSeparated | phaser-arcade-slopes/assets/js/phaser-arcade-slopes.js:4008-4027 | conversely, one polygon wholly below the other along the axis makes the axis separating |
| Geometry.SignedOverlap | phaser-arcade-slopes/assets/js/phaser-arcade-slopes.js:4028-4063 | the overlap's magnitude is the smaller of the two ways of pushing the ranges apart, and its sign says which way closes the gap |
| Geometry.IsSeparatingAxis | phaser-arcade-slopes/assets/js/phaser-arcade-slopes.js:4008-4071 | returns true exactly when the ranges are disjoint, and updates the response by one step of the minimum-overlap search |
| Geometry.AxisStepOverlap | phaser-arcade-slopes/assets/js/phaser-arcade-slopes.js:4008-4071 | a separating axis leaves the response alone; otherwise the overlap never grows, and when it shrinks the normal becomes the axis or its reverse |
| Geometry.ScanNeverIncreases | phaser-arcade-slopes/assets/js/phaser-arcade-slopes.js:4357-4383 | testing any sequence of axes never increases the response's overlap |
| Geometry.ScanBelowEveryAxis | phaser-arcade-slopes/assets/js/phaser-arcade-slopes.js:4357-4383 | when no axis separates, the final overlap is at most the overlap on every axis of the search: it is the minimum translation |
| Geometry.ScanOverlapFromAxis | phaser-arcade-slopes/assets/js/phaser-arcade-slopes.js:4357-4383 | when no axis separates, either the overlap and normal are the initial ones or one of the axes of the search set them |
| Geometry.TestAxes | phaser-arcade-slopes/assets/js/phaser-arcade-slopes.js:4363-4373 | each loop over one polygon's normals stops at the first separating axis, or leaves the response as the search over all its axes made it |
| Geometry.TestPolygonPolygon | phaser-arcade-slopes/assets/js/phaser-arcade-slopes.js:4357-4383 | returns true exactly when no normal of either polygon separates them; the response then holds both polygons and the overlap vector is the normal scaled by the minimum overlap; on false the search stopped at a separating axis |
| Catalog.EdgeCode | phaser-arcade-slopes/assets/js/phaser-arcade-slopes.js:2143-2159 | the edge flags are the constants 0 (EMPTY), 1 (SOLID) and 2 (INTERESTING) |
| Catalog.MixinEdges | phaser-arcade-slopes/assets/js/phaser-arcade-slopes.js:1975-1980 | the sides a builder names become INTERESTING and every other side keeps the SOLID default |
| Catalog.Code | phaser-arcade-slopes/assets/js/phaser-arcade-slopes.js:2178-2455 | every slope type has a constant between 0 and 24 |
| Catalog.FromCode | phaser-arcade-slopes/assets/js/phaser-arcade-slopes.js:2178-2455 | a number names a type exactly when it is between 0 and 24, and it names the type with that constant |
| Catalog.CodeRoundTrip | phaser-arcade-slopes/assets/js/phaser-arcade-slopes.js:2178-2455 | the constants are distinct: a type's constant leads back to the type |
| Catalog.TypeName | phaser-arcade-slopes/assets/js/phaser-arcade-slopes.js:2106-2133 | every type name is non-empty and starts with a capital letter |
| Catalog.NamedConstant | phaser-arcade-slopes/assets/js/phaser-arcade-slopes.js:2143-2455 | looking a type's name up among the TileSlope constructor's numeric own properties gives that type's constant, and `length`, the constructor's parameter count, gives 6 |
| Catalog.ParseInt | phaser-arcade-slopes/assets/js/phaser-arcade-slopes.js:2040 | `parseInt` yields a number exactly when the string starts with a digit, or with a sign followed by a digit |
| Catalog.ResolveType | phaser-arcade-slopes/assets/js/phaser-arcade-slopes.js:2039-2051 | a number resolves to itself when above -1 and to UNKNOWN otherwise; a name either stays as it is or resolves to the numeric property it names or to UNKNOWN; no numeric result is below -1 |
| Catalog.ResolveTypeIdempotent | phaser-arcade-slopes/assets/js/phaser-arcade-slopes.js:2039-2051 | resolving a resolved type changes nothing |
| Catalog.ResolveTypeOfType | phaser-arcade-slopes/assets/js/phaser-arcade-slopes.js:2039-2051 | every type name and every type constant resolves to that type's constant |
| Catalog.NameIsNotNumeric | phaser-arcade-slopes/assets/js/phaser-arcade-slopes.js:2039-2051 | no type name parses as a number, so names always take the constant lookup |
| Catalog.ResolveTypeName | phaser-arcade-slopes/assets/js/phaser-arcade-slopes.js:2092-2098 | a type's constant gives the type's name, and any number outside 0..24 gives "UNKNOWN" |
| Catalog.NameRoundTrip | phaser-arcade-slopes/assets/js/phaser-arcade-slopes.js:2092-2098 | resolving the name of any number gives back the number when it is a type constant, and UNKNOWN otherwise |
| Catalog.WithTypeName | phaser-arcade-slopes/assets/js/phaser-arcade-slopes.js:2075-2082 | the `typeName` setter stores the resolved type and changes nothing else |
| Catalog.TypeNameSetGet | phaser-arcade-slopes/assets/js/phaser-arcade-slopes.js:2075-2098 | setting `typeName` to a type's name, its constant or its constant's decimal string reads the type's name back |
| Catalog.KeyTypeName | phaser-arcade-slopes/assets/js/phaser-arcade-slopes.js:2092-2135 | the `typeNames` entry under a property name: a string spelling a type's constant in decimal finds that type's name, and any other string finds UNKNOWN |
| Catalog.SlopeTypeName | phaser-arcade-slopes/assets/js/phaser-arcade-slopes.js:2075-2098 | the getter names a numeric type as `resolveTypeName` does, a digit-string type by the type its digits spell, and any other string as UNKNOWN |
| Catalog.ShapePoints | phaser-arcade-slopes/assets/js/phaser-arcade-slopes.js:2691-3398 | every builder's polygon is a triangle or a quadrilateral |
| Catalog.Build | phaser-arcade-slopes/assets/js/phaser-arcade-slopes.js:1966-1990 | a built slope has the given type, zero friction, its polygon at the tile's world position with the builder's points, SOLID edges except the sides the source's builder marks INTERESTING, and a preferred axis exactly for the sloped types |
| Catalog.InterestingSidesAgree | phaser-arcade-slopes/assets/js/phaser-arcade-slopes.js:3235-3282 | the sides the builders mark INTERESTING differ from the corrected sides on the two right-top quarter slopes and on no other type |
| Catalog.InterestingIffOpen | phaser-arcade-slopes/assets/js/phaser-arcade-slopes.js:2691-3398 | with the corrected tables, a side is INTERESTING exactly when the polygon does not cover that side of the tile |
| Catalog.RightTopQuarterEdgesAsWritten | phaser-arcade-slopes/assets/js/phaser-arcade-slopes.js:3235-3282 | the two right-top quarter builders mark the covered right side INTERESTING and leave the open left side SOLID |
| Catalog.ShapeInsideTile | phaser-arcade-slopes/assets/js/phaser-arcade-slopes.js:2691-3398 | every polygon point lies inside the tile's bounds |
| Catalog.AxisNearlyUnit | phaser-arcade-slopes/assets/js/phaser-arcade-slopes.js:2830-3398 | every preferred axis has length 1 to within 1e-14 |
| Catalog.AxisPerpendicularToSlope | phaser-arcade-slopes/assets/js/phaser-arcade-slopes.js:2830-3398 | on a square tile, every preferred axis is perpendicular to the polygon's sloped edge, to within 1e-12 of the tile size |
| Catalog.FloorAxisPerpendicularToSlope | phaser-arcade-slopes/assets/js/phaser-arcade-slopes.js:2830-3398 | the same, for the slopes whose axis points up (floors) |
| Catalog.CeilingAxisPerpendicularToSlope | phaser-arcade-slopes/assets/js/phaser-arcade-slopes.js:2830-3398 | the same, for the slopes whose axis points down or is level (ceilings) |
| Catalog.AxisPointsOutOfShape | phaser-arcade-slopes/assets/js/phaser-arcade-slopes.js:2830-3398 | every preferred axis points out of the polygon: no point lies beyond the sloped edge along it |
| Catalog.FloorAxisPointsOutOfShape | phaser-arcade-slopes/assets/js/phaser-arcade-slopes.js:2830-3398 | the same, for the slopes whose axis points up (floors) |
| Catalog.CeilingAxisPointsOutOfShape | phaser-arcade-slopes/assets/js/phaser-arcade-slopes.js:2830-3398 | the same, for the slopes whose axis points down or is level (ceilings) |
| Catalog.AxisPointsThroughInterestingSides | phaser-arcade-slopes/assets/js/phaser-arcade-slopes.js:2830-3398 | with the corrected sides, every preferred axis points out through INTERESTING sides only: up through the top, down through the bottom, left and right likewise |
| Factory.Neighbour | phaser-arcade-slopes/assets/js/phaser-arcade-slopes.js:407-463 | inside the layer, a neighbour exists exactly when it is inside the layer too, and it is one step in that direction |
| Factory.NeighbourSymmetric | phaser-arcade-slopes/assets/js/phaser-arcade-slopes.js:407-463 | the neighbour's neighbour in the opposite direction is the tile itself |
| Factory.CompareEdges | phaser-arcade-slopes/assets/js/phaser-arcade-slopes.js:2670-2680 | an edge is either kept or cleared to EMPTY, and it is cleared exactly when it is SOLID and the facing edge is not INTERESTING |
| Factory.CompareEdgesFixedPoints | phaser-arcade-slopes/assets/js/phaser-arcade-slopes.js:2670-2680 | only SOLID edges can change, and comparing again changes nothing |
| Factory.CompareEdgesOrderFree | phaser-arcade-slopes/assets/js/phaser-arcade-slopes.js:2670-2680 | clearing the neighbour's edge first does not change the outcome for this edge |
| Factory.SettleOnlyClearsEdges | phaser-arcade-slopes/assets/js/phaser-arcade-slopes.js:2623-2657 | settling keeps exactly the tiles that have a slope and changes only their edges: each edge is kept or cleared to EMPTY, and a side without a sloped neighbour is kept |
| Factory.SharedSolidEdgeVanishes | phaser-arcade-slopes/assets/js/phaser-arcade-slopes.js:2623-2657 | two stacked tiles that meet with SOLID edges both lose the shared edge |
| Factory.SettleInRowMajorOrder | phaser-arcade-slopes/assets/js/phaser-arcade-slopes.js:2623-2657 | each tile is compared with its already settled upper and left neighbours and its unsettled lower and right ones |
| Factory.TileAt | phaser-arcade-slopes/assets/js/phaser-arcade-slopes.js:2635-2638 | reading a grid cell gives the slope at that position, or nothing outside the layer |
| Factory.CalculateEdges | phaser-arcade-slopes/assets/js/phaser-arcade-slopes.js:2623-2657 | after the pass, every tile equals the row-major settling of the original layer |
| Factory.SettleTile | phaser-arcade-slopes/assets/js/phaser-arcade-slopes.js:2631-2655 | one step of the pass settles the next tile and keeps everything settled before it |
| Factory.CompareWithNeighbours | phaser-arcade-slopes/assets/js/phaser-arcade-slopes.js:2640-2654 | comparing a tile with its four neighbours gives its settled edges |
| Factory.GetNeighbours | phaser-arcade-slopes/assets/js/phaser-arcade-slopes.js:2635-2638 | the upper and left neighbours are read already settled and the lower and right ones still original |
| Catalog.Decimal | phaser-arcade-slopes/assets/js/phaser-arcade-slopes.js:2469-2504 | a number's property key is a non-empty string of digits |
| Catalog.DecimalRoundTrip | phaser-arcade-slopes/assets/js/phaser-arcade-slopes.js:2469-2504 | the digits of a property key read back as the number |
| Factory.Definition | phaser-arcade-slopes/assets/js/phaser-arcade-slopes.js:2469-2504 | a definition is found only under a type's constant or its decimal key |
| Factory.DecimalOfShort | phaser-arcade-slopes/assets/js/phaser-arcade-slopes.js:2469-2504 | a one- or two-digit key without a leading zero is the decimal key of its value |
| Factory.DefinitionOfEveryType | phaser-arcade-slopes/assets/js/phaser-arcade-slopes.js:2469-2504 | every type is defined, under its constant and under its decimal key |
| Factory.DecimalIsCanonical | phaser-arcade-slopes/assets/js/phaser-arcade-slopes.js:2469-2504 | decimal keys have no leading zero |
| Factory.Create | phaser-arcade-slopes/assets/js/phaser-arcade-slopes.js:2532-2550 | `create` builds a slope exactly when the resolved type has a definition, and the slope carries the resolved type |
| Factory.CreateEveryType | phaser-arcade-slopes/assets/js/phaser-arcade-slopes.js:2532-2550 | every type can be created from its constant, its name or its decimal key, and gets its own builder's slope |
| Catalog.DecimalParses | phaser-arcade-slopes/assets/js/phaser-arcade-slopes.js:2040 | a decimal key parses to its own number, so `resolveType` keeps it verbatim |
| Factory.Attach | phaser-arcade-slopes/assets/js/phaser-arcade-slopes.js:2586-2594 | a tile whose index is mapped gets the created slope (or keeps its own when creation fails); any other tile keeps its slope |
| Factory.ConvertTilemapLayer | phaser-arcade-slopes/assets/js/phaser-arcade-slopes.js:2580-2614 | no tile loses its slope, and the layer ends as the attached layer settled in row-major order |
| Factory.AttachSlopes | phaser-arcade-slopes/assets/js/phaser-arcade-slopes.js:2584-2611 | the loop attaches the mapped slope to every tile of the layer |
| Factory.AttachTile | phaser-arcade-slopes/assets/js/phaser-arcade-slopes.js:2586-2594 | one step attaches one tile and leaves the others as they were |
| Restraints.KeepSharedMembers | phaser-arcade-slopes/assets/js/phaser-arcade-slopes.js:1129-1135 | the first filter keeps exactly the members both arrays have |
| Restraints.FirstOccurrencesMembers | phaser-arcade-slopes/assets/js/phaser-arcade-slopes.js:1129-1135 | the duplicate filter keeps every member |
| Restraints.FirstOccurrencesDistinct | phaser-arcade-slopes/assets/js/phaser-arcade-slopes.js:1129-1135 | the duplicate filter leaves no duplicates |
| Restraints.IntersectArraysSpec | phaser-arcade-slopes/assets/js/phaser-arcade-slopes.js:1129-1135 | `intersectArrays` holds exactly the common members, each once |
| Restraints.TablesListVertices | phaser-arcade-slopes/assets/js/phaser-arcade-slopes.js:1193-1342 | with the corrected tables, a type is listed under a vertex location exactly when its polygon has a point there |
| Restraints.TopCentreTable | phaser-arcade-slopes/assets/js/phaser-arcade-slopes.js:1193-1200 | the top-centre table lists exactly the types with a point at the middle of the top side |
| Restraints.BottomCentreTable | phaser-arcade-slopes/assets/js/phaser-arcade-slopes.js:1208-1215 | the same for the middle of the bottom side |
| Restraints.LeftCentreTable | phaser-arcade-slopes/assets/js/phaser-arcade-slopes.js:1223-1230 | the same for the middle of the left side |
| Restraints.RightCentreTable | phaser-arcade-slopes/assets/js/phaser-arcade-slopes.js:1238-1245 | the same for the middle of the right side |
| Restraints.TopLeftCornerTable | phaser-arcade-slopes/assets/js/phaser-arcade-slopes.js:1253-1269 | the corrected top-left table lists exactly the types with a point at the top-left corner |
| Restraints.TopRightCornerTable | phaser-arcade-slopes/assets/js/phaser-arcade-slopes.js:1277-1294 | the same for the top-right corner |
| Restraints.BottomLeftCornerTable | phaser-arcade-slopes/assets/js/phaser-arcade-slopes.js:1302-1318 | the same for the corrected bottom-left table |
| Restraints.BottomRightCornerTable | phaser-arcade-slopes/assets/js/phaser-arcade-slopes.js:1326-1342 | the same for the corrected bottom-right table |
| Restraints.VertexTablesAsWrittenMissVertices | phaser-arcade-slopes/assets/js/phaser-arcade-slopes.js:1253-1342 | three corner tables, as written, leave out a type that does have a point at that corner |
| Restraints.TablesAsWrittenOmitThree | phaser-arcade-slopes/assets/js/phaser-arcade-slopes.js:1193-1342 | the source's tables are the corrected ones less exactly the one entry each of the three corner tables leaves out |
| Restraints.ResolveLocations | phaser-arcade-slopes/assets/js/phaser-arcade-slopes.js:1149-1182 | the loop over the locations computes the resolution of the whole list against the source's tables |
| Restraints.ResolveNext | phaser-arcade-slopes/assets/js/phaser-arcade-slopes.js:1160-1179 | one step skips an unknown location, starts from the source's table when nothing is held, and otherwise intersects |
| Restraints.ResolveIsIntersection | phaser-arcade-slopes/assets/js/phaser-arcade-slopes.js:1149-1182 | while no step restarts, a type is in the result exactly when it is in every known location's table |
| Restraints.ResolveFindsCommonTypes | phaser-arcade-slopes/assets/js/phaser-arcade-slopes.js:1149-1182 | a type in every known table is always in the result, restart or not |
| Restraints.EmptyBeforeKnown | phaser-arcade-slopes/assets/js/phaser-arcade-slopes.js:1149-1182 | without a known location the result is empty |
| Restraints.ResolveRestartsAfterEmpty | phaser-arcade-slopes/assets/js/phaser-arcade-slopes.js:1174-1178 | an empty intersection is taken for "nothing yet": left, top, right resolves to the right table although left and top share no type |
| Restraints.Check | phaser-arcade-slopes/assets/js/phaser-arcade-slopes.js:583-598 | an overlap constraint throws only when undefined and reached, and passes only when its condition holds |
| Restraints.ResolveOverlapsAdmitsDirection | phaser-arcade-slopes/assets/js/phaser-arcade-slopes.js:629-656 | a known direction's constraints admit a unit normal exactly when it points that way; an unknown direction constrains nothing |
| Restraints.PrepareRule | phaser-arcade-slopes/assets/js/phaser-arcade-slopes.js:682-697 | the corrected preparation: neighbour and `separate` (true by default) kept, a known direction's constraints in place of the overlaps, and an unknown direction adding none, so a rule naming no `undefined` overlap gets none |
| Restraints.PrepareRuleAsWritten | phaser-arcade-slopes/assets/js/phaser-arcade-slopes.js:682-697 | the source's preparation: neighbour and `separate` (true by default) kept, types resolved, a known direction's constraints in place of the overlaps, an unknown direction leaving both `undefined`, and no direction leaving them as given |
| Restraints.PrepareRuleAgrees | phaser-arcade-slopes/assets/js/phaser-arcade-slopes.js:682-697 | the two preparations agree on a rule with no direction or a known one, and on a rule naming no `undefined` overlap they agree exactly when it is well formed |
| Restraints.ResolveTypes | phaser-arcade-slopes/assets/js/phaser-arcade-slopes.js:690-692 | every listed type is replaced by its resolved type, in order |
| Restraints.RuleCondition | phaser-arcade-slopes/assets/js/phaser-arcade-slopes.js:567-598 | a rule holds exactly when the neighbour exists, both types are allowed and both overlap constraints pass |
| Restraints.FirstMatch | phaser-arcade-slopes/assets/js/phaser-arcade-slopes.js:564-618 | the loop stops at the first matching rule, and finds none exactly when no rule matches |
| Restraints.WellFormedRulesNeverThrow | phaser-arcade-slopes/assets/js/phaser-arcade-slopes.js:564-618 | rules with defined constraints never make `restrain` throw |
| Restraints.UnknownDirectionThrows | phaser-arcade-slopes/assets/js/phaser-arcade-slopes.js:682-687 | as written, a rule with an unknown direction throws once its types match; prepared as corrected it never does |
| Restraints.PrepareRules | phaser-arcade-slopes/assets/js/phaser-arcade-slopes.js:678-698 | a list of rules is prepared rule by rule, in order, as the source prepares each |
| Restraints.PrepareRestraints | phaser-arcade-slopes/assets/js/phaser-arcade-slopes.js:671-706 | the loop computes the table the source prepares |
| Restraints.FileEntry | phaser-arcade-slopes/assets/js/phaser-arcade-slopes.js:674-703 | one step stores one entry's rules, prepared as the source prepares them, under its key |
| Restraints.PrepareRuleList | phaser-arcade-slopes/assets/js/phaser-arcade-slopes.js:678-698 | the inner loop prepares every rule of an entry as the source does |
| Restraints.PrepareOne | phaser-arcade-slopes/assets/js/phaser-arcade-slopes.js:679-697 | the loop body prepares one rule as the source does, an unknown direction leaving both overlaps `undefined` |
| Restraints.PreparedWellFormed | phaser-arcade-slopes/assets/js/phaser-arcade-slopes.js:671-706 | when every rule of a table names no `undefined` overlap and no unknown direction, every entry the source's preparation files is free of `undefined` constraints |
| Restraints.DefaultInformal | phaser-arcade-slopes/assets/js/phaser-arcade-slopes.js:718-1117 | the default table has one entry per shorthand entry, each rule's locations resolved to type names through the source's tables |
| Restraints.Informal | phaser-arcade-slopes/assets/js/phaser-arcade-slopes.js:718-1117 | every default rule is well formed: it names no `undefined` overlap and its direction is one of the four |
| Restraints.DefaultRestraintsWellFormed | phaser-arcade-slopes/assets/js/phaser-arcade-slopes.js:718-1117 | every default restraint prepares to a well-formed rule, so the defaults never throw |
| Solver.Inverted | phaser-arcade-slopes/assets/js/phaser-arcade-slopes.js:1392-1398 | preparing a response keeps the overlap and participants and points both vectors the opposite way |
| Solver.InvertedTwice | phaser-arcade-slopes/assets/js/phaser-arcade-slopes.js:1392-1398 | inverting twice restores the response |
| Solver.PrepareResponse | phaser-arcade-slopes/assets/js/phaser-arcade-slopes.js:1392-1398 | the method inverts the response in place |
| Solver.MinimumOffsetX | phaser-arcade-slopes/assets/js/phaser-arcade-slopes.js:1454-1456 | moving by the offset along X covers the same distance along the overlap vector as the vector itself |
| Solver.MinimumOffsetY | phaser-arcade-slopes/assets/js/phaser-arcade-slopes.js:1466-1468 | the same along Y |
| Solver.MovingAgainstY | phaser-arcade-slopes/assets/js/phaser-arcade-slopes.js:1480-1482 | true exactly when the overlap and the velocity have opposite nonzero Y components |
| Solver.ShouldPreferY | phaser-arcade-slopes/assets/js/phaser-arcade-slopes.js:1498-1502 | Y is preferred exactly when the option or the body asks for it, the overlap is not vertical, and the body moves against it in Y |
| Solver.Moved | phaser-arcade-slopes/assets/js/phaser-arcade-slopes.js:1552-1558 | separating moves only the position, as far along the overlap vector as that vector is long: straight up or down when Y is preferred, by the vector otherwise |
| Solver.PulledIffChanged | phaser-arcade-slopes/assets/js/phaser-arcade-slopes.js:1700-1753 | `pull` reports a pull exactly when the velocity changed |
| Solver.PullPointsInward | phaser-arcade-slopes/assets/js/phaser-arcade-slopes.js:1700-1753 | a pull never adds velocity along the separation normal |
| Solver.PullOutcome | phaser-arcade-slopes/assets/js/phaser-arcade-slopes.js:1700-1753 | pulling changes only the velocity and returns true exactly when it changed |
| Solver.VelocityApplied | phaser-arcade-slopes/assets/js/phaser-arcade-slopes.js:1574-1599 | applying velocity keeps the configuration and changes only the velocity and the recorded previous velocity |
| Solver.NoBounceSlides | phaser-arcade-slopes/assets/js/phaser-arcade-slopes.js:1574-1599 | without bounce, friction or pull, the body slides: the normal component is removed |
| Solver.FullBounceReflects | phaser-arcade-slopes/assets/js/phaser-arcade-slopes.js:1574-1599 | with full bounce and no friction or pull, the velocity is reflected about the surface |
| Solver.FlagsUpdated | phaser-arcade-slopes/assets/js/phaser-arcade-slopes.js:1608-1620 | flags are only ever raised, and each nonzero overlap component raises the matching `touching` flag |
| Solver.FlagsUpdatedKeepsBlockedTouching | phaser-arcade-slopes/assets/js/phaser-arcade-slopes.js:1608-1620 | a blocked side stays touching, and updating twice with the same overlap changes nothing more |
| Solver.AfterContact | phaser-arcade-slopes/assets/js/phaser-arcade-slopes.js:1833-1836 | after a separation the position and configuration stay, and the flags only rise |
| Solver.DisplaceOutcome | phaser-arcade-slopes/assets/js/phaser-arcade-slopes.js:1537-1561 | a forced separation moves the body by the overlap exactly when the callbacks allow it, and otherwise leaves it alone |
| Solver.CollideOnAxisOutcome | phaser-arcade-slopes/assets/js/phaser-arcade-slopes.js:1851-1875 | colliding on one axis keeps the configuration, the flags only rise, and on false the body is untouched |
| Solver.RestrainOutcome | phaser-arcade-slopes/assets/js/phaser-arcade-slopes.js:558-619 | restraining keeps the configuration, and the flags only rise |
| Solver.RestrainAll | phaser-arcade-slopes/assets/js/phaser-arcade-slopes.js:1916-1928 | consulting every restrainer keeps the configuration, and the flags only rise |
| Solver.ShouldSeparateOutcome | phaser-arcade-slopes/assets/js/phaser-arcade-slopes.js:1891-1931 | deciding whether to separate keeps the configuration, and the flags only rise |
| Solver.SeparateOutcome | phaser-arcade-slopes/assets/js/phaser-arcade-slopes.js:1537-1561 | an unforced separation keeps the configuration, and the flags only rise |
| Solver.Placed | phaser-arcade-slopes/assets/js/phaser-arcade-slopes.js:1801-1803 | the tile's polygon is moved to the tile's world position |
| Solver.PlacedPolygon | phaser-arcade-slopes/assets/js/phaser-arcade-slopes.js:1797-1799 | the body's polygon is moved to the body's position and keeps its shape |
| Solver.CollideOutcome | phaser-arcade-slopes/assets/js/phaser-arcade-slopes.js:1791-1839 | a collision keeps the body's configuration, and the flags only rise |
| Solver.ContactOutcome | phaser-arcade-slopes/assets/js/phaser-arcade-slopes.js:1817-1838 | responding to an overlap keeps the configuration and the polygon, and the flags only rise |
| Solver.ResponseOutcome | phaser-arcade-slopes/assets/js/phaser-arcade-slopes.js:1827-1838 | separating and then applying velocity and flags keeps the configuration, and the flags only rise |
| Solver.TowardsEmptyEdgeIsOutward | phaser-arcade-slopes/assets/js/phaser-arcade-slopes.js:1896-1910 | the EMPTY-edge test holds exactly for normals that point straight out through an EMPTY side |
| Solver.ShouldSeparateRefusals | phaser-arcade-slopes/assets/js/phaser-arcade-slopes.js:1891-1914 | a disabled body, a zero overlap or a normal out through an EMPTY side is refused with the body untouched; past those tests, with restraints off, the answer is yes |
| Solver.RestrainFalseIffMatch | phaser-arcade-slopes/assets/js/phaser-arcade-slopes.js:558-619 | once the rules are consulted, `restrain` returns false exactly when some rule matches; the body changes only through `collideOnAxis` |
| Solver.CollideLeavesBodyWhenItStops | phaser-arcade-slopes/assets/js/phaser-arcade-slopes.js:1791-1815 | without its inputs, without an overlap, or with `overlapOnly`, a collision moves, slows and flags nothing, and returns whether the shapes overlap |
| Solver.CollideWithoutRestraints | phaser-arcade-slopes/assets/js/phaser-arcade-slopes.js:1791-1839 | with restraints off, a collision either moves the body out along the overlap vector or leaves position, velocity and flags alone |
| Solver.EvaluateRule | phaser-arcade-slopes/assets/js/phaser-arcade-slopes.js:573-598 | for a rule with defined overlap constraints, the evaluation inside `restrain` computes the rule's condition, and that condition is defined |
| Solver.SatRestrainer.constructor | phaser-arcade-slopes/assets/js/phaser-arcade-slopes.js:502-546 | a new restrainer holds the default restraints prepared as the source prepares them |
| Solver.SatRestrainer.Restrain | phaser-arcade-slopes/assets/js/phaser-arcade-slopes.js:558-619 | the method's result and the body it leaves are those of the restrain function, and it collides on one axis exactly when a matching rule asks for it |
| Solver.SatSolver.constructor | phaser-arcade-slopes/assets/js/phaser-arcade-slopes.js:1357-1382 | the supplied options win over the defaults (`preferY` false, `restrain` true), and the solver starts with one default restrainer |
| Solver.SatSolver.IsSeparatingAxis | phaser-arcade-slopes/assets/js/phaser-arcade-slopes.js:1515-1525 | returns whether the axis separates the polygons and, when it does not, leaves the response with the overlap vector for the axis |
| Solver.SatSolver.Pull | phaser-arcade-slopes/assets/js/phaser-arcade-slopes.js:1700-1753 | the method's result and new velocity are those of the pull function |
| Solver.SatSolver.ApplyVelocity | phaser-arcade-slopes/assets/js/phaser-arcade-slopes.js:1574-1599 | the body becomes what the velocity function gives |
| Solver.SatSolver.UpdateFlags | phaser-arcade-slopes/assets/js/phaser-arcade-slopes.js:1608-1620 | the body becomes what the flag function gives |
| Solver.SatSolver.Separate | phaser-arcade-slopes/assets/js/phaser-arcade-slopes.js:1537-1561 | an unforced call follows the separation function, and a forced one follows the displacement function without colliding on an axis |
| Solver.SatSolver.CollideOnAxis | phaser-arcade-slopes/assets/js/phaser-arcade-slopes.js:1851-1875 | the method follows the one-axis collision function and counts one axis collision |
| Solver.SatSolver.ShouldSeparate | phaser-arcade-slopes/assets/js/phaser-arcade-slopes.js:1891-1931 | the method follows the decision function over all the solver's restrainers |
| Solver.SatSolver.Collide | phaser-arcade-slopes/assets/js/phaser-arcade-slopes.js:1791-1839 | the method's result and the body it leaves are those of the collide function |
| Solver.SatSolver.Contact | phaser-arcade-slopes/assets/js/phaser-arcade-slopes.js:1817-1838 | recording the overlap, inverting the response and responding follow the contact function |
| Solver.SatSolver.Test | phaser-arcade-slopes/assets/js/phaser-arcade-slopes.js:1797-1815 | the test reports whether the placed polygons overlap and, when they do, gives their collision response |
| Solver.SatSolver.Respond | phaser-arcade-slopes/assets/js/phaser-arcade-slopes.js:1827-1838 | separating and, on success, applying velocity and flags follow the response function |

## Left out

- The plugin's Phaser integration is left out: plugin init, destroy, enable and `enableBody`, the `collideSpriteVs*` overrides, and the `Facade`. They only wire the solver into Phaser's physics loop.
- `snap`, `snapCollide`, `putOnSlopeX/Y` and the debug rendering are left out. They are separate features, not part of a collision response.
- The orthogonal neighbour getters (`getTileAbove`, `getTileBelow`, `getTileLeft`, `getTileRight`) belong to Phaser; they are modelled by index arithmetic (`Factory.Neighbour`), as the diagonal overrides are.
- Factory.ConvertTilemapLayer: does not build the `tile.neighbours` object (lines 2596-2608), which holds references to a tile's eight neighbour tiles. `Solver` takes a tile's neighbour slopes as an input (`Tile.neighbours`) instead. `restrain` reads only their types, and settling keeps every type (`Factory.SettleOnlyClearsEdges`).
- Catalog.ResolveType: of the TileSlope constructor's own properties, only the numeric ones are modelled (the type constants, the edge flags, `UNKNOWN` and `length`). A name that finds a non-numeric one (`name`, `prototype`, `typeNames`, a static method) resolves to UNKNOWN here; the source would return that property's value.
- SAT.js polygon angles and offsets are not modelled. The slope solver never sets them, so a polygon's `calcPoints` equal its `points`, and the model reads `points` where SAT.js reads `calcPoints`.
- `TileSlopeFactory.define` and definitions that are not builder functions are left out. Every built-in definition is modelled.
- SAT.js's circle tests, `voronoiRegion`, `pointInPolygon`, `rotate`, `len` and the object pools are not used by the core. `normalize` is a parameter of the polygon functions, because it needs a square root.
- Floating point numbers are reals, and NaN and Infinity are not modelled. The minimum offsets require a nonzero divisor, which the source guarantees through `shouldPreferY` (the overlap's X is nonzero) and `movingAgainstY` (its Y is nonzero).
- Restraint rules are prepared as values into a new table; the source rewrites the rule objects in place. JavaScript's key order and property aliasing are not modelled.
- The tile polygon's position write-back in `collide` is modelled by `Placed`, which gives the positioned copy; the tile is a value.
- `collideOnAxis` always gets a fresh response; its optional `response` argument is not modelled.
- `shouldSeparate` skips restrainers without a `restrain` function; here every restrainer is a `SatRestrainer`, so that case does not arise.
- Collision callbacks are given as the booleans they return; calling them is outside the model. `body.slopes.sat.response` and the `stick` option are not modelled. The `console.warn` in `create` is left out.
- Catalog.ParseInt: reads an optional sign and ASCII digits only; `parseInt`'s whitespace skipping and other radixes are not modelled.
- `separate` values other than booleans and the four built-in tests are not modelled.
- Solver.RestrainOutcome: states only what holds for every rule table (the configuration is kept and the flags only rise). The match condition is stated by Solver.RestrainFalseIffMatch.
- Solver.CollideOutcome: states only what every collision keeps. What it returns is stated per case by Solver.CollideLeavesBodyWhenItStops and Solver.CollideWithoutRestraints.

## Findings

| source | as written | input that shows it | evidently intended | confidence | as-written member | corrected member |
|---|---|---|---|---|---|---|
| phaser-arcade-slopes/assets/js/phaser-arcade-slopes.js:3235-3282 | `createQuarterRightTopLow` and `createQuarterRightTopHigh` mark the right side INTERESTING | a QUARTER_RIGHT_TOP_LOW tile: its polygon covers the whole right side, and its left side is open but stays SOLID | the open left side is INTERESTING and the covered right side is SOLID, as in every other builder | high, not executed | Catalog.RightTopQuarterEdgesAsWritten | Catalog.InterestingIffOpen |
| phaser-arcade-slopes/assets/js/phaser-arcade-slopes.js:1253-1342 | the corner vertex tables leave out three types | QUARTER_TOP_RIGHT_LOW has a point at the top-left corner, QUARTER_LEFT_TOP_LOW one at the bottom-left corner, and QUARTER_RIGHT_TOP_LOW one at the bottom-right corner; none is listed there | each table lists every type with a point at its location | high, not executed | Restraints.VertexTablesAsWrittenMissVertices | Restraints.TablesListVertices |
| phaser-arcade-slopes/assets/js/phaser-arcade-slopes.js:682-687 | an unknown direction leaves `overlapX` and `overlapY` undefined | a rule with direction "diagonal" whose types match: `restrain` reads `rule.overlapX[0]` on undefined and throws | an unknown direction constrains nothing | medium, not executed | Restraints.UnknownDirectionThrows | Restraints.PrepareRule |

`restrain` can call `collideOnAxis`, which moves the body and updates its
velocity and flags, and then return false. So `collide` can return false after
the body has changed. Solver.CollideLeavesBodyWhenItStops and
Solver.CollideWithoutRestraints state what holds regardless.
