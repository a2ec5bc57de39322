/** Conversion of an alert's boundary into the dashboard's zone payload:
    GeoJSON to shapes, union, a bounded simplification, and rings of
    {lat, lng} points. The geometry library's `unary_union` and `simplify`
    are parameters whose results are unknown shapes. */
module Zones {
  import opened Wrappers
  import opened GeoJson

  /** A polygon as the geometry library holds it: exterior ring and holes. */
  datatype Poly = Poly(exterior: seq<Position>, interiors: seq<seq<Position>>)

  /** A shape: a polygon, a multi-polygon, or any other kind of result
      (a line, a collection, ...) with its emptiness. */
  datatype Shape =
    | PolygonShape(poly: Poly)
    | MultiPolygonShape(parts: seq<Poly>)
    | OtherShape(kind: string, empty: bool)

  predicate IsEmpty(s: Shape) {
    match s
    case PolygonShape(p) => p.exterior == []
    case MultiPolygonShape(ps) => ps == []
    case OtherShape(_, e) => e
  }

  /** A point of the zone payload: the axes swapped relative to GeoJSON. */
  datatype LatLng = LatLng(lat: real, lng: real)

  type Zone = seq<LatLng>

  /** The knobs of the simplifier: SIMPLIFY_ENABLED, SIMPLIFY_TOLERANCE and
      MAX_POINTS (the last two may be None). */
  datatype SimplifyConfig = SimplifyConfig(enabled: bool, tolerance: Option<real>, maxPoints: Option<nat>)

  const DefaultConfig := SimplifyConfig(true, Some(0.001), Some(300))

  /** The library closes a ring it is given by repeating its first position. */
  function CloseRing(ring: seq<Position>): seq<Position> {
    if ring == [] || ring[0] == ring[|ring| - 1] then ring else ring + [ring[0]]
  }

  function PolyOf(rings: seq<seq<Position>>): Poly {
    if rings == [] then Poly([], []) else Poly(CloseRing(rings[0]), rings[1..])
  }

  /** `geojson_to_shapely`: None for a missing geometry or one that is not a
      Polygon or MultiPolygon; otherwise the shape of the same kind. */
  function GeoJsonToShape(geom: Option<Geometry>): (r: Option<Shape>)
    ensures r.Some? <==> HasPolygonal(geom)
    ensures r.Some? && geom.value.Polygon? ==> r.value.PolygonShape?
    ensures r.Some? && geom.value.MultiPolygon? ==>
      r.value.MultiPolygonShape? && |r.value.parts| == |geom.value.polygons|
  {
    match geom
    case None => None
    case Some(Polygon(rings)) => Some(PolygonShape(PolyOf(rings)))
    case Some(MultiPolygon(polys)) =>
      Some(MultiPolygonShape(seq(|polys|, i requires 0 <= i < |polys| => PolyOf(polys[i]))))
    case Some(OtherGeometry(_)) => None
  }

  /** `union_geometries`: nothing to unite gives None. */
  function UnionGeometries(shapes: seq<Shape>, unaryUnion: seq<Shape> -> Shape): (r: Option<Shape>)
    ensures r.None? <==> shapes == []
    ensures r.Some? ==> r.value == unaryUnion(shapes)
  {
    if shapes == [] then None else Some(unaryUnion(shapes))
  }

  function ExteriorLengths(parts: seq<Poly>): nat {
    if parts == [] then 0
    else ExteriorLengths(parts[..|parts| - 1]) + |parts[|parts| - 1].exterior|
  }

  /** `_count_points`: the exterior length of a polygon, the sum of the
      exterior lengths of a multi-polygon's parts, and 0 for no shape, an
      empty shape or any other kind. Holes are not counted. */
  function CountPoints(s: Option<Shape>): (n: nat)
    ensures s.None? || IsEmpty(s.value) || s.value.OtherShape? ==> n == 0
    ensures s.Some? && s.value.PolygonShape? ==> n == |s.value.poly.exterior|
    ensures s.Some? && s.value.MultiPolygonShape? ==> n == ExteriorLengths(s.value.parts)
  {
    match s
    case None => 0
    case Some(shp) =>
      if IsEmpty(shp) then 0
      else match shp
        case PolygonShape(p) => |p.exterior|
        case MultiPolygonShape(ps) => ExteriorLengths(ps)
        case OtherShape(_, _) => 0
  }

  function Swap(p: Position): LatLng {
    LatLng(p.lat, p.lon)
  }

  predicate Closed<T(==)>(ring: seq<T>) {
    ring != [] && ring[0] == ring[|ring| - 1]
  }

  /** `_ring_to_gb_points`: the ring with its first position repeated at
      the end when it is not already closed, each (x, y) turned into
      {lat: y, lng: x}. */
  function RingToGbPoints(coords: seq<Position>): (r: Zone)
    ensures coords == [] ==> r == []
    ensures coords != [] ==> Closed(r)
    ensures coords != [] ==> |r| == |coords| || |r| == |coords| + 1
    ensures forall i :: 0 <= i < |coords| ==> r[i] == LatLng(coords[i].lat, coords[i].lon)
    ensures |r| == |coords| + 1 ==> r[|coords|] == LatLng(coords[0].lat, coords[0].lon)
    ensures Closed(coords) ==> |r| == |coords|
  {
    if coords == [] then []
    else
      var ring := if coords[0] != coords[|coords| - 1] then coords + [coords[0]] else coords;
      seq(|ring|, i requires 0 <= i < |ring| => Swap(ring[i]))
  }

  /** `_polygon_to_zones`: the exterior ring only. */
  function PolygonToZone(p: Poly): Zone {
    RingToGbPoints(p.exterior)
  }

  function NonEmptyZones(zones: seq<Zone>): (r: seq<Zone>)
    ensures forall z :: z in r ==> z != []
    ensures forall z :: z in zones && z != [] ==> z in r
    ensures forall z :: z in r ==> z in zones
  {
    if zones == [] then []
    else
      var last := zones[|zones| - 1];
      NonEmptyZones(zones[..|zones| - 1]) + (if last == [] then [] else [last])
  }

  /** The rings `_shape_to_zones` emits before dropping empty ones: one per
      polygon, in order. */
  function RawZones(shp: Shape): seq<Zone> {
    match shp
    case PolygonShape(p) => [PolygonToZone(p)]
    case MultiPolygonShape(ps) => seq(|ps|, i requires 0 <= i < |ps| => PolygonToZone(ps[i]))
    case OtherShape(_, _) => []
  }

  /** The result of `_shape_to_zones`. */
  function ZonesOf(shp: Shape): (r: Option<seq<Zone>>)
    ensures shp.OtherShape? ==> r.None?
    ensures r.None? <==> shp.OtherShape? || NonEmptyZones(RawZones(shp)) == []
    ensures r.Some? ==> r.value == NonEmptyZones(RawZones(shp))
  {
    if shp.OtherShape? then None
    else
      var zones := NonEmptyZones(RawZones(shp));
      if zones == [] then None else Some(zones)
  }

  /** A zone payload as the dashboard needs it: at least one ring, and
      every ring non-empty and closed. */
  predicate WellFormed(zones: seq<Zone>) {
    zones != [] && forall z :: z in zones ==> Closed(z)
  }

  /** Any payload `_shape_to_zones` produces is well formed. */
  lemma ZonesOfWellFormed(shp: Shape)
    ensures ZonesOf(shp).Some? ==> WellFormed(ZonesOf(shp).value)
  {
    var raw := RawZones(shp);
    forall z | z in raw && z != [] ensures Closed(z) {
      var i :| 0 <= i < |raw| && raw[i] == z;
      var p := if shp.PolygonShape? then shp.poly else shp.parts[i];
      assert z == RingToGbPoints(p.exterior);
    }
  }

  /** `_shape_to_zones`. */
  method ShapeToZones(shp: Shape) returns (zones: Option<seq<Zone>>)
    ensures zones == ZonesOf(shp)
  {
    var rings: seq<Zone> := [];
    match shp {
      case PolygonShape(p) =>
        rings := rings + [PolygonToZone(p)];
      case MultiPolygonShape(ps) =>
        for i := 0 to |ps|
          invariant rings == seq(i, k requires 0 <= k < i => PolygonToZone(ps[k]))
        {
          rings := rings + [PolygonToZone(ps[i])];
        }
      case OtherShape(_, _) =>
        return None;
    }
    var kept := NonEmptyZones(rings);
    if kept == [] {
      return None;
    }
    return Some(kept);
  }

  /** `_zones_point_count`: the total number of points over all rings. */
  function ZonesPointCount(zones: seq<Zone>): nat {
    if zones == [] then 0 else ZonesPointCount(zones[..|zones| - 1]) + |zones[|zones| - 1]|
  }

  /** One run of the bounded simplification: the shape it settles on, the
      tolerances it passed to the library in order, and whether it stopped
      because a simplification came back empty. */
  datatype SimplifyRun = SimplifyRun(result: Shape, tolerances: seq<real>, collapsed: bool)

  /** The loop of `_simplify_shape` from `current` with tolerance `tol` and
      `remaining` iterations left. */
  function SimplifyLoop(simplify: (Shape, real) -> Shape, maxPoints: Option<nat>,
                        current: Shape, tol: real, remaining: nat): (run: SimplifyRun)
    ensures |run.tolerances| <= remaining
    ensures run.collapsed ==> |run.tolerances| > 0
    ensures run.collapsed ==> IsEmpty(simplify(run.result, run.tolerances[|run.tolerances| - 1]))
    decreases remaining
  {
    if remaining == 0 then SimplifyRun(current, [], false)
    else
      var candidate := simplify(current, tol);
      if IsEmpty(candidate) then SimplifyRun(current, [tol], true)
      else if maxPoints.None? || CountPoints(Some(candidate)) <= maxPoints.value then
        SimplifyRun(candidate, [tol], false)
      else
        var rest := SimplifyLoop(simplify, maxPoints, candidate, tol * 2.0, remaining - 1);
        SimplifyRun(rest.result, [tol] + rest.tolerances, rest.collapsed)
  }

  /** The number of simplification attempts. */
  const SimplifyAttempts: nat := 10

  /** The whole of `_simplify_shape`. */
  function Simplification(shp: Shape, cfg: SimplifyConfig, simplify: (Shape, real) -> Shape): SimplifyRun {
    if !cfg.enabled || cfg.tolerance.None? then SimplifyRun(shp, [], false)
    else SimplifyLoop(simplify, cfg.maxPoints, shp, cfg.tolerance.value, SimplifyAttempts)
  }

  /** `tol` doubled `k` times. */
  function Doubled(tol: real, k: nat): real
    decreases k
  {
    if k == 0 then tol else Doubled(tol * 2.0, k - 1)
  }

  /** The tolerances passed to the library are the starting one doubled
      once per iteration. */
  lemma {:induction false} SimplifyLoopTolerances(simplify: (Shape, real) -> Shape, maxPoints: Option<nat>,
                                                  current: Shape, tol: real, remaining: nat)
    ensures var run := SimplifyLoop(simplify, maxPoints, current, tol, remaining);
      forall k :: 0 <= k < |run.tolerances| ==> run.tolerances[k] == Doubled(tol, k)
    decreases remaining
  {
    if remaining > 0 {
      var candidate := simplify(current, tol);
      if !IsEmpty(candidate) && !(maxPoints.None? || CountPoints(Some(candidate)) <= maxPoints.value) {
        SimplifyLoopTolerances(simplify, maxPoints, candidate, tol * 2.0, remaining - 1);
      }
    }
  }

  /** A non-empty shape never simplifies to an empty one: an empty
      candidate is discarded. */
  lemma {:induction false} SimplifyLoopNonEmpty(simplify: (Shape, real) -> Shape, maxPoints: Option<nat>,
                                                current: Shape, tol: real, remaining: nat)
    requires !IsEmpty(current)
    ensures !IsEmpty(SimplifyLoop(simplify, maxPoints, current, tol, remaining).result)
    decreases remaining
  {
    if remaining > 0 {
      var candidate := simplify(current, tol);
      if !IsEmpty(candidate) && !(maxPoints.None? || CountPoints(Some(candidate)) <= maxPoints.value) {
        SimplifyLoopNonEmpty(simplify, maxPoints, candidate, tol * 2.0, remaining - 1);
      }
    }
  }

  /** The loop stops before its last iteration only when a simplification
      came back empty or the result fits within the point budget. */
  lemma {:induction false} SimplifyLoopEarlyStop(simplify: (Shape, real) -> Shape, maxPoints: Option<nat>,
                                                 current: Shape, tol: real, remaining: nat)
    ensures var run := SimplifyLoop(simplify, maxPoints, current, tol, remaining);
      |run.tolerances| < remaining && !run.collapsed ==>
        maxPoints.None? || CountPoints(Some(run.result)) <= maxPoints.value
    decreases remaining
  {
    if remaining > 0 {
      var candidate := simplify(current, tol);
      if !IsEmpty(candidate) && !(maxPoints.None? || CountPoints(Some(candidate)) <= maxPoints.value) {
        SimplifyLoopEarlyStop(simplify, maxPoints, candidate, tol * 2.0, remaining - 1);
      }
    }
  }

  /** With simplification switched off or no tolerance, the shape comes back
      unchanged and the library is never called. */
  lemma SimplificationDisabled(shp: Shape, cfg: SimplifyConfig, simplify: (Shape, real) -> Shape)
    requires !cfg.enabled || cfg.tolerance.None?
    ensures Simplification(shp, cfg, simplify) == SimplifyRun(shp, [], false)
  {
  }

  /** One iteration of the loop, from the outside. */
  lemma SimplifyLoopUnfold(simplify: (Shape, real) -> Shape, maxPoints: Option<nat>,
                           current: Shape, tol: real, remaining: nat)
    requires remaining > 0
    ensures var candidate := simplify(current, tol);
      var r := SimplifyLoop(simplify, maxPoints, current, tol, remaining).result;
      && (IsEmpty(candidate) ==> r == current)
      && (!IsEmpty(candidate) && (maxPoints.None? || CountPoints(Some(candidate)) <= maxPoints.value) ==>
            r == candidate)
      && (!IsEmpty(candidate) && !(maxPoints.None? || CountPoints(Some(candidate)) <= maxPoints.value) ==>
            r == SimplifyLoop(simplify, maxPoints, candidate, tol * 2.0, remaining - 1).result)
  {
  }

  /** `_simplify_shape`: at most ten calls to the library, the tolerance
      doubling each time, stopping at the first result within MAX_POINTS or
      before a result that is empty. */
  method SimplifyShape(shp: Shape, cfg: SimplifyConfig, simplify: (Shape, real) -> Shape)
    returns (r: Shape)
    ensures r == Simplification(shp, cfg, simplify).result
    ensures !IsEmpty(shp) ==> !IsEmpty(r)
  {
    if !cfg.enabled {
      return shp;
    }
    if cfg.tolerance.None? {
      return shp;
    }
    if !IsEmpty(shp) {
      SimplifyLoopNonEmpty(simplify, cfg.maxPoints, shp, cfg.tolerance.value, SimplifyAttempts);
    }
    r := SimplifyRepeatedly(simplify, cfg.maxPoints, shp, cfg.tolerance.value);
  }

  /** The loop of `_simplify_shape`: simplify with the tolerance, give the
      previous shape back if the result is empty, stop at a result within
      the point budget, otherwise double the tolerance and go on. */
  method SimplifyRepeatedly(simplify: (Shape, real) -> Shape, maxPoints: Option<nat>, shp: Shape, tolerance: real)
    returns (r: Shape)
    ensures r == SimplifyLoop(simplify, maxPoints, shp, tolerance, SimplifyAttempts).result
  {
    var tol := tolerance;
    var simplified := shp;
    var i := 0;
    while i < SimplifyAttempts
      invariant 0 <= i <= SimplifyAttempts
      invariant SimplifyLoop(simplify, maxPoints, shp, tolerance, SimplifyAttempts).result
        == SimplifyLoop(simplify, maxPoints, simplified, tol, SimplifyAttempts - i).result
    {
      SimplifyLoopUnfold(simplify, maxPoints, simplified, tol, SimplifyAttempts - i);
      var candidate := simplify(simplified, tol);
      if IsEmpty(candidate) {
        return simplified;
      }
      simplified := candidate;
      if maxPoints.None? || CountPoints(Some(simplified)) <= maxPoints.value {
        return simplified;
      }
      tol := tol * 2.0;
      i := i + 1;
    }
    return simplified;
  }

  /** Whether the unsimplified rings of a shape are sent as they are: only
      when simplification is on with a point budget, and they fit in it. */
  predicate WithinBudget(shp: Shape, cfg: SimplifyConfig) {
    cfg.enabled && cfg.maxPoints.Some? && ZonesOf(shp).Some?
    && ZonesPointCount(ZonesOf(shp).value) <= cfg.maxPoints.value
  }

  /** The zone payload of a shape: none for no shape or an empty one; the
      unsimplified rings when they fit the budget; otherwise the rings of
      the simplified shape. */
  function GbZones(shp: Option<Shape>, cfg: SimplifyConfig, simplify: (Shape, real) -> Shape)
    : (zones: Option<seq<Zone>>)
    ensures zones.Some? ==> WellFormed(zones.value)
  {
    if shp.None? || IsEmpty(shp.value) then None
    else if WithinBudget(shp.value, cfg) then
      ZonesOfWellFormed(shp.value);
      ZonesOf(shp.value)
    else
      var simplified := Simplification(shp.value, cfg, simplify).result;
      ZonesOfWellFormed(simplified);
      ZonesOf(simplified)
  }

  /** `shapely_to_goodbarber_zones`: no payload for no shape or an empty
      one; the unsimplified rings when they already fit within MAX_POINTS;
      otherwise the rings of the simplified shape. */
  method ShapeToGbZones(shp: Option<Shape>, cfg: SimplifyConfig, simplify: (Shape, real) -> Shape)
    returns (zones: Option<seq<Zone>>)
    ensures zones == GbZones(shp, cfg, simplify)
    ensures shp.None? || IsEmpty(shp.value) ==> zones.None?
    ensures shp.Some? && !IsEmpty(shp.value) && WithinBudget(shp.value, cfg) ==> zones == ZonesOf(shp.value)
    ensures shp.Some? && !IsEmpty(shp.value) && !WithinBudget(shp.value, cfg) ==>
      zones == ZonesOf(Simplification(shp.value, cfg, simplify).result)
    ensures zones.Some? ==> WellFormed(zones.value)
  {
    if shp.None? || IsEmpty(shp.value) {
      return None;
    }
    if cfg.enabled && cfg.maxPoints.Some? {
      zones := ShapeToZones(shp.value);
      if zones.Some? && ZonesPointCount(zones.value) <= cfg.maxPoints.value {
        ZonesOfWellFormed(shp.value);
        return zones;
      }
    }
    var simplified := SimplifyShape(shp.value, cfg, simplify);
    zones := ShapeToZones(simplified);
    ZonesOfWellFormed(simplified);
  }
}
