/** The first version of the poller, a single script: per-state polling
    with conditional requests, an in-memory set of seen ids, and its own
    polygon shrinker (Ramer-Douglas-Peucker with a stride fallback) that
    brings one outer ring down to at most about twenty points. */
module Legacy {
  import opened Wrappers
  import opened Text
  import opened GeoJson
  import opened NwsClient
  import Zones
  import Formatter

  // ---------------------------------------------------------------------
  // Ramer-Douglas-Peucker

  type NonNegReal = r: real | r >= 0.0

  /** `perp_dist`: the distance from a point to the segment between two
      others (a hypotenuse, so never negative), left abstract. The
      arguments are the point, then the segment's ends. */
  type Distance = (Position, Position, Position) -> NonNegReal

  /** The distance of interior point `i` from the chord of `points`. */
  function ChordDistance(points: seq<Position>, dist: Distance, i: nat): real
    requires 0 < |points| && i < |points|
  {
    dist(points[i], points[0], points[|points| - 1])
  }

  /** The scan for the interior point farthest from the chord; on a tie
      the first such point wins. */
  method FarthestPoint(points: seq<Position>, dist: Distance) returns (idx: nat, maxDist: real)
    requires |points| >= 3
    ensures 1 <= idx <= |points| - 2
    ensures maxDist == ChordDistance(points, dist, idx)
    ensures forall i :: 1 <= i <= |points| - 2 ==> ChordDistance(points, dist, i) <= maxDist
    ensures forall i :: 1 <= i < idx ==> ChordDistance(points, dist, i) < maxDist
  {
    maxDist := -1.0;
    idx := 0;
    for i := 1 to |points| - 1
      invariant i == 1 ==> idx == 0 && maxDist == -1.0
      invariant i > 1 ==> 1 <= idx < i && maxDist == ChordDistance(points, dist, idx)
      invariant forall k :: 1 <= k < i ==> ChordDistance(points, dist, k) <= maxDist
      invariant forall k :: 1 <= k < idx ==> ChordDistance(points, dist, k) < maxDist
    {
      var d := dist(points[i], points[0], points[|points| - 1]);
      if d > maxDist {
        maxDist := d;
        idx := i;
      }
    }
  }

  /** `kept` lists, in increasing order, the positions in `points` of the
      points of `r`; when `points` has two or more points, its first and
      last are among them. */
  ghost predicate Keeps(points: seq<Position>, r: seq<Position>, kept: seq<nat>) {
    && |kept| == |r|
    && (forall k :: 0 <= k < |kept| ==> kept[k] < |points| && r[k] == points[kept[k]])
    && (forall k :: 0 <= k < |kept| - 1 ==> kept[k] < kept[k + 1])
    && (|points| >= 2 ==> |kept| >= 2 && kept[0] == 0 && kept[|kept| - 1] == |points| - 1)
  }

  function Shift(kept: seq<nat>, offset: nat): (r: seq<nat>)
    ensures |r| == |kept|
    ensures forall k :: 0 <= k < |r| ==> r[k] == kept[k] + offset
  {
    seq(|kept|, k requires 0 <= k < |kept| => kept[k] + offset)
  }

  /** The pieces of the two recursive calls, the shared split point
      dropped from the left one, keep the points they kept. */
  lemma KeepsJoin(points: seq<Position>, idx: nat,
                  left: seq<Position>, lk: seq<nat>, right: seq<Position>, rk: seq<nat>)
    requires 1 <= idx <= |points| - 2
    requires Keeps(points[..idx + 1], left, lk)
    requires Keeps(points[idx..], right, rk)
    ensures Keeps(points, left[..|left| - 1] + right, lk[..|lk| - 1] + Shift(rk, idx))
  {
    var r := left[..|left| - 1] + right;
    var kept := lk[..|lk| - 1] + Shift(rk, idx);
    var m := |lk| - 1;
    assert lk[m] == idx;
    forall k | 0 <= k < |kept|
      ensures kept[k] < |points| && r[k] == points[kept[k]]
    {
      if k < m {
        assert kept[k] == lk[k] && r[k] == left[k];
      } else {
        assert kept[k] == rk[k - m] + idx && r[k] == right[k - m];
      }
    }
    forall k | 0 <= k < |kept| - 1
      ensures kept[k] < kept[k + 1]
    {
      if k + 1 < m {
        assert kept[k] == lk[k] && kept[k + 1] == lk[k + 1];
      } else if k + 1 == m {
        assert kept[k] == lk[k] && lk[k] < lk[m];
        assert kept[k + 1] == rk[0] + idx;
      } else {
        assert kept[k] == rk[k - m] + idx && kept[k + 1] == rk[k + 1 - m] + idx;
      }
    }
  }

  /** `rdp`: with fewer than three points, the points themselves;
      otherwise split at the farthest interior point when it lies farther
      than `epsilon` from the chord, else keep only the two ends. The
      result is a subsequence of the input that keeps both ends. */
  method Rdp(points: seq<Position>, epsilon: real, dist: Distance)
    returns (r: seq<Position>, ghost kept: seq<nat>)
    ensures |points| < 3 ==> r == points
    ensures |r| <= |points|
    ensures Keeps(points, r, kept)
    ensures |points| >= 3 && (forall i :: 1 <= i <= |points| - 2 ==> ChordDistance(points, dist, i) <= epsilon) ==>
      r == [points[0], points[|points| - 1]]
    ensures |points| >= 3 && (exists i :: 1 <= i <= |points| - 2 && ChordDistance(points, dist, i) > epsilon) ==>
      |r| >= 3
    decreases |points|
  {
    if |points| < 3 {
      return points, seq(|points|, k requires 0 <= k < |points| => k);
    }
    var idx, maxDist := FarthestPoint(points, dist);
    if maxDist > epsilon {
      var left, lk := Rdp(points[..idx + 1], epsilon, dist);
      var right, rk := Rdp(points[idx..], epsilon, dist);
      KeepsJoin(points, idx, left, lk, right, rk);
      r := left[..|left| - 1] + right;
      kept := lk[..|lk| - 1] + Shift(rk, idx);
    } else {
      r := [points[0], points[|points| - 1]];
      kept := [0, |points| - 1];
    }
  }

  // ---------------------------------------------------------------------
  // Shrinking a ring

  predicate Closed(ring: seq<Position>) {
    |ring| > 0 && ring[0] == ring[|ring| - 1]
  }

  /** Append the first point when the last differs from it. */
  function Close(ring: seq<Position>): (r: seq<Position>)
    requires |ring| > 0
    ensures Closed(r)
    ensures Closed(ring) ==> r == ring
    ensures |r| <= |ring| + 1
    ensures forall p :: p in r <==> p in ring
  {
    if ring[0] != ring[|ring| - 1] then ring + [ring[0]] else ring
  }

  /** `s[::step]`: every `step`-th point from the first. */
  function Stride(s: seq<Position>, step: nat): (r: seq<Position>)
    requires step >= 1
    ensures |s| > 0 ==> |r| > 0 && r[0] == s[0]
    ensures (|r| - 1) * step < |s| || s == []
    ensures forall p :: p in r ==> p in s
    decreases |s|
  {
    if s == [] then []
    else if step < |s| then
      var rest := Stride(s[step..], step);
      assert forall p :: p in rest ==> p in s;
      [s[0]] + rest
    else [s[0]]
  }

  /** With `step` the ceiling of `n / m`, a stride over `n` points keeps
      at most `m` of them. */
  lemma StrideBound(n: nat, m: nat, step: nat, count: nat)
    requires n > m >= 1
    requires step == (n + m - 1) / m
    requires count >= 1 && (count - 1) * step < n
    ensures step >= 1
    ensures count <= m
  {
    var q := step;
    assert n + m - 1 == q * m + (n + m - 1) % m;
    assert q * m >= n;
    if count > m {
      assert (count - 1) * q >= m * q by {
        MulMonotone(m, count - 1, q);
      }
    }
  }

  lemma MulMonotone(a: nat, b: nat, c: nat)
    requires a <= b
    ensures a * c <= b * c
  {
    assert b * c == a * c + (b - a) * c;
  }

  const InitialEpsilon: real := 0.001
  const FirstRounds := 30
  const SecondRounds := 12

  /** `shrink_ring_to_max`: close the ring, then raise a tolerance by 1.7
      for up to 30 rounds until `rdp` brings it to `maxPoints`, keeping
      the shortest result; failing that, keep every ceil(n / maxPoints)-th
      point and close again; then, when `preferredPoints` is set and not
      met, try 12 more rounds at 1.4 times the tolerance, taking only
      results within `maxPoints` that are shorter. `afterStride` is the
      ring at the end of the first two phases. */
  method ShrinkRingToMax(pointsLonLat: seq<Position>, maxPoints: nat, preferredPoints: nat, dist: Distance)
    returns (best: seq<Position>, epsilon: real, ghost afterStride: seq<Position>, ghost rdpCalls: nat)
    requires |pointsLonLat| > 0 && maxPoints >= 1
    ensures Closed(best)
    ensures forall p :: p in best ==> p in pointsLonLat
    ensures |best| <= |afterStride| <= maxPoints + 1
    ensures |afterStride| <= |Close(pointsLonLat)|
    ensures best != afterStride ==> |best| <= maxPoints && |best| < |afterStride|
    ensures epsilon >= InitialEpsilon
    ensures rdpCalls <= FirstRounds + SecondRounds
  {
    var ring := Close(pointsLonLat);
    epsilon := InitialEpsilon;
    best := ring;
    rdpCalls := 0;
    for round := 0 to FirstRounds
      invariant Closed(best) && |best| <= |ring|
      invariant forall p :: p in best ==> p in ring
      invariant epsilon >= InitialEpsilon
      invariant rdpCalls == round
    {
      var simplified := RdpClosed(ring, epsilon, dist);
      rdpCalls := rdpCalls + 1;
      if |simplified| < |best| {
        best := simplified;
      }
      if |simplified| <= maxPoints {
        best := simplified;
        break;
      }
      epsilon := epsilon * 1.7;
    }
    if |best| > maxPoints {
      var step := (|best| + maxPoints - 1) / maxPoints;
      StrideBound(|best|, maxPoints, (|best| + maxPoints - 1) / maxPoints, |Stride(best, step)|);
      best := Close(Stride(best, step));
    }
    afterStride := best;
    if preferredPoints > 0 && |best| > preferredPoints {
      var epsilon2 := epsilon;
      for round := 0 to SecondRounds
        invariant Closed(best) && |best| <= |afterStride|
        invariant forall p :: p in best ==> p in ring
        invariant best != afterStride ==> |best| <= maxPoints && |best| < |afterStride|
        invariant epsilon2 >= epsilon >= InitialEpsilon
        invariant rdpCalls <= FirstRounds + round
      {
        epsilon2 := epsilon2 * 1.4;
        var simplified2 := RdpClosed(ring, epsilon2, dist);
        rdpCalls := rdpCalls + 1;
        if |simplified2| <= maxPoints && |simplified2| < |best| {
          best := simplified2;
          epsilon := epsilon2;
        }
        if |best| <= preferredPoints {
          break;
        }
      }
    }
  }

  /** `rdp` over a closed ring followed by the shrinker's closing step:
      the ring's ends survive `rdp`, so nothing is appended. */
  method RdpClosed(ring: seq<Position>, epsilon: real, dist: Distance) returns (r: seq<Position>)
    requires Closed(ring)
    ensures Closed(r) && |r| <= |ring|
    ensures forall p :: p in r ==> p in ring
  {
    var s, kept := Rdp(ring, epsilon, dist);
    assert s[0] == ring[0] && s[|s| - 1] == ring[|ring| - 1] by {
      if |ring| >= 2 {
        assert s[0] == ring[kept[0]];
        assert s[|s| - 1] == ring[kept[|kept| - 1]];
      }
    }
    r := Close(s);
  }

  // ---------------------------------------------------------------------
  // Polygon conversion

  const MaxPoints := 20
  const PreferredPoints := 8

  /** Swap each (lon, lat) position into the payload's {lat, lng}. */
  function ToLatLng(ring: seq<Position>): (r: seq<Zones.LatLng>)
    ensures |r| == |ring|
    ensures forall k :: 0 <= k < |r| ==> r[k] == Zones.LatLng(ring[k].lat, ring[k].lon)
  {
    seq(|ring|, k requires 0 <= k < |ring| => Zones.LatLng(ring[k].lat, ring[k].lon))
  }

  /** The payload the dashboard takes, a list of rings: here the one
      shrunk ring. */
  function ZonesPayload(ring: seq<Position>): (zones: seq<Zones.Zone>)
    ensures |zones| == 1 && zones[0] == ToLatLng(ring)
    ensures Closed(ring) ==> Zones.WellFormed(zones)
  {
    [ToLatLng(ring)]
  }

  /** The payload as the conversion builds it: the list of points wrapped
      in two lists, one level deeper than a list of rings. */
  function LegacyPayload(ring: seq<Position>): seq<seq<Zones.Zone>> {
    [[ToLatLng(ring)]]
  }

  /** What the conversion sends is not a list of rings but a list holding
      the list of rings: its one element is the well-formed payload. */
  lemma LegacyPayloadNested(ring: seq<Position>)
    requires Closed(ring)
    ensures LegacyPayload(ring) == [ZonesPayload(ring)]
    ensures |LegacyPayload(ring)| == 1 && Zones.WellFormed(LegacyPayload(ring)[0])
  {
    assert Zones.Closed(ToLatLng(ring));
  }

  /** The payload as built, with the sizes before and after shrinking
      and the tolerance used. */
  datatype Conversion = Conversion(zones: seq<seq<Zones.Zone>>, originalN: nat, simplifiedN: nat, epsilon: real)

  /** Whether `geojson_polygon_to_goodbarber_zones` accepts a geometry: a
      Polygon whose outer ring has at least four positions. */
  predicate Convertible(geom: Option<Geometry>) {
    geom.Some? && geom.value.Polygon? && geom.value.rings != [] && |geom.value.rings[0]| >= 4
  }

  /** `geojson_polygon_to_goodbarber_zones`: shrink the outer ring of a
      Polygon to the legacy limits and swap its axes. `ring` is the
      shrunk ring. */
  method GeoJsonPolygonToZones(geom: Option<Geometry>, dist: Distance)
    returns (r: Option<Conversion>, ghost ring: seq<Position>)
    ensures r.Some? <==> Convertible(geom)
    ensures r.Some? ==>
      var outer := geom.value.rings[0];
      && r.value.originalN == |outer|
      && r.value.zones == LegacyPayload(ring)
      && r.value.simplifiedN == |ring| <= MaxPoints + 1
      && Closed(ring)
      && (forall p :: p in ring ==> p in outer)
      && r.value.epsilon >= InitialEpsilon
  {
    ring := [];
    if !Convertible(geom) {
      return None, [];
    }
    var outer := geom.value.rings[0];
    var best, eps, afterStride, calls := ShrinkRingToMax(outer, MaxPoints, PreferredPoints, dist);
    ring := best;
    r := Some(Conversion(LegacyPayload(best), |outer|, |best|, eps));
  }

  // ---------------------------------------------------------------------
  // The poller's memory of alerts

  const States: seq<string> := ["WY", "NM", "FL"]
  const AlertsUrl := "https://api.weather.gov/alerts/active"

  /** The features announced as new against a set of ids already seen:
      those with an id neither in the set nor earlier on the same page,
      in feed order. */
  function FirstSightings(seen: set<string>, features: seq<Feature>): (r: seq<Feature>)
    ensures |r| <= |features|
    ensures forall f :: f in r ==> f in features && AlertId(f) != "" && AlertId(f) !in seen
    decreases |features|
  {
    if features == [] then []
    else
      var f := features[0];
      if AlertId(f) != "" && AlertId(f) !in seen then [f] + FirstSightings(seen + {AlertId(f)}, features[1..])
      else FirstSightings(seen, features[1..])
  }

  predicate DistinctIds(fs: seq<Feature>) {
    forall i, j :: 0 <= i < j < |fs| ==> AlertId(fs[i]) != AlertId(fs[j])
  }

  lemma ConsDistinct(f: Feature, tail: seq<Feature>)
    requires DistinctIds(tail)
    requires forall g :: g in tail ==> AlertId(g) != AlertId(f)
    ensures DistinctIds([f] + tail)
  {
    var r := [f] + tail;
    forall i, j | 0 <= i < j < |r|
      ensures AlertId(r[i]) != AlertId(r[j])
    {
      if i == 0 {
        assert r[j] in tail;
      } else {
        assert r[i] == tail[i - 1] && r[j] == tail[j - 1];
      }
    }
  }

  /** The new features carry pairwise distinct ids. */
  lemma {:induction false} FirstSightingsDistinct(seen: set<string>, features: seq<Feature>)
    ensures DistinctIds(FirstSightings(seen, features))
    decreases |features|
  {
    if features != [] {
      var f := features[0];
      var rest := features[1..];
      if AlertId(f) != "" && AlertId(f) !in seen {
        var tail := FirstSightings(seen + {AlertId(f)}, rest);
        FirstSightingsDistinct(seen + {AlertId(f)}, rest);
        ConsDistinct(f, tail);
        assert FirstSightings(seen, features) == [f] + tail;
      } else {
        assert FirstSightings(seen, features) == FirstSightings(seen, rest);
        FirstSightingsDistinct(seen, rest);
      }
    }
  }

  /** Between them the new features carry exactly the page's ids that
      were not seen before. */
  lemma {:induction false} FirstSightingsIds(seen: set<string>, features: seq<Feature>)
    ensures IdsOf(FirstSightings(seen, features)) == IdsOf(features) - seen
    decreases |features|
  {
    if features != [] {
      var f := features[0];
      var rest := features[1..];
      assert features == [f] + rest;
      IdsOfConcat([f], rest);
      assert IdsOf([f]) == if AlertId(f) != "" then {AlertId(f)} else {};
      if AlertId(f) != "" && AlertId(f) !in seen {
        var tail := FirstSightings(seen + {AlertId(f)}, rest);
        FirstSightingsIds(seen + {AlertId(f)}, rest);
        IdsOfConcat([f], tail);
      } else {
        FirstSightingsIds(seen, rest);
      }
    }
  }

  /** The scan over a page, on values: an id joins the set on first sight,
      and the features whose id was new are kept in page order. */
  method ScanPage(seen: set<string>, features: seq<Feature>) returns (newFeatures: seq<Feature>, ids: set<string>)
    ensures newFeatures == FirstSightings(seen, features)
    ensures ids == seen + IdsOf(features)
  {
    ids := seen;
    newFeatures := [];
    for i := 0 to |features|
      invariant newFeatures + FirstSightings(ids, features[i..]) == FirstSightings(seen, features)
      invariant ids == seen + IdsOf(features[..i])
    {
      DedupStep(seen, ids, newFeatures, features, i);
      var f := features[i];
      var aid := AlertId(f);
      if aid != "" && aid !in ids {
        ids := ids + {aid};
        newFeatures := newFeatures + [f];
      }
    }
    assert features[..|features|] == features;
  }

  /** One step of the scan: the feature at `i` is announced exactly when
      its id is neither missing nor in the set, and its id joins the set. */
  lemma DedupStep(seen: set<string>, seenIds: set<string>, newFeatures: seq<Feature>,
                  features: seq<Feature>, i: nat)
    requires i < |features|
    requires newFeatures + FirstSightings(seenIds, features[i..]) == FirstSightings(seen, features)
    requires seenIds == seen + IdsOf(features[..i])
    ensures var aid := AlertId(features[i]);
      var isNew := aid != "" && aid !in seenIds;
      && (if isNew then newFeatures + [features[i]] else newFeatures)
           + FirstSightings(if isNew then seenIds + {aid} else seenIds, features[i + 1..])
         == FirstSightings(seen, features)
      && (if isNew then seenIds + {aid} else seenIds) == seen + IdsOf(features[..i + 1])
  {
    assert features[..i + 1][..i] == features[..i];
    assert features[i..][1..] == features[i + 1..];
    var aid := AlertId(features[i]);
    if aid != "" && aid !in seenIds {
      var rest := FirstSightings(seenIds + {aid}, features[i + 1..]);
      assert FirstSightings(seenIds, features[i..]) == [features[i]] + rest;
      assert newFeatures + ([features[i]] + rest) == (newFeatures + [features[i]]) + rest;
    }
  }

  /** The message: "event: headline", stripped, capped at 250
      characters. */
  function Message(f: Feature): (m: string)
    ensures |m| <= Formatter.MaxMessageLength
    ensures var raw := StripSpace(EventOf(f) + ": " + f.properties.headline);
      |raw| <= Formatter.MaxMessageLength ==> m == raw
  {
    Formatter.Truncate(StripSpace(EventOf(f) + ": " + f.properties.headline))
  }

  /** The script's state: the ids announced so far and each state's
      validators. */
  class LegacyPoller {
    var seenIds: set<string>
    var etags: map<string, string>
    var lastModified: map<string, string>

    constructor ()
      ensures seenIds == {}
      ensures etags == map s | s in States :: ""
      ensures lastModified == map s | s in States :: ""
    {
      seenIds := {};
      etags := map s | s in States :: "";
      lastModified := map s | s in States :: "";
    }

    /** The scan over a page: an id enters the set on first sight,
        whatever then becomes of the alert. */
    method Dedup(features: seq<Feature>) returns (newFeatures: seq<Feature>)
      modifies this
      ensures newFeatures == FirstSightings(old(seenIds), features)
      ensures seenIds == old(seenIds) + IdsOf(features)
      ensures etags == old(etags) && lastModified == old(lastModified)
    {
      var ids;
      newFeatures, ids := ScanPage(seenIds, features);
      seenIds := ids;
    }

    /** One state's poll: a conditional GET with the state's validators;
        a 304 changes nothing and an error is reported; otherwise the
        validators are replaced by the response's and the page's new
        features are returned. */
    method PollState(get: Transport, state: string) returns (newFeatures: seq<Feature>, failed: bool)
      modifies this
      ensures var r := Fetch(get, AlertsUrl, Some(map["area" := state]), NwsHeaders,
                             if state in old(etags) then old(etags)[state] else "",
                             if state in old(lastModified) then old(lastModified)[state] else "");
        && (failed <==> r.FetchError?)
        && (!r.Fetched? ==> newFeatures == [] && seenIds == old(seenIds))
        && (r.FetchError? ==> etags == old(etags) && lastModified == old(lastModified))
        && (r.NotModified? ==> etags == old(etags)[state := r.etag] && lastModified == old(lastModified)[state := r.lastModified])
        && (r.Fetched? ==>
              && etags == old(etags)[state := r.etag]
              && lastModified == old(lastModified)[state := r.lastModified]
              && newFeatures == FirstSightings(old(seenIds), FeaturesOf(r.document))
              && seenIds == old(seenIds) + IdsOf(FeaturesOf(r.document)))
    {
      var etag := if state in etags then etags[state] else "";
      var lm := if state in lastModified then lastModified[state] else "";
      var r := FetchJson(get, AlertsUrl, Some(map["area" := state]), NwsHeaders, etag, lm);
      if r.FetchError? {
        return [], true;
      }
      etags := etags[state := r.etag];
      lastModified := lastModified[state := r.lastModified];
      if r.NotModified? {
        return [], false;
      }
      newFeatures := Dedup(FeaturesOf(r.document));
      failed := false;
    }
  }
}
