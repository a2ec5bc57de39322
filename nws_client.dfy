/** The alert-feed client: conditional GETs, and the collection of the
    polygon geometries that describe one alert, from the alert itself and
    from its affected zones. */
module NwsClient {
  import opened Wrappers
  import opened Http
  import opened GeoJson

  /** The feed's transport: what a GET of a request returns, its body
      decoded as JSON (None when the body is not JSON). */
  type Transport = Request -> Outcome<Option<Document>>

  const NwsHeaders: map<string, string> := map[
    "User-Agent" := "nws-goodbarber-poc/0.1 (contact: you@example.com)",
    "Accept" := "application/geo+json,application/json;q=0.9"]

  const IfNoneMatch := "If-None-Match"
  const IfModifiedSince := "If-Modified-Since"

  /** What `fetch_json` returns: "no change" with the caller's own
      validators, a document with the response's validators, or an error
      (the exceptions the source raises). */
  datatype FetchResult =
    | NotModified(etag: string, lastModified: string)
    | Fetched(document: Document, etag: string, lastModified: string)
    | FetchError

  /** The headers a conditional GET sends: a copy of the caller's headers
      plus each validator that is known (sections 13.1.2 and 13.1.3 of
      RFC 9110). Every other header passes through as it was. */
  function WithValidators(headers: map<string, string>, etag: string, lastModified: string)
    : (h: map<string, string>)
    ensures etag != "" ==> IfNoneMatch in h && h[IfNoneMatch] == etag
    ensures lastModified != "" ==> IfModifiedSince in h && h[IfModifiedSince] == lastModified
    ensures etag == "" ==> (IfNoneMatch in h <==> IfNoneMatch in headers)
    ensures etag == "" && IfNoneMatch in headers ==> h[IfNoneMatch] == headers[IfNoneMatch]
    ensures lastModified == "" ==> (IfModifiedSince in h <==> IfModifiedSince in headers)
    ensures lastModified == "" && IfModifiedSince in headers ==>
      h[IfModifiedSince] == headers[IfModifiedSince]
    ensures forall k :: k != IfNoneMatch && k != IfModifiedSince ==>
      (k in h <==> k in headers) && (k in h ==> h[k] == headers[k])
  {
    var withEtag := if etag != "" then headers[IfNoneMatch := etag] else headers;
    if lastModified != "" then withEtag[IfModifiedSince := lastModified] else withEtag
  }

  /** How `fetch_json` reads what came back: 304 (section 15.4.5 of
      RFC 9110) hands back the caller's validators and no document; a
      4xx/5xx status, a body that is not JSON or a failed request is an
      error; anything else is the document with the response's validators. */
  function Interpret(o: Outcome<Option<Document>>, etag: string, lastModified: string)
    : (r: FetchResult)
    ensures r.NotModified? <==> o.Answered? && o.response.status == 304
    ensures r.NotModified? ==> r.etag == etag && r.lastModified == lastModified
    ensures r.Fetched? <==>
      (o.Answered? && o.response.status != 304
       && !IsErrorStatus(o.response.status) && o.response.body.Some?)
    ensures r.Fetched? ==>
      (r.document == o.response.body.value
       && r.etag == Header(o.response, "ETag")
       && r.lastModified == Header(o.response, "Last-Modified"))
  {
    match o
    case Answered(resp) =>
      if resp.status == 304 then NotModified(etag, lastModified)
      else if IsErrorStatus(resp.status) || resp.body.None? then FetchError
      else Fetched(resp.body.value, Header(resp, "ETag"), Header(resp, "Last-Modified"))
    case TimedOut => FetchError
    case Failed => FetchError
  }

  /** The request `fetch_json` sends. */
  function FetchRequest(url: string, params: Option<map<string, string>>,
                        headers: map<string, string>, etag: string, lastModified: string): Request
  {
    Request(Get, url, params, WithValidators(headers, etag, lastModified), map[])
  }

  /** The result of `fetch_json` as a function of its inputs. */
  function Fetch(get: Transport, url: string, params: Option<map<string, string>>,
                 headers: map<string, string>, etag: string, lastModified: string): FetchResult
  {
    Interpret(get(FetchRequest(url, params, headers, etag, lastModified)), etag, lastModified)
  }

  /** `fetch_json`: copy the headers, add the known validators, send, read
      the answer. */
  method FetchJson(get: Transport, url: string, params: Option<map<string, string>>,
                   headers: map<string, string>, etag: string, lastModified: string)
    returns (r: FetchResult)
    ensures r == Fetch(get, url, params, headers, etag, lastModified)
  {
    var h := headers;
    if etag != "" {
      h := h[IfNoneMatch := etag];
    }
    if lastModified != "" {
      h := h[IfModifiedSince := lastModified];
    }
    var outcome := get(Request(Get, url, params, h, map[]));
    if outcome.Answered? && outcome.response.status == 304 {
      return NotModified(etag, lastModified);
    }
    if !outcome.Answered? || IsErrorStatus(outcome.response.status) || outcome.response.body.None? {
      return FetchError;
    }
    var resp := outcome.response;
    r := Fetched(resp.body.value, Header(resp, "ETag"), Header(resp, "Last-Modified"));
  }

  /** `collect_alert_geometries`: the feature's own geometry when it is a
      Polygon or MultiPolygon, and nothing otherwise. */
  function AlertGeometries(f: Feature): (r: seq<Geometry>)
    ensures |r| == 1 <==> HasPolygonal(f.geometry)
    ensures |r| <= 1
    ensures forall g :: g in r ==> IsPolygonal(g) && f.geometry == Some(g)
  {
    if HasPolygonal(f.geometry) then [f.geometry.value] else []
  }

  /** The polygon geometries of a feature collection's members, in member
      order. */
  function PolygonalOf(features: seq<Feature>): (r: seq<Geometry>)
    ensures |r| <= |features|
    ensures forall g :: g in r ==> IsPolygonal(g)
    ensures forall i :: 0 <= i < |features| && HasPolygonal(features[i].geometry) ==>
      features[i].geometry.value in r
    ensures forall g :: g in r ==> exists i :: 0 <= i < |features| && features[i].geometry == Some(g)
  {
    if features == [] then []
    else
      var last := features[|features| - 1];
      var r := PolygonalOf(features[..|features| - 1]) + AlertGeometries(last);
      assert forall i :: 0 <= i < |features| - 1 ==> features[..|features| - 1][i] == features[i];
      r
  }

  /** Collecting from two runs of features one after the other gives the
      first run's geometries followed by the second's. */
  lemma {:induction false} PolygonalOfConcat(a: seq<Feature>, b: seq<Feature>)
    ensures PolygonalOf(a + b) == PolygonalOf(a) + PolygonalOf(b)
    decreases |b|
  {
    if b != [] {
      var b' := b[..|b| - 1];
      assert (a + b)[..|a + b| - 1] == a + b';
      PolygonalOfConcat(a, b');
    } else {
      assert a + b == a;
    }
  }

  /** `_collect_from_feature_collection`. */
  method CollectFromFeatureCollection(features: seq<Feature>) returns (geoms: seq<Geometry>)
    ensures geoms == PolygonalOf(features)
  {
    geoms := [];
    for i := 0 to |features|
      invariant geoms == PolygonalOf(features[..i])
    {
      assert features[..i + 1][..i] == features[..i];
      var feat := features[i];
      if HasPolygonal(feat.geometry) {
        geoms := geoms + [feat.geometry.value];
      }
    }
    assert features[..|features|] == features;
  }

  /** The GET of one zone URL: the feed headers and no validators. */
  function ZoneFetch(get: Transport, url: string): FetchResult {
    Fetch(get, url, None, NwsHeaders, "", "")
  }

  /** What one zone URL adds: its own geometry when that is a polygon, else
      the polygons of its member features; nothing for a failed fetch, a
      304 or an empty document. */
  function ZoneContribution(r: FetchResult): (geoms: seq<Geometry>)
    ensures !r.Fetched? || r.document.EmptyDocument? ==> geoms == []
    ensures r.Fetched? && r.document.Document? && HasPolygonal(r.document.geometry) ==>
      geoms == [r.document.geometry.value]
    ensures r.Fetched? && r.document.Document? && !HasPolygonal(r.document.geometry) ==>
      geoms == PolygonalOf(r.document.features)
    ensures forall g :: g in geoms ==> IsPolygonal(g)
  {
    match r
    case Fetched(Document(geometry, features, _), _, _) =>
      if HasPolygonal(geometry) then [geometry.value] else PolygonalOf(features)
    case _ => []
  }

  /** The geometries of a list of zone URLs, each URL's in turn. */
  function ZoneGeometries(get: Transport, urls: seq<string>): (r: seq<Geometry>)
    ensures forall g :: g in r ==> IsPolygonal(g)
  {
    if urls == [] then []
    else
      ZoneGeometries(get, urls[..|urls| - 1]) + ZoneContribution(ZoneFetch(get, urls[|urls| - 1]))
  }

  /** Zone URLs contribute independently and in order: a URL that fails
      adds nothing and does not stop the ones after it. */
  lemma {:induction false} ZoneGeometriesConcat(get: Transport, a: seq<string>, b: seq<string>)
    ensures ZoneGeometries(get, a + b) == ZoneGeometries(get, a) + ZoneGeometries(get, b)
    decreases |b|
  {
    if b != [] {
      var b' := b[..|b| - 1];
      assert (a + b)[..|a + b| - 1] == a + b';
      assert (a + b)[|a + b| - 1] == b[|b| - 1];
      ZoneGeometriesConcat(get, a, b');
    } else {
      assert a + b == a;
    }
  }

  /** `collect_zone_geometries`: fetch each zone URL in turn, swallowing
      failures. */
  method CollectZoneGeometries(get: Transport, affectedZones: seq<string>) returns (geoms: seq<Geometry>)
    ensures geoms == ZoneGeometries(get, affectedZones)
  {
    geoms := [];
    for i := 0 to |affectedZones|
      invariant geoms == ZoneGeometries(get, affectedZones[..i])
    {
      assert affectedZones[..i + 1][..i] == affectedZones[..i];
      var zdata := FetchJson(get, affectedZones[i], None, NwsHeaders, "", "");
      if !zdata.Fetched? || zdata.document.EmptyDocument? {
        continue;
      }
      var geom := zdata.document.geometry;
      if HasPolygonal(geom) {
        geoms := geoms + [geom.value];
        continue;
      }
      var more := CollectFromFeatureCollection(zdata.document.features);
      geoms := geoms + more;
    }
    assert affectedZones[..|affectedZones|] == affectedZones;
  }

  const AlertGeometrySource := "alert.geometry"
  const AffectedZonesSource := "affectedZones"

  /** The source tags of `nAlert` alert polygons followed by `nZones`
      zone polygons. */
  function SourceTags(nAlert: nat, nZones: nat): (tags: seq<string>)
    ensures |tags| == nAlert + nZones
    ensures forall i :: 0 <= i < |tags| ==>
      tags[i] == if i < nAlert then AlertGeometrySource else AffectedZonesSource
  {
    seq(nAlert, _ => AlertGeometrySource) + seq(nZones, _ => AffectedZonesSource)
  }

  /** The polygons chosen for an alert: its own first, then its zones'. */
  function ChosenGeometries(get: Transport, alert: Feature): (r: seq<Geometry>)
    ensures forall g :: g in r ==> IsPolygonal(g)
    ensures !HasPolygonal(alert.geometry) && alert.properties.affectedZones == [] ==> r == []
    ensures |AlertGeometries(alert)| <= |r| && r[..|AlertGeometries(alert)|] == AlertGeometries(alert)
  {
    AlertGeometries(alert) + ZoneGeometries(get, alert.properties.affectedZones)
  }

  /** `choose_geometries_for_alert`: the alert's own polygon first, tagged
      "alert.geometry", then every zone polygon, tagged "affectedZones". */
  method ChooseGeometriesForAlert(get: Transport, alert: Feature)
    returns (sources: seq<string>, geoms: seq<Geometry>)
    ensures |sources| == |geoms|
    ensures geoms == ChosenGeometries(get, alert)
    ensures geoms == AlertGeometries(alert) + ZoneGeometries(get, alert.properties.affectedZones)
    ensures forall i :: 0 <= i < |sources| ==>
      sources[i] == if i < |AlertGeometries(alert)| then AlertGeometrySource else AffectedZonesSource
    ensures forall g :: g in geoms ==> IsPolygonal(g)
  {
    sources := [];
    geoms := [];
    var alertGeoms := AlertGeometries(alert);
    if alertGeoms != [] {
      sources := sources + seq(|alertGeoms|, _ => AlertGeometrySource);
      geoms := geoms + alertGeoms;
    }
    assert sources == SourceTags(|alertGeoms|, 0) && geoms == alertGeoms;
    var zoneGeoms := CollectZoneGeometries(get, alert.properties.affectedZones);
    if zoneGeoms != [] {
      sources := sources + seq(|zoneGeoms|, _ => AffectedZonesSource);
      geoms := geoms + zoneGeoms;
    }
    assert sources == SourceTags(|alertGeoms|, |zoneGeoms|) && geoms == alertGeoms + zoneGeoms;
  }
}
