/** The parts of the alert feed's GeoJSON documents the pipeline reads.
    Absent or null string properties are the empty string, since the
    pipeline only ever tests them for truth. */
module GeoJson {
  import opened Wrappers

  /** A GeoJSON position, in the order the format uses: longitude first. */
  datatype Position = Position(lon: real, lat: real)

  /** A geometry; the constructor stands for the `type` member. Polygons
      carry their linear rings (outer ring first), as in sections 3.1.6 and
      3.1.7 of RFC 7946. */
  datatype Geometry =
    | Polygon(rings: seq<seq<Position>>)
    | MultiPolygon(polygons: seq<seq<seq<Position>>>)
    | OtherGeometry(typeName: string)

  /** `geom.get("type") in ("Polygon", "MultiPolygon")`. */
  predicate IsPolygonal(g: Geometry) {
    g.Polygon? || g.MultiPolygon?
  }

  /** The same test applied to `feature.get("geometry") or {}`. */
  predicate HasPolygonal(g: Option<Geometry>) {
    g.Some? && IsPolygonal(g.value)
  }

  datatype Properties = Properties(
    id: string,
    event: string,
    headline: string,
    messageType: string,
    affectedZones: seq<string>)

  datatype Feature = Feature(id: string, geometry: Option<Geometry>, properties: Properties)

  /** A decoded JSON document: the empty object, or an object with the
      members the pipeline reads (a zone's `geometry`, a collection's
      `features`, the feed's `pagination.next`). */
  datatype Document =
    | EmptyDocument
    | Document(geometry: Option<Geometry>, features: seq<Feature>, next: string)

  /** `props.get("id") or f.get("id")`, with "" for no id. */
  function AlertId(f: Feature): string {
    if f.properties.id != "" then f.properties.id else f.id
  }

  /** `props.get("event") or "Alert"`. */
  function EventOf(f: Feature): (e: string)
    ensures e != ""
  {
    if f.properties.event != "" then f.properties.event else "Alert"
  }

  /** The ids that appear in a list of features. */
  function IdsOf(features: seq<Feature>): (ids: set<string>)
    ensures "" !in ids
    ensures forall f :: f in features && AlertId(f) != "" ==> AlertId(f) in ids
  {
    if features == [] then {}
    else
      var f := features[|features| - 1];
      assert forall g :: g in features ==> g in features[..|features| - 1] || g == f;
      IdsOf(features[..|features| - 1]) + (if AlertId(f) != "" then {AlertId(f)} else {})
  }

  /** Every id collected is the id of one of the features. */
  lemma {:induction false} IdsOfAreFeatureIds(features: seq<Feature>)
    ensures forall id :: id in IdsOf(features) ==> exists f :: f in features && AlertId(f) == id
    decreases |features|
  {
    if features != [] {
      var init := features[..|features| - 1];
      IdsOfAreFeatureIds(init);
      forall id | id in IdsOf(features) ensures exists f :: f in features && AlertId(f) == id {
        if id in IdsOf(init) {
          var f :| f in init && AlertId(f) == id;
          assert f in features;
        } else {
          assert AlertId(features[|features| - 1]) == id;
        }
      }
    }
  }

  /** `data.get("features", [])`. */
  function FeaturesOf(doc: Document): seq<Feature> {
    if doc.Document? then doc.features else []
  }

  /** The ids of two runs of features are those of each run. */
  lemma {:induction false} IdsOfConcat(a: seq<Feature>, b: seq<Feature>)
    ensures IdsOf(a + b) == IdsOf(a) + IdsOf(b)
    decreases |b|
  {
    if b == [] {
      assert a + b == a;
    } else {
      var b' := b[..|b| - 1];
      assert (a + b)[..|a + b| - 1] == a + b';
      IdsOfConcat(a, b');
    }
  }
}
