/** The poller's main loop: walk the active-alert feed page by page, split
    each page into alerts already seen and new ones, and push each new
    alert's polygon and message to the dashboard, remembering the alerts
    that were delivered. Once a month the seen-alert ledger is pruned. */
module Service {
  import opened Wrappers
  import opened Http
  import opened GeoJson
  import opened Storage
  import opened NwsClient
  import opened Zones
  import opened Formatter
  import opened GoodBarber
  import DotEnv

  const NwsAlertsUrl := "https://api.weather.gov/alerts/active"
  const ActiveParams: map<string, string> := map["region_type" := "land", "message_type" := "alert"]
  const IgnoredEvents: seq<string> := ["Small Craft Advisory", "Special Marine Warning"]
  const PushesPerPause := 24
  const PruneAgeDays := 30
  const SecondsPerDay := 86400

  // ---------------------------------------------------------------------
  // The feed's pages

  /** `urljoin`: resolving a link against the URL of the page holding it. */
  type UrlJoin = (string, string) -> string

  /** One page of the feed: its index, its document, the URL it came from. */
  datatype Page = Page(index: nat, document: Document, url: string)

  /** What one resumption of the page generator does. */
  datatype PagerStep = Yielded(page: Page) | Finished | FetchRaised

  /** The query parameters go on the first request only; later pages are
      reached through links that already carry them. */
  function ParamsFor(index: nat): (p: Option<map<string, string>>)
    ensures p.Some? <==> index == 0
  {
    if index == 0 then Some(ActiveParams) else None
  }

  /** The GET of page `index` at `url`. */
  function PageRequest(url: string, index: nat): Request {
    FetchRequest(url, ParamsFor(index), NwsHeaders, "", "")
  }

  function PageFetch(get: Transport, url: string, index: nat): FetchResult {
    Fetch(get, url, ParamsFor(index), NwsHeaders, "", "")
  }

  /** The URLs of a list of requests. */
  function UrlsOf(sent: seq<Request>): set<string> {
    set i | 0 <= i < |sent| :: sent[i].url
  }

  /** What the page walk guarantees about the requests it has sent and
      the pages it has yielded: no URL is requested twice; the first
      request goes to the start URL and only it carries the query; pages
      are numbered consecutively from 0 and page `i` is the document
      request `i` brought back; each later request follows the previous
      page's `next` link resolved against that page's URL; at most one
      request (the one that ended the walk) yielded no page. */
  ghost predicate Walked(get: Transport, urljoin: UrlJoin, startUrl: string,
                         sent: seq<Request>, pages: seq<Page>)
  {
    && |pages| <= |sent| <= |pages| + 1
    && RequestsNumbered(startUrl, sent)
    && PagesFetched(get, sent, pages)
    && LinksFollowed(urljoin, sent, pages)
  }

  /** No URL is requested twice, request `i` carries the number `i`, and
      the first goes to the start URL. */
  ghost predicate RequestsNumbered(startUrl: string, sent: seq<Request>) {
    && (forall i, j :: 0 <= i < j < |sent| ==> sent[i].url != sent[j].url)
    && (forall i :: 0 <= i < |sent| ==> sent[i] == PageRequest(sent[i].url, i))
    && (|sent| > 0 ==> sent[0].url == startUrl)
  }

  /** Page `i` is the document that request `i` brought back. */
  ghost predicate PagesFetched(get: Transport, sent: seq<Request>, pages: seq<Page>)
    requires |pages| <= |sent|
  {
    forall i {:trigger pages[i]} :: 0 <= i < |pages| ==>
      && pages[i].index == i
      && pages[i].url == sent[i].url
      && pages[i].document.Document?
      && PageFetch(get, pages[i].url, i).Fetched?
      && PageFetch(get, pages[i].url, i).document == pages[i].document
  }

  /** Each request after the first follows the previous page's link. */
  ghost predicate LinksFollowed(urljoin: UrlJoin, sent: seq<Request>, pages: seq<Page>)
    requires |sent| <= |pages| + 1
  {
    forall i {:trigger pages[i]} :: 0 <= i < |sent| - 1 ==>
      && pages[i].document.Document?
      && pages[i].document.next != ""
      && sent[i + 1].url == urljoin(pages[i].url, pages[i].document.next)
  }

  lemma RequestsNumberedSnoc(startUrl: string, sent: seq<Request>, url: string)
    requires RequestsNumbered(startUrl, sent)
    requires url !in UrlsOf(sent)
    requires sent == [] ==> url == startUrl
    ensures RequestsNumbered(startUrl, sent + [PageRequest(url, |sent|)])
  {
    var sent' := sent + [PageRequest(url, |sent|)];
    assert forall i :: 0 <= i < |sent| ==> sent'[i] == sent[i];
    forall i, j | 0 <= i < j < |sent'|
      ensures sent'[i].url != sent'[j].url
    {
      if j == |sent| {
        assert sent[i].url in UrlsOf(sent);
      }
    }
  }

  lemma PagesFetchedSnoc(get: Transport, sent: seq<Request>, pages: seq<Page>, r: Request)
    requires |pages| <= |sent| && PagesFetched(get, sent, pages)
    ensures PagesFetched(get, sent + [r], pages)
  {
    var sent' := sent + [r];
    assert forall i :: 0 <= i < |sent| ==> sent'[i] == sent[i];
  }

  lemma LinksFollowedSnoc(urljoin: UrlJoin, sent: seq<Request>, pages: seq<Page>, url: string)
    requires |sent| == |pages| && LinksFollowed(urljoin, sent, pages)
    requires pages != [] ==>
      var last := pages[|pages| - 1];
      last.document.Document? && last.document.next != "" && url == urljoin(last.url, last.document.next)
    ensures LinksFollowed(urljoin, sent + [PageRequest(url, |sent|)], pages)
  {
    var sent' := sent + [PageRequest(url, |sent|)];
    assert forall i :: 0 <= i < |sent| ==> sent'[i] == sent[i];
  }

  /** Sending the request for the next page keeps the walk's guarantees,
      provided its URL is new and is the start URL or the last page's
      link. */
  lemma WalkedRequest(get: Transport, urljoin: UrlJoin, startUrl: string,
                      sent: seq<Request>, pages: seq<Page>, url: string)
    requires Walked(get, urljoin, startUrl, sent, pages)
    requires |sent| == |pages|
    requires url !in UrlsOf(sent)
    requires pages == [] ==> url == startUrl
    requires pages != [] ==>
      var last := pages[|pages| - 1];
      last.document.next != "" && url == urljoin(last.url, last.document.next)
    ensures Walked(get, urljoin, startUrl, sent + [PageRequest(url, |sent|)], pages)
  {
    RequestsNumberedSnoc(startUrl, sent, url);
    PagesFetchedSnoc(get, sent, pages, PageRequest(url, |sent|));
    LinksFollowedSnoc(urljoin, sent, pages, url);
  }

  /** Yielding the document the last request brought back keeps the
      walk's guarantees. */
  lemma WalkedYield(get: Transport, urljoin: UrlJoin, startUrl: string,
                    sent: seq<Request>, pages: seq<Page>, doc: Document)
    requires Walked(get, urljoin, startUrl, sent, pages)
    requires |sent| == |pages| + 1
    requires doc.Document?
    requires PageFetch(get, sent[|pages|].url, |pages|).Fetched?
    requires PageFetch(get, sent[|pages|].url, |pages|).document == doc
    ensures Walked(get, urljoin, startUrl, sent, pages + [Page(|pages|, doc, sent[|pages|].url)])
  {
    var pages' := pages + [Page(|pages|, doc, sent[|pages|].url)];
    assert forall i :: 0 <= i < |pages| ==> pages'[i] == pages[i];
    assert PagesFetched(get, sent, pages');
    assert LinksFollowed(urljoin, sent, pages');
  }

  lemma UrlsOfSnoc(sent: seq<Request>, r: Request)
    ensures UrlsOf(sent + [r]) == UrlsOf(sent) + {r.url}
  {
    var s := sent + [r];
    assert forall i :: 0 <= i < |sent| ==> s[i] == sent[i];
    assert s[|sent|] == r;
  }

  /** `iter_active_alert_pages`, a generator: each call of `Next` resumes
      it until it yields a page or finishes. `sent` and `pages` record, as
      ghost state, every request it has sent and every page it has
      yielded. */
  class AlertPager {
    const get: Transport
    const urljoin: UrlJoin
    const startUrl: string
    var url: string
    var index: nat
    var seenUrls: set<string>
    var current: Option<Document>
    var done: bool
    ghost var sent: seq<Request>
    ghost var pages: seq<Page>

    /** The walk's guarantees, and the generator suspended after its last
        page (or before its first). */
    ghost predicate Valid()
      reads this
    {
      && Walked(get, urljoin, startUrl, sent, pages)
      && seenUrls == UrlsOf(sent)
      && (!done ==> |sent| == |pages|)
      && (!done && pages == [] ==> index == 0 && url == startUrl && current.None?)
      && (!done && pages != [] ==>
            && index == |pages| - 1
            && url == pages[index].url
            && current == Some(pages[index].document))
    }

    constructor (get: Transport, urljoin: UrlJoin, startUrl: string)
      ensures Valid() && !done
      ensures sent == [] && pages == []
      ensures this.get == get && this.urljoin == urljoin && this.startUrl == startUrl
    {
      this.get := get;
      this.urljoin := urljoin;
      this.startUrl := startUrl;
      url := startUrl;
      index := 0;
      seenUrls := {};
      current := None;
      done := false;
      sent := [];
      pages := [];
    }

    /** The generator about to request the page numbered `index`: the
        start URL, or the last page's link resolved against its URL. */
    ghost predicate Ready()
      reads this
    {
      && Walked(get, urljoin, startUrl, sent, pages)
      && seenUrls == UrlsOf(sent)
      && !done && |sent| == |pages| && index == |pages|
      && (pages == [] ==> url == startUrl)
      && (pages != [] ==>
            var last := pages[|pages| - 1];
            last.document.next != "" && url == urljoin(last.url, last.document.next))
    }

    /** Resume the generator: follow the last page's `next` link (or start
        at the first URL); stop at a missing link or a URL already
        requested; otherwise fetch the page, stop at an error, a 304 or an
        empty document, and yield anything else. */
    method Next() returns (step: PagerStep)
      requires Valid()
      modifies this
      ensures Valid()
      ensures old(done) ==> step == Finished && sent == old(sent) && pages == old(pages)
      ensures step.Yielded? <==> !done
      ensures step.Yielded? ==> pages == old(pages) + [step.page] && step.page.index == |old(pages)|
      ensures !step.Yielded? ==> pages == old(pages)
      ensures old(sent) <= sent && |sent| <= |old(sent)| + 1
      ensures step.FetchRaised? ==>
        |sent| == |pages| + 1 && PageFetch(get, sent[|pages|].url, |pages|).FetchError?
      ensures step.Finished? && !old(done) && |sent| == |pages| + 1 ==>
        !PageFetch(get, sent[|pages|].url, |pages|).FetchError?
    {
      if done {
        return Finished;
      }
      var ready := Advance();
      if !ready {
        return Finished;
      }
      if url in seenUrls {
        Stop();
        return Finished;
      }
      step := Request();
    }

    /** End the walk before a request: the next URL was seen already. */
    method Stop()
      requires Ready()
      modifies this
      ensures Valid() && done
      ensures sent == old(sent) && pages == old(pages)
    {
      done := true;
    }

    /** The code after a `yield`: read the last page's link; without one
        the walk ends. */
    method Advance() returns (ready: bool)
      requires Valid() && !done
      modifies this
      ensures sent == old(sent) && pages == old(pages)
      ensures ready ==> Ready()
      ensures !ready ==> Valid() && done
    {
      if current.Some? {
        var nxt := current.value.next;
        if nxt == "" {
          done := true;
          return false;
        }
        url := urljoin(url, nxt);
        index := index + 1;
      }
      ready := true;
    }

    /** The generator having just sent the request for page `index`. */
    ghost predicate Sent()
      reads this
    {
      && Walked(get, urljoin, startUrl, sent, pages)
      && seenUrls == UrlsOf(sent)
      && !done && |sent| == |pages| + 1 && index == |pages|
      && url == sent[|pages|].url
    }

    /** Fetch a URL not requested before and read the answer. */
    method Request() returns (step: PagerStep)
      requires Ready() && url !in seenUrls
      modifies this
      ensures Valid()
      ensures step.Yielded? <==> !done
      ensures step.Yielded? ==> pages == old(pages) + [step.page] && step.page.index == |old(pages)|
      ensures !step.Yielded? ==> pages == old(pages)
      ensures old(sent) <= sent && |sent| <= |old(sent)| + 1
      ensures step.FetchRaised? ==>
        |sent| == |pages| + 1 && PageFetch(get, sent[|pages|].url, |pages|).FetchError?
      ensures step.Finished? && |sent| == |pages| + 1 ==>
        !PageFetch(get, sent[|pages|].url, |pages|).FetchError?
    {
      Send();
      var r := FetchJson(get, url, ParamsFor(index), NwsHeaders, "", "");
      step := Receive(r);
    }

    /** Record the request for page `index` as sent. */
    method Send()
      requires Ready() && url !in seenUrls
      modifies this
      ensures Sent()
      ensures sent == old(sent) + [PageRequest(url, index)]
      ensures pages == old(pages) && url == old(url) && index == old(index)
    {
      WalkedRequest(get, urljoin, startUrl, sent, pages, url);
      UrlsOfSnoc(sent, PageRequest(url, index));
      seenUrls := seenUrls + {url};
      sent := sent + [PageRequest(url, index)];
    }

    /** Read the answer to the last request: an error raises, a 304 or an
        empty document ends the walk, anything else is yielded. */
    method Receive(r: FetchResult) returns (step: PagerStep)
      requires Sent() && r == PageFetch(get, url, index)
      modifies this
      ensures Valid()
      ensures sent == old(sent)
      ensures step.Yielded? <==> !done
      ensures step.Yielded? ==> pages == old(pages) + [step.page] && step.page.index == |old(pages)|
      ensures !step.Yielded? ==> pages == old(pages)
      ensures step.FetchRaised? <==> r.FetchError?
    {
      if r.FetchError? {
        done := true;
        current := None;
        return FetchRaised;
      }
      if r.NotModified? || r.document.EmptyDocument? {
        done := true;
        current := None;
        return Finished;
      }
      WalkedYield(get, urljoin, startUrl, sent, pages, r.document);
      var p := Page(index, r.document, url);
      pages := pages + [p];
      current := Some(r.document);
      step := Yielded(p);
    }
  }

  // ---------------------------------------------------------------------
  // The monthly prune

  /** A reading of the UTC clock: the calendar fields and the same instant
      in seconds, the unit of the ledger's timestamps. */
  datatype Instant = Instant(year: int, month: int, day: int, seconds: Timestamp)

  datatype MonthKey = MonthKey(year: int, month: int)

  function KeyOf(now: Instant): MonthKey {
    MonthKey(now.year, now.month)
  }

  predicate KeyLe(a: MonthKey, b: MonthKey) {
    a.year < b.year || (a.year == b.year && a.month <= b.month)
  }

  /** The prune runs on the first day of a month the poller has not
      pruned in yet. */
  predicate PruneDue(last: Option<MonthKey>, now: Instant) {
    now.day == 1 && last != Some(KeyOf(now))
  }

  /** The remembered month after one reading of the clock. */
  function KeyAfter(last: Option<MonthKey>, now: Instant): (k: Option<MonthKey>)
    ensures PruneDue(last, now) ==> k == Some(KeyOf(now))
    ensures !PruneDue(last, now) ==> k == last
  {
    if PruneDue(last, now) then Some(KeyOf(now)) else last
  }

  /** Records last seen more than thirty days before `now` go. */
  function PruneCutoff(now: Instant): (c: Timestamp)
    ensures c < now.seconds
    ensures c == now.seconds - 30 * 86400
  {
    now.seconds - PruneAgeDays * SecondsPerDay
  }

  /** The remembered month after a run of clock readings. */
  function KeyAfterAll(last: Option<MonthKey>, readings: seq<Instant>): Option<MonthKey> {
    if readings == [] then last
    else KeyAfter(KeyAfterAll(last, readings[..|readings| - 1]), readings[|readings| - 1])
  }

  /** Whether the prune runs at reading `i` of a run. */
  predicate PrunesAt(last: Option<MonthKey>, readings: seq<Instant>, i: nat)
    requires i < |readings|
  {
    PruneDue(KeyAfterAll(last, readings[..i]), readings[i])
  }

  predicate Chronological(readings: seq<Instant>) {
    forall a, b :: 0 <= a < b < |readings| ==> KeyLe(KeyOf(readings[a]), KeyOf(readings[b]))
  }

  /** Once the prune has run in a month, the remembered month stays that
      month for as long as the clock stays in it. */
  lemma {:induction false} KeyHeld(last: Option<MonthKey>, readings: seq<Instant>, i: nat, t: nat)
    requires Chronological(readings)
    requires i < t <= |readings|
    requires PrunesAt(last, readings, i)
    requires forall s :: i <= s < t ==> KeyOf(readings[s]) == KeyOf(readings[i])
    ensures KeyAfterAll(last, readings[..t]) == Some(KeyOf(readings[i]))
    decreases t
  {
    assert readings[..t][..t - 1] == readings[..t - 1];
    if t == i + 1 {
    } else {
      KeyHeld(last, readings, i, t - 1);
    }
  }

  /** With a clock that never goes back a month, the ledger is pruned at
      most once per calendar month. */
  lemma AtMostOncePerMonth(last: Option<MonthKey>, readings: seq<Instant>, i: nat, j: nat)
    requires Chronological(readings)
    requires i < j < |readings|
    requires KeyOf(readings[i]) == KeyOf(readings[j])
    ensures !(PrunesAt(last, readings, i) && PrunesAt(last, readings, j))
  {
    if PrunesAt(last, readings, i) {
      forall s | i <= s < j
        ensures KeyOf(readings[s]) == KeyOf(readings[i])
      {
        assert KeyLe(KeyOf(readings[i]), KeyOf(readings[s]));
        assert KeyLe(KeyOf(readings[s]), KeyOf(readings[j]));
      }
      KeyHeld(last, readings, i, j);
    }
  }

  // ---------------------------------------------------------------------
  // Seen and new alerts

  /** The features of a page that are new: those with an id the ledger
      does not hold, in feed order. Features without an id are neither
      new nor remembered. */
  function Fresh(records: map<string, SeenRecord>, features: seq<Feature>): (r: seq<Feature>)
    ensures |r| <= |features|
    ensures forall f :: f in r <==> f in features && AlertId(f) != "" && AlertId(f) !in records
  {
    if features == [] then []
    else
      var f := features[|features| - 1];
      Fresh(records, features[..|features| - 1]) + (if AlertId(f) != "" && AlertId(f) !in records then [f] else [])
  }

  /** The ledger after the seen alerts of a page are refreshed: every
      record whose id is on the page is last seen `now`; nothing is added
      or removed. */
  function Refreshed(records: map<string, SeenRecord>, features: seq<Feature>, now: Timestamp)
    : (r: map<string, SeenRecord>)
    ensures r.Keys == records.Keys
    ensures forall id :: id in r ==> r[id].firstSeenAt == records[id].firstSeenAt
    ensures forall id :: id in r ==>
      r[id].lastSeenAt == if id in IdsOf(features) then now else records[id].lastSeenAt
  {
    map id | id in records ::
      if id in IdsOf(features) then SeenRecord(records[id].firstSeenAt, now) else records[id]
  }

  /** Refreshing one more feature: its id, when the ledger holds it, is
      upserted; nothing else changes. */
  lemma RefreshedStep(records: map<string, SeenRecord>, features: seq<Feature>, i: nat, now: Timestamp)
    requires i < |features|
    ensures var aid := AlertId(features[i]);
      Refreshed(records, features[..i + 1], now) ==
        if aid != "" && aid in records then Upsert(Refreshed(records, features[..i], now), aid, now)
        else Refreshed(records, features[..i], now)
  {
    var aid := AlertId(features[i]);
    assert features[..i + 1] == features[..i] + [features[i]];
    assert IdsOf(features[..i + 1]) == IdsOf(features[..i]) + (if aid != "" then {aid} else {});
  }

  /** Every feature with an id is exactly one of: new, or refreshed. */
  lemma PartitionIsExact(records: map<string, SeenRecord>, features: seq<Feature>, now: Timestamp, f: Feature)
    requires f in features && AlertId(f) != ""
    ensures f in Fresh(records, features) <==> AlertId(f) !in records
    ensures AlertId(f) in Refreshed(records, features, now) <==> f !in Fresh(records, features)
    ensures f !in Fresh(records, features) ==> Refreshed(records, features, now)[AlertId(f)].lastSeenAt == now
  {
  }

  // ---------------------------------------------------------------------
  // One alert

  /** What handling one new alert came to. */
  datatype AlertOutcome =
    | Skipped            // an ignored event, or not an "Alert" message
    | NoGeometry         // no polygon anywhere: remembered, never pushed
    | ConversionFailed   // polygons found but no zones: retried next cycle
    | FormatFailed       // the message could not be built: ends the cycle
    | PushFailed         // the push raised: ends the cycle
    | Pushed(ok: bool)   // the push answered; remembered when it succeeded

  predicate Raises(o: AlertOutcome) {
    o.FormatFailed? || o.PushFailed?
  }

  /** Whether handling the alert records it in the ledger. */
  predicate Remembers(o: AlertOutcome) {
    o.NoGeometry? || o == Pushed(true)
  }

  predicate IsSkipped(f: Feature) {
    EventOf(f) in IgnoredEvents || f.properties.messageType != "Alert"
  }

  /** The text the message is built from: the headline, else the event. */
  function RawMessage(f: Feature): (s: string)
    ensures s != ""
  {
    if f.properties.headline != "" then f.properties.headline else EventOf(f)
  }

  /** `geojson_to_shapely` over the collected geometries, dropping the
      ones it does not convert. */
  function ShapesOf(geoms: seq<Geometry>): (r: seq<Shape>)
    ensures |r| <= |geoms|
    ensures (forall g :: g in geoms ==> IsPolygonal(g)) ==> |r| == |geoms|
  {
    if geoms == [] then []
    else
      var s := GeoJsonToShape(Some(geoms[|geoms| - 1]));
      assert forall g :: g in geoms[..|geoms| - 1] ==> g in geoms;
      ShapesOf(geoms[..|geoms| - 1]) + (if s.Some? then [s.value] else [])
  }

  /** The zones pushed for a list of polygons: their shapes united, then
      converted with the default simplification settings; none when the
      conversion gives nothing. */
  function ZonesFor(env: Env, geoms: seq<Geometry>): (z: Option<seq<Zone>>)
    ensures z.Some? ==> WellFormed(z.value)
    ensures geoms == [] ==> z.None?
  {
    GbZones(UnionGeometries(ShapesOf(geoms), env.unaryUnion), DefaultConfig, env.simplify)
  }

  /** The message of an alert, when it can be built: the formatted
      notification, capped at 250 characters. */
  function MessageFor(f: Feature, year: int): (m: Option<string>)
    ensures m.Some? <==> FormatNotification(RawMessage(f), year).Ok?
    ensures m.Some? ==> |m.value| <= MaxMessageLength
  {
    match FormatNotification(RawMessage(f), year)
    case Ok(msg) => Some(Truncate(msg))
    case Err(_) => None
  }

  /** The I/O and libraries one cycle works with: the feed's transport,
      the URL resolver, the geometry library's union and simplification,
      and the push sender, whose answer depends on the message and
      zones. */
  datatype Env = Env(
    get: Transport,
    urljoin: UrlJoin,
    unaryUnion: seq<Shape> -> Shape,
    simplify: (Shape, real) -> Shape,
    deliver: (string, seq<Zone>) -> PushResult)

  /** The number of pushes that got an answer. */
  function PushCount(outcomes: seq<AlertOutcome>): (n: nat)
    ensures n <= |outcomes|
  {
    if outcomes == [] then 0
    else PushCount(outcomes[..|outcomes| - 1]) + (if outcomes[|outcomes| - 1].Pushed? then 1 else 0)
  }

  /** The ids of the new alerts whose handling recorded them. */
  function RememberedIds(newAlerts: seq<Feature>, outcomes: seq<AlertOutcome>): set<string> {
    set i | 0 <= i < |outcomes| && i < |newAlerts| && Remembers(outcomes[i]) :: AlertId(newAlerts[i])
  }

  lemma RememberedIdsSnoc(newAlerts: seq<Feature>, outcomes: seq<AlertOutcome>, o: AlertOutcome)
    requires |outcomes| < |newAlerts|
    ensures RememberedIds(newAlerts, outcomes + [o]) ==
      RememberedIds(newAlerts, outcomes) + (if Remembers(o) then {AlertId(newAlerts[|outcomes|])} else {})
  {
    var s := outcomes + [o];
    assert forall i :: 0 <= i < |outcomes| ==> s[i] == outcomes[i];
    assert s[|outcomes|] == o;
  }

  /** Counting one more push: a long pause falls on every 24th. */
  lemma PauseStep(c: nat)
    ensures (c + 1) / PushesPerPause == c / PushesPerPause + if (c + 1) % PushesPerPause == 0 then 1 else 0
  {
  }

  /** The page loop's counters after one more outcome: the push count
      grows by one for a push that got an answer, and so does the pause
      count when that push is a 24th. */
  lemma CountStep(outcomes: seq<AlertOutcome>, o: AlertOutcome, c: nat, p: nat)
    requires c == PushCount(outcomes) && p == c / PushesPerPause
    ensures var c' := if o.Pushed? then c + 1 else c;
      && c' == PushCount(outcomes + [o])
      && (if o.Pushed? && c' % PushesPerPause == 0 then p + 1 else p) == c' / PushesPerPause
  {
    assert (outcomes + [o])[..|outcomes|] == outcomes;
    PauseStep(c);
  }

  /** The ledger after the alerts in `ids` are marked seen at `now`: each
      is last seen `now`, keeping its first sighting when the ledger held
      it; the other records are untouched. */
  function Remembered(records: map<string, SeenRecord>, ids: set<string>, now: Timestamp)
    : (r: map<string, SeenRecord>)
    ensures r.Keys == records.Keys + ids
    ensures forall id :: id in records && id !in ids ==> r[id] == records[id]
    ensures forall id :: id in ids ==> r[id].lastSeenAt == now
    ensures forall id :: id in ids ==>
      r[id].firstSeenAt == if id in records then records[id].firstSeenAt else now
  {
    map id | id in records.Keys + ids ::
      if id !in ids then records[id]
      else if id in records then SeenRecord(records[id].firstSeenAt, now)
      else SeenRecord(now, now)
  }

  /** Marking one more id is remembering one more id. */
  lemma RememberedSnoc(records: map<string, SeenRecord>, ids: set<string>, id: string, now: Timestamp)
    ensures Upsert(Remembered(records, ids, now), id, now) == Remembered(records, ids + {id}, now)
  {
    var a := Upsert(Remembered(records, ids, now), id, now);
    var b := Remembered(records, ids + {id}, now);
    assert a.Keys == b.Keys;
    forall k | k in a ensures a[k] == b[k] {
      if k == id {
        assert a[k].firstSeenAt == b[k].firstSeenAt;
      }
    }
  }

  /** What handling a page's new alerts in order looks like: each handled
      in turn, none but the last raising, and the handling ending early
      only after one that raised. */
  predicate HandledInOrder(newAlerts: seq<Feature>, outcomes: seq<AlertOutcome>) {
    && |outcomes| <= |newAlerts|
    && (forall i :: 0 <= i < |outcomes| - 1 ==> !Raises(outcomes[i]))
    && (|outcomes| < |newAlerts| ==> outcomes != [] && Raises(outcomes[|outcomes| - 1]))
  }

  /** Whether the handling of a page ended with an alert that raised. */
  predicate PageRaised(outcomes: seq<AlertOutcome>) {
    outcomes != [] && Raises(outcomes[|outcomes| - 1])
  }

  /** The ledger after a page: the seen alerts on it refreshed, then the
      new alerts whose handling recorded them marked seen. */
  function PageLedger(records: map<string, SeenRecord>, features: seq<Feature>,
                      outcomes: seq<AlertOutcome>, now: Timestamp): map<string, SeenRecord>
  {
    Remembered(Refreshed(records, features, now), RememberedIds(Fresh(records, features), outcomes), now)
  }

  /** One page's processing, from the ledger `before` to the ledger `after`. */
  predicate PageStep(before: map<string, SeenRecord>, page: Page, outcomes: seq<AlertOutcome>,
                     after: map<string, SeenRecord>, now: Timestamp)
  {
    && HandledInOrder(Fresh(before, FeaturesOf(page.document)), outcomes)
    && after == PageLedger(before, FeaturesOf(page.document), outcomes, now)
  }

  /** A run of pages processed in turn: `ledgers[i]` is the ledger before
      page `i` and `ledgers[i + 1]` the ledger after it. */
  ghost predicate PagesProcessed(pages: seq<Page>, outcomes: seq<seq<AlertOutcome>>,
                                 ledgers: seq<map<string, SeenRecord>>, now: Timestamp)
  {
    && |outcomes| == |pages| && |ledgers| == |pages| + 1
    && forall i :: 0 <= i < |pages| ==> PageProcessed(pages, outcomes, ledgers, now, i)
  }

  /** Page `i` of a run took the ledger from `ledgers[i]` to `ledgers[i + 1]`. */
  ghost predicate PageProcessed(pages: seq<Page>, outcomes: seq<seq<AlertOutcome>>,
                                ledgers: seq<map<string, SeenRecord>>, now: Timestamp, i: nat)
    requires i < |pages| && |outcomes| == |pages| && |ledgers| == |pages| + 1
  {
    PageStep(ledgers[i], pages[i], outcomes[i], ledgers[i + 1], now)
  }

  /** A processed run extended by one more page processed from the last
      ledger is still a processed run. */
  lemma PagesProcessedSnoc(pages: seq<Page>, outcomes: seq<seq<AlertOutcome>>,
                           ledgers: seq<map<string, SeenRecord>>, now: Timestamp,
                           page: Page, o: seq<AlertOutcome>, after: map<string, SeenRecord>)
    requires PagesProcessed(pages, outcomes, ledgers, now)
    requires PageStep(ledgers[|pages|], page, o, after, now)
    ensures PagesProcessed(pages + [page], outcomes + [o], ledgers + [after], now)
  {
    var pages', outcomes', ledgers' := pages + [page], outcomes + [o], ledgers + [after];
    forall i | 0 <= i < |pages'| ensures PageProcessed(pages', outcomes', ledgers', now, i) {
      if i < |pages| {
        assert PageProcessed(pages, outcomes, ledgers, now, i);
        assert pages'[i] == pages[i] && outcomes'[i] == outcomes[i];
        assert ledgers'[i] == ledgers[i] && ledgers'[i + 1] == ledgers[i + 1];
      }
    }
  }

  /** Over the first `k` pages of a processed run the ledger only grows,
      and every id it gains is the id of an alert on one of those pages. */
  lemma {:induction false} WalkOnlyAddsPageIds(pages: seq<Page>, outcomes: seq<seq<AlertOutcome>>,
                                               ledgers: seq<map<string, SeenRecord>>, now: Timestamp, k: nat)
    requires PagesProcessed(pages, outcomes, ledgers, now) && k <= |pages|
    ensures ledgers[0].Keys <= ledgers[k].Keys
    ensures forall id :: id in ledgers[k] && id !in ledgers[0] ==>
      exists i :: 0 <= i < k && id in IdsOf(FeaturesOf(pages[i].document))
    decreases k
  {
    if k > 0 {
      var n := k - 1;
      WalkOnlyAddsPageIds(pages, outcomes, ledgers, now, n);
      assert PageProcessed(pages, outcomes, ledgers, now, n);
      var before, after := ledgers[n], ledgers[k];
      var features := FeaturesOf(pages[n].document);
      forall id | id in after && id !in before
        ensures id in IdsOf(features)
      {
        RememberedIdsOnPage(before, features, outcomes[n], id);
      }
      forall id | id in after && id !in ledgers[0]
        ensures exists i :: 0 <= i < k && id in IdsOf(FeaturesOf(pages[i].document))
      {
        if id in before {
          var i :| 0 <= i < n && id in IdsOf(FeaturesOf(pages[i].document));
        }
      }
    }
  }

  /** The ids a page's handling remembers are ids of features on the page. */
  lemma RememberedIdsOnPage(records: map<string, SeenRecord>, features: seq<Feature>,
                            outcomes: seq<AlertOutcome>, id: string)
    requires id in RememberedIds(Fresh(records, features), outcomes)
    ensures id in IdsOf(features)
  {
    var newAlerts := Fresh(records, features);
    var i :| 0 <= i < |outcomes| && i < |newAlerts| && Remembers(outcomes[i]) && AlertId(newAlerts[i]) == id;
    assert newAlerts[i] in newAlerts;
  }

  /** Whether a walk ended in an error: the last request's fetch raised,
      or the last page's handling ended with an alert that raised. */
  ghost predicate WalkRaised(get: Transport, sent: seq<Request>, walked: seq<Page>,
                             outcomes: seq<seq<AlertOutcome>>)
    requires |outcomes| == |walked|
  {
    || (|sent| == |walked| + 1 && PageFetch(get, sent[|walked|].url, |walked|).FetchError?)
    || (walked != [] && PageRaised(outcomes[|walked| - 1]))
  }

  /** When the last page did not raise, a walk raised exactly when its
      last request's fetch did. */
  lemma WalkRaisedByFetch(get: Transport, sent: seq<Request>, walked: seq<Page>,
                          outcomes: seq<seq<AlertOutcome>>)
    requires |outcomes| == |walked|
    requires walked != [] ==> !PageRaised(outcomes[|walked| - 1])
    ensures WalkRaised(get, sent, walked, outcomes) <==>
      |sent| == |walked| + 1 && PageFetch(get, sent[|walked|].url, |walked|).FetchError?
  {
  }

  /** How a cycle ended: the dashboard session could not be restored, or
      the walk over the feed stopped after some pages, with or without an
      error. */
  datatype CycleEnd = AuthFailed | PagesDone(pages: nat, raised: bool)

  /** Whether the session check and, when needed, the login leave the
      poller able to push. */
  predicate Authenticated(creds: DotEnv.Settings, probe: Outcome<string>,
                          loginPage: Outcome<string>, loginPost: Outcome<string>)
  {
    IsLoggedIn(probe) || Login(creds.login, creds.password, loginPage, loginPost) == LoginOk
  }

  /** The state the poller keeps between cycles: the seen-alert ledger
      and the month it last pruned it in. */
  class Poller {
    const ledger: SeenLedger
    var lastPruneKey: Option<MonthKey>

    constructor (ledger: SeenLedger)
      ensures this.ledger == ledger && lastPruneKey.None?
    {
      this.ledger := ledger;
      lastPruneKey := None;
    }

    /** The guard at the top of each cycle: on the first day of a month
        not yet pruned, drop every record last seen more than thirty days
        ago and remember the month. */
    method PruneIfDue(now: Instant) returns (removed: nat)
      modifies this, ledger
      ensures lastPruneKey == KeyAfter(old(lastPruneKey), now)
      ensures PruneDue(old(lastPruneKey), now) ==>
        ledger.records == Pruned(old(ledger.records), PruneCutoff(now))
        && removed == |Expired(old(ledger.records), PruneCutoff(now))|
      ensures !PruneDue(old(lastPruneKey), now) ==> ledger.records == old(ledger.records) && removed == 0
    {
      removed := 0;
      if now.day == 1 {
        var pruneKey := KeyOf(now);
        if Some(pruneKey) != lastPruneKey {
          removed := ledger.PruneSeenBefore(PruneCutoff(now));
          lastPruneKey := Some(pruneKey);
        }
      }
    }

    /** Split a page's features: refresh the ones already seen, return
        the new ones. */
    method Partition(features: seq<Feature>, now: Timestamp) returns (newAlerts: seq<Feature>)
      modifies ledger
      ensures newAlerts == Fresh(old(ledger.records), features)
      ensures ledger.records == Refreshed(old(ledger.records), features, now)
    {
      ghost var records := ledger.records;
      newAlerts := [];
      for i := 0 to |features|
        invariant newAlerts == Fresh(records, features[..i])
        invariant ledger.records == Refreshed(records, features[..i], now)
      {
        assert features[..i + 1][..i] == features[..i];
        RefreshedStep(records, features, i, now);
        var f := features[i];
        var aid := AlertId(f);
        if aid != "" {
          var seen := ledger.IsSeen(aid);
          if !seen {
            newAlerts := newAlerts + [f];
          } else {
            ledger.MarkSeen(aid, now);
          }
        }
      }
      assert features[..|features|] == features;
    }

    /** The handling of one new alert: skip ignored events and messages
        other than "Alert"; remember an alert without any polygon; give up
        (until the next cycle) when the polygons do not convert to zones;
        otherwise build the message and push it, remembering the alert
        when the push succeeds. `pushed` is what was handed to the
        sender. */
    method HandleAlert(env: Env, f: Feature, year: int, now: Timestamp)
      returns (outcome: AlertOutcome, pushed: Option<(string, seq<Zone>)>)
      modifies ledger
      ensures var geoms := ChosenGeometries(env.get, f);
        && (outcome.Skipped? <==> IsSkipped(f))
        && (outcome.NoGeometry? <==> !IsSkipped(f) && geoms == [])
        && (outcome.ConversionFailed? <==> !IsSkipped(f) && geoms != [] && ZonesFor(env, geoms).None?)
        && (outcome.FormatFailed? <==>
              !IsSkipped(f) && ZonesFor(env, geoms).Some? && MessageFor(f, year).None?)
        && (pushed.Some? <==> !IsSkipped(f) && ZonesFor(env, geoms).Some? && MessageFor(f, year).Some?)
      ensures pushed.Some? <==> outcome.PushFailed? || outcome.Pushed?
      ensures pushed.Some? ==>
        && pushed.value == (MessageFor(f, year).value, ZonesFor(env, ChosenGeometries(env.get, f)).value)
        && (outcome.PushFailed? <==> env.deliver(pushed.value.0, pushed.value.1).PushRaised?)
        && (outcome.Pushed? ==> outcome.ok == env.deliver(pushed.value.0, pushed.value.1).ok)
      ensures ledger.records ==
        if Remembers(outcome) && AlertId(f) != "" then Upsert(old(ledger.records), AlertId(f), now)
        else old(ledger.records)
    {
      pushed := None;
      var event := EventOf(f);
      if event in IgnoredEvents || f.properties.messageType != "Alert" {
        return Skipped, None;
      }
      var aid := AlertId(f);
      if !HasPolygonal(f.geometry) && f.properties.affectedZones == [] {
        if aid != "" {
          ledger.MarkSeen(aid, now);
        }
        return NoGeometry, None;
      }
      var sources, geoms := ChooseGeometriesForAlert(env.get, f);
      if geoms == [] {
        if aid != "" {
          ledger.MarkSeen(aid, now);
        }
        return NoGeometry, None;
      }
      outcome, pushed := PushAlert(env, f, geoms, year);
      if outcome == Pushed(true) && aid != "" {
        ledger.MarkSeen(aid, now);
      }
    }

    /** The second half of the handling of an alert that has polygons:
        union them, convert the union to zones (giving up when that
        fails), build and truncate the message, and hand both to the
        sender. */
    method PushAlert(env: Env, f: Feature, geoms: seq<Geometry>, year: int)
      returns (outcome: AlertOutcome, pushed: Option<(string, seq<Zone>)>)
      ensures outcome.ConversionFailed? || outcome.FormatFailed? || outcome.PushFailed? || outcome.Pushed?
      ensures outcome.ConversionFailed? <==> ZonesFor(env, geoms).None?
      ensures outcome.FormatFailed? <==> ZonesFor(env, geoms).Some? && MessageFor(f, year).None?
      ensures pushed.Some? <==> outcome.PushFailed? || outcome.Pushed?
      ensures pushed.Some? ==>
        && pushed.value == (MessageFor(f, year).value, ZonesFor(env, geoms).value)
        && WellFormed(pushed.value.1)
        && (outcome.PushFailed? <==> env.deliver(pushed.value.0, pushed.value.1).PushRaised?)
        && (outcome.Pushed? ==> outcome.ok == env.deliver(pushed.value.0, pushed.value.1).ok)
    {
      pushed := None;
      var shapes := ShapesOf(geoms);
      var union := UnionGeometries(shapes, env.unaryUnion);
      var zones := ShapeToGbZones(union, DefaultConfig, env.simplify);
      if zones.None? {
        return ConversionFailed, None;
      }
      var formatted := FormatNotification(RawMessage(f), year);
      if formatted.Err? {
        return FormatFailed, None;
      }
      var msg := Truncate(formatted.value);
      pushed := Some((msg, zones.value));
      var r := env.deliver(msg, zones.value);
      if r.PushRaised? {
        return PushFailed, pushed;
      }
      outcome := Pushed(r.ok);
    }

    /** `HandleAlert` as the page loop sees it: what it came to, and
        the id, if any, it marked seen. */
    method HandleOne(env: Env, f: Feature, year: int, now: Timestamp) returns (outcome: AlertOutcome)
      modifies ledger
      ensures ledger.records ==
        if Remembers(outcome) && AlertId(f) != "" then Upsert(old(ledger.records), AlertId(f), now)
        else old(ledger.records)
    {
      var pushed;
      outcome, pushed := HandleAlert(env, f, year, now);
    }

    /** One page of the feed: split its features, then handle the new
        ones. */
    method ProcessPage(env: Env, features: seq<Feature>, year: int, now: Timestamp)
      returns (outcomes: seq<AlertOutcome>, pauses: nat)
      modifies ledger
      ensures HandledInOrder(Fresh(old(ledger.records), features), outcomes)
      ensures ledger.records == PageLedger(old(ledger.records), features, outcomes, now)
      ensures pauses == PushCount(outcomes) / PushesPerPause
    {
      var newAlerts := Partition(features, now);
      outcomes, pauses := HandleNewAlerts(env, newAlerts, year, now);
    }

    /** Handle a page's new alerts in order, pausing after every 24th
        push that got an answer. An alert whose handling raises ends the
        page (and the cycle). */
    method HandleNewAlerts(env: Env, newAlerts: seq<Feature>, year: int, now: Timestamp)
      returns (outcomes: seq<AlertOutcome>, pauses: nat)
      requires forall f :: f in newAlerts ==> AlertId(f) != ""
      modifies ledger
      ensures HandledInOrder(newAlerts, outcomes)
      ensures ledger.records == Remembered(old(ledger.records), RememberedIds(newAlerts, outcomes), now)
      ensures pauses == PushCount(outcomes) / PushesPerPause
    {
      outcomes := [];
      pauses := 0;
      var gbRequests := 0;
      var i := 0;
      ghost var records := ledger.records;
      assert Remembered(records, {}, now) == records;
      while i < |newAlerts|
        invariant i <= |newAlerts| && |outcomes| == i
        invariant forall k :: 0 <= k < i ==> !Raises(outcomes[k])
        invariant gbRequests == PushCount(outcomes) && pauses == gbRequests / PushesPerPause
        invariant ledger.records == Remembered(records, RememberedIds(newAlerts, outcomes), now)
      {
        var o := HandleOne(env, newAlerts[i], year, now);
        RememberedIdsSnoc(newAlerts, outcomes, o);
        if Remembers(o) {
          RememberedSnoc(records, RememberedIds(newAlerts, outcomes), AlertId(newAlerts[i]), now);
        }
        CountStep(outcomes, o, gbRequests, pauses);
        outcomes := outcomes + [o];
        if o.Pushed? {
          gbRequests := gbRequests + 1;
          if gbRequests % PushesPerPause == 0 {
            pauses := pauses + 1;
          }
        }
        if Raises(o) {
          return;
        }
        i := i + 1;
      }
    }

    /** One turn of the main loop: the monthly prune, then the session
        check (logging in again when needed; a failure ends the turn),
        then the walk over the feed. */
    method Cycle(env: Env, now: Instant, year: int, creds: DotEnv.Settings,
                 probe: Outcome<string>, loginPage: Outcome<string>, loginPost: Outcome<string>,
                 maxPages: nat)
      returns (end: CycleEnd, ghost sent: seq<Request>, ghost walked: seq<Page>,
               ghost outcomes: seq<seq<AlertOutcome>>, ghost ledgers: seq<map<string, SeenRecord>>)
      modifies this, ledger
      ensures lastPruneKey == KeyAfter(old(lastPruneKey), now)
      ensures end.AuthFailed? <==> !Authenticated(creds, probe, loginPage, loginPost)
      ensures ledgers != [] && ledgers[0] ==
        if PruneDue(old(lastPruneKey), now) then Pruned(old(ledger.records), PruneCutoff(now))
        else old(ledger.records)
      ensures end.AuthFailed? ==> sent == [] && walked == [] && ledgers == [ledger.records]
      ensures end.PagesDone? ==> end.pages == |walked| <= maxPages
      ensures Walked(env.get, env.urljoin, NwsAlertsUrl, sent, walked)
      ensures PagesProcessed(walked, outcomes, ledgers, now.seconds)
      ensures end.PagesDone? ==> end.raised == WalkRaised(env.get, sent, walked, outcomes)
      ensures ledger.records == ledgers[|walked|]
    {
      var _ := PruneIfDue(now);
      if !IsLoggedIn(probe) {
        var login := Login(creds.login, creds.password, loginPage, loginPost);
        if login != LoginOk {
          return AuthFailed, [], [], [], [ledger.records];
        }
      }
      var pages, raised;
      pages, raised, sent, walked, outcomes, ledgers := WalkFeed(env, year, now.seconds, maxPages);
      end := PagesDone(pages, raised);
    }

    /** One resumption of the walk: the next page, if the feed yields one,
        processed; `more` says whether the walk goes on. */
    method WalkStep(env: Env, pager: AlertPager, year: int, now: Timestamp,
                    ghost outcomes: seq<seq<AlertOutcome>>, ghost ledgers: seq<map<string, SeenRecord>>)
      returns (yielded: bool, more: bool, raised: bool, ghost outcomes': seq<seq<AlertOutcome>>,
               ghost ledgers': seq<map<string, SeenRecord>>)
      requires pager.Valid() && !pager.done
      requires PagesProcessed(pager.pages, outcomes, ledgers, now) && ledger.records == ledgers[|pager.pages|]
      requires pager.pages != [] ==> !PageRaised(outcomes[|pager.pages| - 1])
      modifies pager, ledger
      ensures pager.Valid()
      ensures PagesProcessed(pager.pages, outcomes', ledgers', now) && ledger.records == ledgers'[|pager.pages|]
      ensures ledgers'[0] == ledgers[0]
      ensures |pager.pages| == |old(pager.pages)| + (if yielded then 1 else 0)
      ensures more ==> yielded && !pager.done && !raised && !PageRaised(outcomes'[|pager.pages| - 1])
      ensures !more ==> raised == WalkRaised(pager.get, pager.sent, pager.pages, outcomes')
    {
      ghost var prevPages := pager.pages;
      var step := pager.Next();
      if !step.Yielded? {
        raised := step.FetchRaised?;
        WalkRaisedByFetch(pager.get, pager.sent, pager.pages, outcomes);
        return false, false, raised, outcomes, ledgers;
      }
      yielded := true;
      more, outcomes', ledgers' := ProcessWalkedPage(env, step.page, year, now, prevPages, outcomes, ledgers);
      raised := !more;
    }

    /** `ProcessPage` on the page the walk just yielded, with the record
        of the pages before it extended by this one; `more` says whether
        no alert on it raised. */
    method ProcessWalkedPage(env: Env, page: Page, year: int, now: Timestamp, ghost pages: seq<Page>,
                             ghost outcomes: seq<seq<AlertOutcome>>, ghost ledgers: seq<map<string, SeenRecord>>)
      returns (more: bool, ghost outcomes': seq<seq<AlertOutcome>>,
               ghost ledgers': seq<map<string, SeenRecord>>)
      requires PagesProcessed(pages, outcomes, ledgers, now) && ledger.records == ledgers[|pages|]
      modifies ledger
      ensures |outcomes'| == |pages| + 1 && |ledgers'| == |pages| + 2
      ensures PagesProcessed(pages + [page], outcomes', ledgers', now)
      ensures ledgers'[0] == ledgers[0] && ledger.records == ledgers'[|pages| + 1]
      ensures more <==> !PageRaised(outcomes'[|pages|])
    {
      var o, pauses := ProcessPage(env, FeaturesOf(page.document), year, now);
      PagesProcessedSnoc(pages, outcomes, ledgers, now, page, o, ledger.records);
      outcomes' := outcomes + [o];
      ledgers' := ledgers + [ledger.records];
      more := !PageRaised(o);
    }

    /** The walk over the feed's pages, each processed as it arrives; an
        error in the feed or in an alert ends the walk. The walk is
        bounded by `maxPages`. `sent` lists the feed requests, `outcomes`
        what each page's alerts came to and `ledgers` the ledger before
        each page and after the last. */
    method WalkFeed(env: Env, year: int, now: Timestamp, maxPages: nat)
      returns (pages: nat, raised: bool, ghost sent: seq<Request>, ghost walked: seq<Page>,
               ghost outcomes: seq<seq<AlertOutcome>>, ghost ledgers: seq<map<string, SeenRecord>>)
      modifies ledger
      ensures pages == |walked| <= maxPages
      ensures Walked(env.get, env.urljoin, NwsAlertsUrl, sent, walked)
      ensures PagesProcessed(walked, outcomes, ledgers, now)
      ensures ledgers[0] == old(ledger.records) && ledger.records == ledgers[|walked|]
      ensures raised == WalkRaised(env.get, sent, walked, outcomes)
    {
      var pager := new AlertPager(env.get, env.urljoin, NwsAlertsUrl);
      pages, raised, outcomes, ledgers := WalkPages(env, pager, year, now, maxPages);
      sent := pager.sent;
      walked := pager.pages;
    }

    /** The loop of the walk: resume the generator until it finishes, a
        page raises, or `maxPages` pages have been processed. */
    method WalkPages(env: Env, pager: AlertPager, year: int, now: Timestamp, maxPages: nat)
      returns (pages: nat, raised: bool, ghost outcomes: seq<seq<AlertOutcome>>,
               ghost ledgers: seq<map<string, SeenRecord>>)
      requires pager.Valid() && !pager.done && pager.pages == []
      modifies pager, ledger
      ensures pager.Valid()
      ensures pages == |pager.pages| <= maxPages
      ensures PagesProcessed(pager.pages, outcomes, ledgers, now)
      ensures ledgers[0] == old(ledger.records) && ledger.records == ledgers[pages]
      ensures raised == WalkRaised(pager.get, pager.sent, pager.pages, outcomes)
    {
      pages := 0;
      raised := false;
      outcomes := [];
      ledgers := [ledger.records];
      var more := true;
      while more && pages < maxPages
        invariant pager.Valid()
        invariant |pager.pages| == pages <= maxPages
        invariant PagesProcessed(pager.pages, outcomes, ledgers, now)
        invariant ledgers[0] == old(ledger.records) && ledger.records == ledgers[pages]
        invariant more ==> !pager.done && !raised && (pages > 0 ==> !PageRaised(outcomes[pages - 1]))
        invariant !more ==> raised == WalkRaised(pager.get, pager.sent, pager.pages, outcomes)
        decreases maxPages - pages, if more then 1 else 0
      {
        var yielded;
        yielded, more, raised, outcomes, ledgers := WalkStep(env, pager, year, now, outcomes, ledgers);
        if yielded {
          pages := pages + 1;
        }
      }
      if more {
        WalkRaisedByFetch(pager.get, pager.sent, pager.pages, outcomes);
      }
    }
  }
}
