# NWS to GoodBarber alert pipeline: a Dafny model

The system polls the National Weather Service's active-alert feed, which is
GeoJSON. It decides which alerts are new, turns each new alert's polygons
into the zone payload of a GoodBarber push dashboard, and builds a short
notification message. It then posts the push through the dashboard's web
form, and a SQLite ledger of seen alert ids keeps it from announcing an
alert twice. This project models the decision logic of every part:

- the seen-alert ledger (`Storage`, a class over a map from id to first and
  last sighting);
- the `.env` loader (`DotEnv`, a class holding the process environment);
- the feed client with conditional requests and geometry collection
  (`NwsClient`, over the GeoJSON values in `GeoJson` and the HTTP values in
  `Http`);
- the conversion of shapes into zone rings with bounded simplification
  (`Zones`);
- the dashboard client: hidden-field harvesting, the session probe, login
  rules, the push form, the retry loop and the success test (`GoodBarber`);
- the notification formatter with its two "until" clause forms and the
  weekday computed by calendar arithmetic (`Formatter`, `Calendar`);
- the main loop: the cycle-safe pagination walk, the new/seen partition,
  the per-alert decisions, the push counter and the monthly prune guard
  (`Service`);
- the older single-script poller: Ramer-Douglas-Peucker, the ring shrinker
  with its stride fallback, the polygon conversion and the in-memory dedup
  set (`Legacy`).

`Text` holds the Python string operations the code relies on: `strip`,
`split`, `join`, `find` and `lower`. `Wrappers` holds `Option` and `Result`.

I/O is passed in as values and functions:

- HTTP exchanges are values. A transport is a function from a request to
  the `Outcome` it produced: a response, a timeout, or another failure.
- The geometry library's `unary_union` and `simplify` are function
  parameters.
- So are `urljoin`, the distance function of the old shrinker, and the
  random jitter.
- The clock is a parameter: an `Instant` for the UTC reading, and the local
  date and time strings for the push form.

Where the code and its documentation differ, the model follows the code.
Three examples:

- `raise_for_status` raises only for statuses 400 to 599, so other non-2xx
  answers go through as documents (`Http.IsErrorStatus`).
- The push counter is reset on every page, not once per poll cycle.
- The simplification loop does not guarantee the point cap.

## Model

| member | source | states |
|---|---|---|
| Storage.Upsert | app/storage.py:30-52 | marking an id adds at most that key; a new id gets first = last = now; an existing id keeps its first sighting and takes now as last; every other record is unchanged; the table grows by one only for a new id (one record per id) |
| Storage.Expired | app/storage.py:56-59 | the ids a prune deletes are exactly the records last seen before the cutoff |
| Storage.Pruned | app/storage.py:55-61 | a prune keeps exactly the records not expired, unchanged, each last seen at or after the cutoff |
| Storage.PrunedCount | app/storage.py:55-61 | deleted plus kept records add up to the table, so the reported count is the number removed |
| Storage.UpsertTwice | app/storage.py:30-52 | marking an id twice leaves one record whose first sighting is the earlier call's (or the existing one) and whose last sighting is the later call's |
| Storage.SeenLedger.constructor | app/storage.py:9-19 | the table starts empty |
| Storage.SeenLedger.IsSeen | app/storage.py:22-27 | true exactly when a record with that id exists |
| Storage.SeenLedger.MarkSeen | app/storage.py:30-52 | the new table is the insert-or-refresh of the old one, and afterwards the id is seen with last sighting now |
| Storage.SeenLedger.PruneSeenBefore | app/storage.py:55-61 | the new table is the pruned one and the result is the number of deleted records, the old size minus the new |
| DotEnv.ParseLine | app/config.py:9-18 | a blank line, a `#` comment or a line without `=` yields nothing; a yielded key is non-empty and trimmed |
| DotEnv.ParseLineCases | app/config.py:9-17 | a line is skipped exactly when, trimmed, it is blank, a comment, has no `=` or has only spaces before its first `=`; otherwise it gives the trimmed key before that `=` and the cleaned value after it |
| DotEnv.SplitAtFirstEquals | app/config.py:14-17 | a line is split at its first `=`: the key is the trimmed text before it, the value the cleaned rest with later `=` kept |
| DotEnv.LoadedKeepsExisting | app/config.py:18 | a variable already in the environment is never overwritten by any line |
| DotEnv.SkippedLineIsNeutral | app/config.py:10-13 | inserting a skipped line anywhere in the file leaves the loaded environment unchanged |
| DotEnv.FirstDefinitionWins | app/config.py:14-18 | for a key not set before, the first line defining it decides the value; later duplicates are ignored |
| DotEnv.LoadedLookup | app/config.py:9-18 | after loading, a variable is set exactly when it was set before or a line defines it, with the old value or else the first defined one |
| DotEnv.DefinedKeysHaveFirstValue | app/config.py:14-18 | a key is among those the lines define exactly when a first definition of it exists |
| DotEnv.LoadedKeys | app/config.py:9-18 | the variables set after loading are exactly those set before plus those the lines define |
| DotEnv.GetAfterLoad | app/config.py:9-31 | a setting read after loading is the value the variable already had, else the value of the first line defining it, else "" |
| DotEnv.Environment.LoadDotenv | app/config.py:4-18 | a missing file changes nothing; otherwise the environment becomes the line-by-line fold of the file over the old one |
| Text.LStrip | app/config.py:9 | removes exactly the maximal prefix of stripped characters |
| Text.RStrip | app/gb_client.py:58 | removes exactly the maximal suffix of stripped characters |
| Text.StripSpaceIdempotent | app/config.py:15 | trimming a trimmed string changes nothing |
| Text.Words | app/service.py:94 | `split()` yields only non-empty runs of non-whitespace |
| Text.WordsOfJoin | app/service.py:94 | splitting the single-space join of words gives the words back |
| Text.JoinSpacing | app/service.py:94 | the join of words is empty only for no words, has no edge whitespace and only single spaces between words |
| Text.WordsOfStripSpace | app/service.py:94 | trimming does not change the words of a string |
| Text.IndexOf | app/service.py:98-99 | `find`: the first occurrence, or none when the pattern occurs nowhere |
| Text.Lower | app/service.py:102 | lower-cases letter by letter, keeping the length |
| Text.NatToString | app/service.py:109 | decimal text of a number: digits only, denoting that number |
| GeoJson.EventOf | app/service.py:272 | the event name, "Alert" when missing, never empty |
| GeoJson.IdsOf | app/service.py:255-256 | the set of the features' ids: every present id, never the missing one |
| GeoJson.IdsOfAreFeatureIds | app/service.py:255-256 | every id collected is the id of one of the features, so the set holds nothing but the features' ids |
| GeoJson.IdsOfConcat | app/service.py:254-256 | the ids of two runs of features are the union of each run's ids |
| NwsClient.WithValidators | app/nws_client.py:4-9 | If-None-Match is added exactly when the etag is non-empty and If-Modified-Since exactly when last-modified is; every other header is copied unchanged |
| NwsClient.Interpret | app/nws_client.py:10-14 | a 304 gives no document with the caller's own validators; a 4xx/5xx or a failed request raises; anything else gives the document with the response's ETag and Last-Modified |
| NwsClient.FetchJson | app/nws_client.py:4-14 | the result is the interpretation of the transport's answer to the request with validators |
| NwsClient.AlertGeometries | app/nws_client.py:17-21 | a singleton list exactly when the alert's own geometry is a Polygon or MultiPolygon, else empty |
| NwsClient.PolygonalOf | app/nws_client.py:24-30 | exactly the polygon-typed member geometries, each taken from a member |
| NwsClient.PolygonalOfConcat | app/nws_client.py:24-30 | collection over two runs of members is the concatenation, so feature order is kept |
| NwsClient.CollectFromFeatureCollection | app/nws_client.py:24-30 | the loop collects exactly the polygon-typed member geometries in order |
| NwsClient.ZoneContribution | app/nws_client.py:37-46 | a failed, 304 or empty zone fetch contributes nothing; a polygon-typed top-level geometry contributes only itself; otherwise a FeatureCollection contributes exactly its polygon-typed member geometries; everything contributed is polygonal |
| NwsClient.ZoneGeometries | app/nws_client.py:33-49 | every zone geometry collected is a Polygon or MultiPolygon |
| NwsClient.ZoneGeometriesConcat | app/nws_client.py:33-49 | zone URLs contribute independently and in URL order, so one failing URL does not stop the later ones |
| NwsClient.CollectZoneGeometries | app/nws_client.py:33-49 | the loop, swallowing per-URL failures, yields exactly the URL-ordered contributions |
| NwsClient.ChooseGeometriesForAlert | app/nws_client.py:52-68 | the geometries are the chosen ones; sources and geometries have equal length; the alert's own polygon comes first tagged "alert.geometry", then the zone polygons tagged "affectedZones" |
| NwsClient.ChosenGeometries | app/nws_client.py:52-68 | the geometries chosen for an alert are all polygonal, start with the alert's own polygon, and are none when it has no polygon and no zones |
| Zones.GeoJsonToShape | app/geometry.py:7-12 | None exactly for a missing or non-polygonal geometry; otherwise a shape of the same kind with as many parts |
| Zones.UnionGeometries | app/geometry.py:15-18 | None exactly when there is nothing to unite, else the library's union |
| Zones.CountPoints | app/geometry.py:39-46 | the exterior length of a polygon, the sum over a multi-polygon's parts, 0 for none, empty or other shapes |
| Zones.RingToGbPoints | app/geometry.py:49-55 | empty for no coordinates; otherwise closed, of length n or n+1, point i being {lat: y, lng: x} of coordinate i and the added point the first one |
| Zones.NonEmptyZones | app/geometry.py:74 | keeps exactly the non-empty rings |
| Zones.ZonesOf | app/geometry.py:64-77 | None for non-polygon shapes or when every ring is empty; otherwise one exterior ring per polygon with empty ones dropped |
| Zones.ZonesOfWellFormed | app/geometry.py:49-77 | any payload produced is a non-empty list of non-empty closed rings |
| Zones.ShapeToZones | app/geometry.py:64-77 | the loop builds exactly that payload |
| Zones.SimplifyLoop | app/geometry.py:28-36 | at most the remaining number of library calls; a stop on collapse happens only after a call whose result was empty |
| Zones.SimplifyLoopTolerances | app/geometry.py:26-35 | the k-th library call uses the starting tolerance doubled k times |
| Zones.SimplifyLoopNonEmpty | app/geometry.py:29-32 | a non-empty shape never simplifies to an empty one: a collapse returns the previous shape |
| Zones.SimplifyLoopEarlyStop | app/geometry.py:28-36 | the loop ends early only on a collapse or on reaching the point cap |
| Zones.SimplificationDisabled | app/geometry.py:21-25 | with simplification off or no tolerance the shape comes back unchanged with no library call |
| Zones.SimplifyShape | app/geometry.py:21-36 | the loop computes the bounded simplification and keeps a non-empty shape non-empty |
| Zones.SimplifyRepeatedly | app/geometry.py:26-36 | the loop returns the result of the bounded simplification run: the previous shape when a candidate is empty, the first candidate within the budget, or the tenth |
| Zones.ShapeToGbZones | app/geometry.py:86-96 | the result is the conversion: None for no shape or an empty one; the unsimplified zones when simplification is on with a cap and they fit it; otherwise the zones of the simplified shape; any payload is well formed |
| Zones.GbZones | app/geometry.py:86-96 | the conversion of a shape gives None for no or an empty shape, and any payload it gives is well formed |
| GoodBarber.AbsUrl | app/gb_client.py:57-58 | the result ends with the path, preceded by the base with exactly its trailing slashes removed |
| GoodBarber.TagEndAt | app/gb_client.py:30-33 | a hidden-input tag found at a position lies within the page and has at least the tag's minimum length |
| GoodBarber.TagIsHiddenTag | app/gb_client.py:30-33 | the text the scanner delimits is a hidden-input tag |
| GoodBarber.HiddenTags | app/gb_client.py:63 | every tag found is a hidden-input tag |
| GoodBarber.HiddenTagIsTagEnd | app/gb_client.py:30-33 | a hidden-input tag spanning a piece of the page is exactly what the scanner delimits at its start |
| GoodBarber.HiddenTagsEmpty | app/gb_client.py:63 | `findall` finds nothing exactly when no hidden-input tag starts at or after the search position |
| GoodBarber.HiddenTagsFirst | app/gb_client.py:63 | otherwise its first tag is the one at the leftmost position where a tag starts, and the rest are found after that tag ends |
| GoodBarber.QuotedAt | app/gb_client.py:34-35 | a quoted attribute value contains no quote and has the pattern's minimum length |
| GoodBarber.SearchQuoted | app/gb_client.py:64-69 | a search result is the match at the leftmost matching position of the tag; none exactly when no position matches |
| GoodBarber.NameOf | app/gb_client.py:34 | a found name is non-empty |
| GoodBarber.InputsOf | app/gb_client.py:63-69 | one parsed input per tag, in tag order |
| GoodBarber.FieldsKeys | app/gb_client.py:61-71 | a field exists exactly for the names some tag carries, so tags without a name are skipped |
| GoodBarber.LastInputWins | app/gb_client.py:70 | the value kept for a name is that of the last tag carrying it |
| GoodBarber.ParseHiddenInputs | app/gb_client.py:61-71 | the loop yields exactly the fields of the page's hidden inputs |
| GoodBarber.IsLoggedIn | app/gb_client.py:91-127 | false on an exception, any redirect, any non-200 status or login markers; true exactly for a 200 with push-form and zones markers and no login markers |
| GoodBarber.LoginRequests | app/gb_client.py:130-147 | no request without credentials; otherwise the login page GET, then the form POST only when the GET answered |
| GoodBarber.Login | app/gb_client.py:130-153 | missing credentials fail before any request; a failed request raises; a 200 with "Cannot login" is a rejection; a 301/302 and every other answer succeed |
| GoodBarber.PushPageFields | app/gb_client.py:156-159 | a failed or 4xx/5xx push page gives nothing; otherwise its hidden fields |
| GoodBarber.Payload | app/gb_client.py:175-199 | every harvested field is present; the fixed fields override harvested ones; other harvested values are kept; nothing else is added; the honeypot `address` is "" |
| GoodBarber.RetryFacts | app/gb_client.py:204-227 | at most four POSTs; only timeouts are retried; no response exactly when all four time out, with one pause per POST, else one pause fewer than POSTs |
| GoodBarber.RetryGivesUp | app/gb_client.py:204-227 | from any attempt on, the loop ends with no response exactly when every remaining attempt times out |
| GoodBarber.RetryPauses | app/gb_client.py:214-221 | the pause after the timeout of attempt k is 2^(k+1) seconds plus that attempt's jitter |
| GoodBarber.BackoffBounds | app/gb_client.py:216 | the pause after timeout k is 2^(k+1) seconds plus between 1 and 2 |
| GoodBarber.ReplaceNewlines | app/gb_client.py:238 | each newline becomes a space, nothing else changes |
| GoodBarber.BodyExcerpt | app/gb_client.py:238-240 | the logged body is at most 300 characters and is the cleaned body when that fits |
| GoodBarber.PostWithRetry | app/gb_client.py:204-227 | the loop's attempts, pauses and ending are those of the retry run |
| GoodBarber.SendPush | app/gb_client.py:162-247 | the push page is fetched first; its failure raises before any POST; otherwise the payload is posted with retries, and ok means a 301/302 to the history path |
| Calendar.DaysInMonth | app/service.py:127 | every month has 28 to 31 days |
| Calendar.Weekday | app/service.py:130 | a weekday number below 7 |
| Calendar.WeekdayName | app/service.py:130 | `%A` is one of the seven English day names |
| Calendar.YearLength | app/service.py:127 | a year lasts 366 days when leap and 365 otherwise |
| Calendar.MonthsFillYear | app/service.py:127 | the months add up to the year's length |
| Calendar.NextDayAdvancesWeekday | app/service.py:127-130 | the day after a valid date is valid, one day number later, and its weekday is the next one |
| Calendar.NextMonthStep | app/service.py:127 | the first of a month follows the last day of the month before |
| Calendar.NextYearStep | app/service.py:127 | 1 January follows 31 December |
| Calendar.WeekdayFollows | app/service.py:130 | consecutive day numbers have consecutive weekdays |
| Calendar.Anchors | app/service.py:130 | 1 January of year 1 is a Monday and 15 October 2026 a Thursday |
| Formatter.CleanProperties | app/service.py:93-94 | the cleaned line has the same words in order, no edge whitespace, single spaces only, and cleaning is idempotent |
| Formatter.ExtractTitle | app/service.py:97-103 | the text before the first `: ` when that colon is followed by a space; otherwise the text before the first case-insensitive " issued"; always trimmed |
| Formatter.Hour12 | app/service.py:107 | the hour is 1..12, congruent mod 12, with 0 and 12 both shown as 12 |
| Formatter.Meridiem | app/service.py:108 | "AM" exactly for hours before noon, else "PM" |
| Formatter.TwoDigits | app/service.py:109 | the minutes as two digits denoting them |
| Formatter.ParseTime | app/service.py:125 | a time is accepted exactly when the hour is 1-2 digits denoting 1..12, the minutes 1-2 digits denoting at most 59, only spaces precede the meridiem and it is A or P; an accepted time has PM exactly for afternoon hours |
| Formatter.ParseTimeExamples | app/service.py:125 | "12:05 AM" is 00:05, "12:05pm" is 12:05, hour 13 and minute 60 are rejected |
| Formatter.RenderedIsTimeText | app/service.py:106-109 | the rendered time has the shape the time pattern accepts |
| Formatter.ParseRenderedTime | app/service.py:125 | parsing a rendered time gives back that time |
| Formatter.SkipSpace | app/service.py:32 | `\s*` consumes exactly the maximal whitespace run |
| Formatter.Run | app/service.py:32 | a run consumes exactly the maximal run of matching characters |
| Formatter.TimeAt | app/service.py:32 | a matched time has a 1-2 digit hour, two-digit minutes, only whitespace before the meridiem, and A or P |
| Formatter.UntilAt | app/service.py:32 | a matched "until" keyword ends within the text |
| Formatter.LongAt | app/service.py:31-34 | a long-form match has a letters-only month and a 1-2 digit day |
| Formatter.LongFromMonth | app/service.py:32 | the part after the month: a letters-only month and a 1-2 digit day |
| Formatter.LongFromDay | app/service.py:32 | the day of a long-form match has 1-2 digits |
| Formatter.NumAt | app/service.py:35-38 | a numeric-form match has 1-2 digit month and day |
| Formatter.NumDate | app/service.py:36 | the month/day part has 1-2 digits each |
| Formatter.FirstMatch | app/service.py:121 | `search` finds the leftmost match, or none when no position matches |
| Formatter.SearchFindsLeftmost | app/service.py:121-133 | a pattern search that succeeds returns the match at the leftmost position where the pattern matches |
| Formatter.SearchNoneMeansNoMatch | app/service.py:121-133 | a pattern search fails exactly when the pattern matches at no position |
| Formatter.LongSearch | app/service.py:121 | a long-form search result is the match at the leftmost matching position, and has a 1-2 digit day; none exactly when no position matches |
| Formatter.NumSearch | app/service.py:133 | a numeric-form search result is the match at the leftmost matching position, with digit month and day; none exactly when no position matches |
| Formatter.MonthNumber | app/service.py:39-58 | a month name maps case-insensitively to its number 1..12, and unknown names to none |
| Formatter.PlainMessage | app/service.py:119 | the plain message starts with the warning, the title and " issued" |
| Formatter.UntilMessage | app/service.py:128-131 | the "until" message starts with the warning, the title and " issued" |
| Formatter.DatedMessage | app/service.py:126-131 | building the date fails exactly for an invalid date; otherwise it names the date's weekday |
| Formatter.NumOutcome | app/service.py:133-144 | no numeric match gives the plain message; a numeric match with a bad time fails; otherwise it is the dated message for the matched month, day and parsed time; any message starts with the title and " issued" |
| Formatter.FormatNotification | app/service.py:112-144 | every message starts with the warning, the extracted title and " issued" |
| Formatter.PlainWithoutUntil | app/service.py:118-144 | without " until ", or when neither pattern matches, the message is exactly the plain one |
| Formatter.LongFormFirst | app/service.py:121-131 | a long-form match with a known month and a valid time decides the message, before the numeric form; an impossible date fails |
| Formatter.UnknownMonthFallsThrough | app/service.py:121-133 | a long-form match with an unknown month falls through to the numeric form; its time is parsed first, and a bad time fails |
| Formatter.NumericFormWithoutLong | app/service.py:116-141 | with " until " present and no long-form match, a numeric match decides the message: it fails on a bad time, else it is the dated message for the matched date and time |
| Formatter.Truncate | app/service.py:313-314 | a message over 250 characters becomes its first 247 plus "..." (exactly 250); shorter ones are unchanged |
| Formatter.TruncateIdempotent | app/service.py:313-314 | truncating twice is truncating once |
| Service.ParamsFor | app/service.py:175-182 | query parameters are sent exactly on page 0 |
| Service.WalkedRequest | app/service.py:177-183 | requesting a URL not fetched before, the start URL or the resolved next link, keeps the walk's invariant: distinct URLs, consecutive indices |
| Service.WalkedYield | app/service.py:183-187 | yielding the fetched document as the next page keeps the invariant |
| Service.UrlsOfSnoc | app/service.py:178-180 | sending a request adds its URL to the set of seen URLs |
| Service.AlertPager.constructor | app/service.py:171-175 | the walk starts at the start URL with nothing sent or yielded |
| Service.AlertPager.Next | app/service.py:177-194 | each resumption sends at most one request; a yielded page has the next index; once the walk is over nothing more is sent or yielded; it raises exactly when the last request failed; the walk invariant (distinct URLs, start URL first, each next URL the resolved link) is kept |
| Service.AlertPager.Advance | app/service.py:189-194 | following the next link sends nothing; without a link the walk ends |
| Service.AlertPager.Request | app/service.py:178-183 | a fresh URL is recorded and fetched; the page is yielded, or the walk ends or raises |
| Service.AlertPager.Send | app/service.py:178-183 | the URL joins the seen set and the request for the current page index is recorded, keeping the walk invariant |
| Service.AlertPager.Stop | app/service.py:178-179 | a URL seen before ends the walk without a request |
| Service.AlertPager.Receive | app/service.py:183-187 | an error raises, no document ends the walk, and a document is yielded as the next page |
| Service.KeyAfter | app/service.py:220-237 | the remembered month becomes the current one exactly when a prune runs |
| Service.PruneCutoff | app/service.py:223-224 | the cutoff is 30 days (30 * 86400 seconds) before now |
| Service.KeyHeld | app/service.py:220-237 | after a prune in a month, the remembered month stays that month while readings stay in it |
| Service.AtMostOncePerMonth | app/service.py:217-237 | two readings of the same month never both prune |
| Service.Fresh | app/service.py:253-258 | a feature is new exactly when it has an id not in the ledger |
| Service.Refreshed | app/service.py:254-260 | the ledger keeps its ids and first sightings; exactly the ids on the page get last sighting now |
| Service.RefreshedStep | app/service.py:254-260 | one more feature upserts its id exactly when that id is already in the ledger, and changes nothing else |
| Service.PartitionIsExact | app/service.py:253-260 | an identified feature is new exactly when its id is absent; it is refreshed exactly when it is not new |
| Service.RawMessage | app/service.py:311 | the message source is the headline, else the event, never empty |
| Service.ZonesFor | app/service.py:299-304 | the zones pushed for an alert's polygons are well formed, and there are none when there are no polygons |
| Service.ShapesOf | app/service.py:299-300 | dropping unconvertible geometries never adds any; all-polygonal inputs all convert |
| Service.MessageFor | app/service.py:311-314 | a message exists exactly when formatting succeeds, and it is at most 250 characters |
| Service.PushCount | app/service.py:324 | no more answered pushes than alerts handled |
| Service.RememberedIdsSnoc | app/service.py:287-330 | one more handled alert adds its id to the remembered ones exactly when it is remembered |
| Service.Remembered | app/service.py:287-330 | marking ids seen adds exactly those ids; each is last seen now and keeps its first sighting when it was held; other records are untouched |
| Service.RememberedSnoc | app/storage.py:30-52 | marking one more id after a batch is marking the enlarged batch |
| Service.PagesProcessedSnoc | app/service.py:249-330 | a processed run of pages extended by one more page processed from the last ledger is still a processed run |
| Service.WalkOnlyAddsPageIds | app/service.py:249-330 | over the pages of a walk the ledger only grows, and every id it gains is the id of an alert on one of those pages |
| Service.RememberedIdsOnPage | app/service.py:253-330 | the ids a page's handling remembers are ids of features on that page |
| Service.PauseStep | app/service.py:324-326 | the long pause falls on every 24th answered push |
| Service.Poller.constructor | app/service.py:217 | no month has been pruned yet |
| Service.Poller.PruneIfDue | app/service.py:219-237 | on the first day of a month not yet pruned, records last seen over 30 days ago are deleted and the month remembered; otherwise nothing changes |
| Service.Poller.Partition | app/service.py:252-260 | the new alerts are the unseen identified features in order, and the seen ones are refreshed |
| Service.Poller.HandleAlert | app/service.py:270-330 | ignored events and non-"Alert" messages are skipped unmarked; no chosen polygon marks seen; a failed conversion leaves it unmarked; a format failure raises; otherwise exactly the formatted message and the converted zones are pushed, and it is marked seen only when there is no polygon or the push succeeded |
| Service.Poller.PushAlert | app/service.py:299-326 | a failed conversion or format gives up without a push, each exactly when it happens; otherwise the formatted, truncated message and the converted zones are handed to the sender, and the outcome is what the sender answered |
| Service.Poller.HandleOne | app/service.py:270-330 | the ledger after one alert: its id is upserted exactly when its handling remembers it, and nothing else changes |
| Service.Poller.ProcessPage | app/service.py:250-330 | the page's new alerts are handled in order until one raises; the new ledger is the old one with the page's seen ids refreshed and the remembered new ids added; one pause per 24 answered pushes on this page |
| Service.Poller.HandleNewAlerts | app/service.py:270-330 | the loop stops exactly at the first raising alert; the new ledger is the old one with exactly the remembered ids marked seen now; the counter, reset per page, pauses every 24 answered pushes |
| Service.Poller.Cycle | app/service.py:218-350 | the prune guard runs first; a failed session check and login ends the cycle before any feed request with the ledger as pruned; otherwise the feed is walked cycle-free, each page taking the ledger one step, and the cycle reports an error exactly when a fetch or the last page raised |
| Service.Poller.WalkFeed | app/service.py:248-350 | the pages processed are those the walk yielded, requested at distinct URLs with consecutive indices; each page takes the ledger from one snapshot to the next, starting from the ledger before the walk; it reports an error exactly when the last fetch or the last page raised |
| Service.Poller.WalkPages | app/service.py:249-350 | the loop over the generator keeps the walk invariant and the page-by-page ledger record, and ends reporting an error exactly when the last fetch or the last page raised |
| Service.Poller.WalkStep | app/service.py:249-350 | one resumption adds at most one page, processed from the current ledger; the walk goes on only after a page whose handling did not raise |
| Service.Poller.ProcessWalkedPage | app/service.py:250-330 | processing a yielded page extends the record of processed pages by that page and the ledger after it |
| Legacy.FarthestPoint | pollAndAlert.py:140-146 | the index of the interior point farthest from the chord, the first on a tie, and its distance |
| Legacy.KeepsJoin | pollAndAlert.py:148-151 | joining the two halves, dropping the shared split point, keeps a subsequence of the points with both ends |
| Legacy.Rdp | pollAndAlert.py:121-152 | fewer than 3 points come back unchanged; otherwise a subsequence of the input that keeps both ends and is no longer; only the ends when no interior point is farther than epsilon; at least 3 points otherwise |
| Legacy.Close | pollAndAlert.py:155-157 | the ring is closed, unchanged if it already was, at most one point longer, with the same points |
| Legacy.Stride | pollAndAlert.py:177-178 | `best[::step]` starts with the first point, uses only input points, and its last index (count - 1) times the step stays within the ring |
| Legacy.StrideBound | pollAndAlert.py:176-178 | with step = ceil(n / max), the stride keeps at most max points |
| Legacy.ShrinkRingToMax | pollAndAlert.py:154-195 | the result is closed and made of input points; after the stride fallback at most max+1 points; the preferred phase only shortens to at most max; epsilon never below 0.001; at most 30 + 12 rdp calls |
| Legacy.RdpClosed | pollAndAlert.py:163-165 | rdp followed by re-closing yields a closed ring of input points, no longer than the ring |
| Legacy.ToLatLng | pollAndAlert.py:216 | each (lon, lat) becomes {lat, lng} with the axes swapped |
| Legacy.ZonesPayload | pollAndAlert.py:197-202 | the payload as documented, a list of rings, holding the shrunk ring; well formed when the ring is closed |
| Legacy.LegacyPayloadNested | pollAndAlert.py:216-217 | the payload as built is a one-element list whose element is the documented payload |
| Legacy.GeoJsonPolygonToZones | pollAndAlert.py:197-217 | a result exactly for a Polygon whose outer ring has at least 4 positions; original_n is that ring's length; the shrunk ring is closed, of input points, at most 21 long, and swapped into the payload |
| Legacy.FirstSightings | pollAndAlert.py:491-498 | the new features have ids not seen before, come from the page, and are no more than the page |
| Legacy.FirstSightingsDistinct | pollAndAlert.py:493-498 | the new features carry pairwise distinct ids |
| Legacy.FirstSightingsIds | pollAndAlert.py:493-498 | the new features carry exactly the page's ids that were not seen before |
| Legacy.Message | pollAndAlert.py:522-524 | "event: headline" stripped, unchanged when it fits, never over 250 characters |
| Legacy.LegacyPoller.constructor | pollAndAlert.py:455-457 | no id seen; no validators for any of the three states |
| Legacy.LegacyPoller.Dedup | pollAndAlert.py:491-498 | the new features are the first sightings, and every id on the page enters the set whatever then happens to the alert |
| Legacy.ScanPage | pollAndAlert.py:491-498 | the scan over a page returns the features whose id is non-empty and seen for the first time, in page order, and the set grows by every id on the page |
| Legacy.LegacyPoller.PollState | pollAndAlert.py:476-498 | a failed fetch reports an error and changes nothing; a 304 changes nothing but the state's validators; a page updates them and returns its first sightings |

## Left out

- HTTP sessions, cookies, timeouts and header case-insensitivity are left out: a request is a value and an answer is an `Outcome`. Saving and loading pickled cookies is left out because it is file I/O whose errors the code swallows.
- The SQLite engine, SQL text and commits are left out: the table is a map. Timestamps are integers: the ISO-8601 text the code stores has one fixed width, so it sorts like the instant.
- `setup_logging`, `prune_logs_before`, `_format_union_type` and every log line are left out because they only touch logging and the filesystem. The failed-push body excerpt of app/service.py:336-348 is logging only.
- The geometry library (`shape` orientation, `unary_union`, `simplify`), floating-point arithmetic, `math.hypot` and `json.dumps` are left out: they are parameters, coordinates are reals compared for equality, and the zone JSON is an input to the push.
- Zones.SimplifyShape: the final point count is not bounded by the cap, because the code returns whatever it has after ten rounds.
- The regular expressions are hand-written scanners. Case folding is ASCII only, `\d` means ASCII digits, and `\b` means "not preceded by a letter, digit or underscore" (ASCII).
- `datetime.now`, `time.sleep` and `random.uniform` are left out: the clock is a parameter, the jitter is a draw within its range, and pauses are returned as counts and durations, not slept. `today_strings_local` is the `LocalStamp` parameter.
- The `while True` loops are reduced to one cycle (`Service.Poller.Cycle`, `Legacy.LegacyPoller.PollState` for one state).
- Service.Poller.WalkFeed: the walk takes a page bound `maxPages`, because `urljoin` is abstract and a feed of ever-new links would never end. Within the bound it is the source's walk.
- Zones.RingToGbPoints: a position is a longitude and a latitude only. A GeoJSON position with a third coordinate (altitude) makes the two-name unpacking raise in app/geometry.py:49-55 and pollAndAlert.py:210, and that exception ends the whole walk through the handler at app/service.py:349; the model has no such positions and so no such failure.
- Zones.GeoJsonToShape: never fails. `shape()` raises on a ring with fewer than four positions, and that exception would likewise end the walk; the model builds the shape regardless.
- Service.Env: the push sender is a function of the message and zones. `GoodBarber.SendPush` models the sender itself, with the push page, payload and retries as inputs.
- GoodBarber.SendPush: the harvested form and the local stamp are inputs. The POST's answer is one outcome per attempt.
- Legacy.ShrinkRingToMax: requires a non-empty ring and a cap of at least 1. The code fails with an index or division error otherwise, and its only caller passes at least four points and a cap of 20.
- Legacy.Rdp: states which points survive only through the subsequence, the two ends and the threshold on the farthest point. The distances are abstract.
- The old script's copies of `fetch_json`, `abs_url`, `parse_hidden_inputs`, `gb_is_logged_in`, `gb_login` and `gb_get_push_hidden_inputs` (pollAndAlert.py:109-119, 102-103, 269-279, 297-376) are not modelled twice. They match the `NwsClient` and `GoodBarber` members.
- The old `gb_send_push` (pollAndAlert.py:377-442) is the same as the modelled one but without the retry loop: a single POST.
- `find_first_zone_polygon`, `choose_polygon_for_alert` and the old per-alert push loop (pollAndAlert.py:219-252, 502-536) are left out, except the message it builds (`Legacy.Message`, pollAndAlert.py:522-524). They are network lookups and console output around the modelled conversion and message.
- `_load_dotenv` reading the file is left out: the file is given as its lines, `None` when missing. Module-level constants such as the header maps, paths and limits are constants or parameters.

## Findings

| source | as written | input that shows it | evidently intended | confidence | as-written member | corrected member |
|---|---|---|---|---|---|---|
| pollAndAlert.py:216-217 | `geojson_polygon_to_goodbarber_zones` returns `[[gb_points]]`, where `gb_points` is already the list of points: a list holding a list of rings | any Polygon with an outer ring of 4 or more positions, such as a closed square, gives a payload whose one element is itself a list of rings | the documented shape `[[{lat,lng}...]]`, the list of rings the newer conversion sends | medium, not executed | Legacy.LegacyPayloadNested | Legacy.ZonesPayload |
