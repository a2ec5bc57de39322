/** The push dashboard's client: hidden form fields harvested from the
    markup, the authentication probe and the login rules, the push form
    payload, the bounded retry on timeouts, and the success test. HTTP
    exchanges are values: a page fetch is the `Outcome` it produced, and the
    attempts of a POST are the outcomes indexed by attempt number. */
module GoodBarber {
  import opened Wrappers
  import opened Text
  import opened Http

  const LoginPath := "/manage/"
  const PushSendPath := "/manage/users/push/send/"
  const PushHistoryPath := "/manage/users/push/history/"

  /** The browser-like headers of every dashboard request; `Origin` is the
      dashboard base. */
  function BaseHeaders(dashboardBase: string): map<string, string> {
    map[
      "User-Agent" := "Mozilla/5.0 (X11; Linux x86_64) Gecko/20100101 Firefox/146.0",
      "Accept" := "text/html,application/xhtml+xml,application/xml;q=0.9,*/*;q=0.8",
      "Accept-Language" := "en-US,en;q=0.5",
      "Content-Type" := "application/x-www-form-urlencoded",
      "Origin" := dashboardBase]
  }

  predicate IsSlash(c: char) { c == '/' }

  /** `abs_url`: the base without its trailing slashes, then the path. */
  function AbsUrl(dashboardBase: string, path: string): (r: string)
    ensures |path| <= |r| && r[|r| - |path|..] == path
    ensures var b := r[..|r| - |path|];
      && b <= dashboardBase
      && (b == [] || b[|b| - 1] != '/')
      && forall k :: |b| <= k < |dashboardBase| ==> dashboardBase[k] == '/'
  {
    var b := RStrip(dashboardBase, IsSlash);
    assert b <= dashboardBase && (b == [] || b[|b| - 1] != '/');
    b + path
  }

  // ---------------------------------------------------------------------
  // Hidden inputs

  predicate IsQuote(c: char) { c == '"' || c == '\'' }
  predicate IsCloseAngle(c: char) { c == '>' }

  /** `type=` quote `hidden` quote at `j`, ignoring case; thirteen characters. */
  predicate HiddenTypeAt(s: string, j: nat) {
    j + 13 <= |s| && MatchesAt(s, j, "type=") && IsQuote(s[j + 5])
    && MatchesAt(s, j + 6, "hidden") && IsQuote(s[j + 12])
  }

  /** Where a hidden-input tag that starts at `p` ends (exclusive): the tag
      opens with `<input`, runs to the first `>`, and holds the hidden type
      after at least one character. None when no such tag starts at `p`. */
  function TagEndAt(s: string, p: nat): (e: Option<nat>)
    ensures e.Some? ==> p + 20 <= e.value <= |s|
  {
    if !MatchesAt(s, p, "<input") then None
    else match FindChar(s, p + 6, IsCloseAngle)
      case None => None
      case Some(close) =>
        if exists j :: p + 7 <= j <= close - 13 && HiddenTypeAt(s, j) then Some(close + 1) else None
  }

  /** A complete hidden-input tag, as a string of its own. */
  predicate IsHiddenTag(t: string) {
    && MatchesAt(t, 0, "<input")
    && |t| >= 20 && t[|t| - 1] == '>'
    && (forall k :: 6 <= k < |t| - 1 ==> t[k] != '>')
    && exists j :: 7 <= j <= |t| - 14 && HiddenTypeAt(t, j)
  }

  lemma MatchesAtSlice(s: string, p: nat, e: nat, i: nat, pat: string)
    requires p <= i && i + |pat| <= e <= |s| && MatchesAt(s, i, pat)
    ensures MatchesAt(s[p..e], i - p, pat)
  {
    forall k | 0 <= k < |pat| ensures LowerChar(s[p..e][i - p + k]) == pat[k] {
      assert s[p..e][i - p + k] == s[i + k];
    }
  }

  lemma TagIsHiddenTag(s: string, p: nat)
    requires TagEndAt(s, p).Some?
    ensures IsHiddenTag(s[p..TagEndAt(s, p).value])
  {
    var e := TagEndAt(s, p).value;
    var t := s[p..e];
    var close := FindChar(s, p + 6, IsCloseAngle).value;
    assert e == close + 1;
    var j :| p + 7 <= j <= close - 13 && HiddenTypeAt(s, j);
    assert forall k :: 0 <= k < |t| ==> t[k] == s[p + k];
    MatchesAtSlice(s, p, e, j, "type=");
    MatchesAtSlice(s, p, e, j + 6, "hidden");
    assert t[j - p + 5] == s[j + 5] && t[j - p + 12] == s[j + 12];
    assert HiddenTypeAt(t, j - p);
    MatchesAtSlice(s, p, e, p, "<input");
    forall k | 6 <= k < |t| - 1 ensures t[k] != '>' {
      assert t[k] == s[p + k] && p + 6 <= p + k < close;
    }
  }

  /** The converse: a hidden-input tag standing in the text at `p` is what
      the scanner delimits there. */
  lemma HiddenTagIsTagEnd(s: string, p: nat, e: nat)
    requires p <= e <= |s| && IsHiddenTag(s[p..e])
    ensures TagEndAt(s, p) == Some(e)
  {
    var t := s[p..e];
    assert forall k :: 0 <= k < |t| ==> t[k] == s[p + k];
    assert MatchesAt(s, p, "<input") by {
      forall k | 0 <= k < 6 ensures LowerChar(s[p + k]) == "<input"[k] {
        assert s[p + k] == t[k];
      }
    }
    forall k | p + 6 <= k < e - 1 ensures !IsCloseAngle(s[k]) {
      assert s[k] == t[k - p];
    }
    assert IsCloseAngle(s[e - 1]) by { assert s[e - 1] == t[|t| - 1]; }
    var close := FindChar(s, p + 6, IsCloseAngle);
    assert close == Some(e - 1);
    var j :| 7 <= j <= |t| - 14 && HiddenTypeAt(t, j);
    assert HiddenTypeAt(s, p + j) by {
      forall m | j <= m < j + 13 ensures s[p + m] == t[m] {
        assert t[m] == s[p + m];
      }
    }
  }

  /** `findall` of the hidden-input pattern from `p`: leftmost matches, each
      search resuming where the previous tag ended. */
  function HiddenTags(s: string, p: nat): (tags: seq<string>)
    ensures forall i :: 0 <= i < |tags| ==> IsHiddenTag(tags[i])
    decreases |s| - p
  {
    if p >= |s| then []
    else match TagEndAt(s, p)
      case Some(e) =>
        TagIsHiddenTag(s, p);
        [s[p..e]] + HiddenTags(s, e)
      case None => HiddenTags(s, p + 1)
  }

  /** `findall` finds nothing exactly when no hidden-input tag starts at or
      after `p`. */
  lemma {:induction false} HiddenTagsEmpty(s: string, p: nat)
    ensures HiddenTags(s, p) == [] <==> forall q :: p <= q < |s| ==> TagEndAt(s, q).None?
    decreases |s| - p
  {
    if p < |s| && TagEndAt(s, p).None? {
      assert HiddenTags(s, p) == HiddenTags(s, p + 1);
      HiddenTagsEmpty(s, p + 1);
    }
  }

  /** Otherwise its first tag is the one at the leftmost position where a
      hidden-input tag starts, and the rest are found after that tag's end. */
  lemma {:induction false} HiddenTagsFirst(s: string, p: nat)
    requires HiddenTags(s, p) != []
    ensures exists q :: (p <= q < |s| && TagEndAt(s, q).Some?
      && (forall q' :: p <= q' < q ==> TagEndAt(s, q').None?)
      && HiddenTags(s, p) == [s[q..TagEndAt(s, q).value]] + HiddenTags(s, TagEndAt(s, q).value))
    decreases |s| - p
  {
    if TagEndAt(s, p).None? {
      assert HiddenTags(s, p) == HiddenTags(s, p + 1);
      HiddenTagsFirst(s, p + 1);
      var q :| p + 1 <= q < |s| && TagEndAt(s, q).Some?
        && (forall q' :: p + 1 <= q' < q ==> TagEndAt(s, q').None?)
        && HiddenTags(s, p + 1) == [s[q..TagEndAt(s, q).value]] + HiddenTags(s, TagEndAt(s, q).value);
      assert forall q' :: p <= q' < q ==> TagEndAt(s, q').None?;
    }
  }

  /** `key` (like `name=`), a quote, then the text up to the next quote of
      either kind, of at least `minLen` characters. */
  function QuotedAt(t: string, j: nat, key: string, minLen: nat): (r: Option<string>)
    ensures r.Some? ==> |r.value| >= minLen && forall k :: 0 <= k < |r.value| ==> !IsQuote(r.value[k])
  {
    if !MatchesAt(t, j, key) || j + |key| >= |t| || !IsQuote(t[j + |key|]) then None
    else match FindChar(t, j + |key| + 1, IsQuote)
      case None => None
      case Some(k) => if k - (j + |key| + 1) >= minLen then Some(t[j + |key| + 1..k]) else None
  }

  /** The regex `search`: the leftmost position from `j` where `QuotedAt`
      matches. */
  function SearchQuoted(t: string, key: string, minLen: nat, j: nat): (r: Option<string>)
    ensures r.Some? ==> exists i :: j <= i < |t| && QuotedAt(t, i, key, minLen) == r
                                   && (forall i' :: j <= i' < i ==> QuotedAt(t, i', key, minLen).None?)
    ensures r.None? ==> forall i :: j <= i < |t| ==> QuotedAt(t, i, key, minLen).None?
    decreases |t| - j
  {
    if j >= |t| then None
    else if QuotedAt(t, j, key, minLen).Some? then QuotedAt(t, j, key, minLen)
    else SearchQuoted(t, key, minLen, j + 1)
  }

  /** The tag's `name="..."` (non-empty), if any. */
  function NameOf(tag: string): (r: Option<string>)
    ensures r.Some? ==> r.value != []
  {
    SearchQuoted(tag, "name=", 1, 0)
  }

  /** The tag's `value="..."`, "" when it has none. */
  function ValueOf(tag: string): string {
    match SearchQuoted(tag, "value=", 0, 0)
    case None => ""
    case Some(v) => v
  }

  /** What one harvested tag says: its name, if any, and its value. */
  datatype HiddenInput = HiddenInput(name: Option<string>, value: string)

  function InputOf(tag: string): HiddenInput {
    HiddenInput(NameOf(tag), ValueOf(tag))
  }

  function InputsOf(tags: seq<string>): (inputs: seq<HiddenInput>)
    ensures |inputs| == |tags|
    ensures forall i :: 0 <= i < |tags| ==> inputs[i] == InputOf(tags[i])
  {
    seq(|tags|, i requires 0 <= i < |tags| => InputOf(tags[i]))
  }

  /** The fields the inputs define, in order, a later input overriding an
      earlier one with the same name; nameless inputs are skipped. */
  function Fields(inputs: seq<HiddenInput>): map<string, string> {
    if inputs == [] then map[]
    else
      var last := inputs[|inputs| - 1];
      var m := Fields(inputs[..|inputs| - 1]);
      match last.name
      case None => m
      case Some(name) => m[name := last.value]
  }

  /** The result of `parse_hidden_inputs` on a page. */
  function HiddenFields(html: string): map<string, string> {
    Fields(InputsOf(HiddenTags(html, 0)))
  }

  /** One field per named input: a name is present exactly when some input
      carries it. */
  lemma {:induction false} FieldsKeys(inputs: seq<HiddenInput>)
    ensures forall k :: k in Fields(inputs) <==> exists i :: 0 <= i < |inputs| && inputs[i].name == Some(k)
    decreases |inputs|
  {
    if inputs != [] {
      var init := inputs[..|inputs| - 1];
      FieldsKeys(init);
      forall k ensures k in Fields(inputs) <==> exists i :: 0 <= i < |inputs| && inputs[i].name == Some(k) {
        if k in Fields(init) {
          var i :| 0 <= i < |init| && init[i].name == Some(k);
          assert inputs[i] == init[i];
        }
        if exists i :: 0 <= i < |inputs| && inputs[i].name == Some(k) {
          var i :| 0 <= i < |inputs| && inputs[i].name == Some(k);
          if i < |init| {
            assert init[i] == inputs[i];
          }
        }
      }
    }
  }

  /** The value kept for a name is that of the last input carrying it. */
  lemma {:induction false} LastInputWins(inputs: seq<HiddenInput>, i: nat)
    requires i < |inputs| && inputs[i].name.Some?
    requires forall j :: i < j < |inputs| ==> inputs[j].name != inputs[i].name
    ensures inputs[i].name.value in Fields(inputs)
    ensures Fields(inputs)[inputs[i].name.value] == inputs[i].value
    decreases |inputs|
  {
    var init := inputs[..|inputs| - 1];
    if i < |inputs| - 1 {
      assert init[i] == inputs[i];
      forall j | i < j < |init| ensures init[j].name != init[i].name {
        assert init[j] == inputs[j];
      }
      LastInputWins(init, i);
    }
  }

  /** `parse_hidden_inputs`. */
  method ParseHiddenInputs(html: string) returns (hidden: map<string, string>)
    ensures hidden == HiddenFields(html)
  {
    var tags := HiddenTags(html, 0);
    ghost var inputs := InputsOf(tags);
    hidden := map[];
    for i := 0 to |tags|
      invariant hidden == Fields(inputs[..i])
    {
      assert inputs[..i + 1][..i] == inputs[..i];
      var tag := tags[i];
      var mname := SearchQuoted(tag, "name=", 1, 0);
      if mname.None? {
        continue;
      }
      var mval := SearchQuoted(tag, "value=", 0, 0);
      var val := if mval.Some? then mval.value else "";
      hidden := hidden[mname.value := val];
    }
    assert inputs[..|tags|] == inputs;
  }

  // ---------------------------------------------------------------------
  // Authentication

  /** The push page's GET, without following redirects. */
  function ProbeRequest(dashboardBase: string): Request {
    Request(Get, AbsUrl(dashboardBase, PushSendPath), None, BaseHeaders(dashboardBase), map[])
  }

  predicate HasLoginMarkers(html: string) {
    Contains(html, "id=\"form-index\"") || Contains(html, "name=\"identification\"")
    || Contains(html, "name=\"login\"")
  }

  predicate HasPushMarkers(html: string) {
    Contains(html, "id=\"form-push\"") && Contains(html, "id=\"zones\"")
  }

  /** `gb_is_logged_in` on what the probe produced. */
  function IsLoggedIn(probe: Outcome<string>): (ok: bool)
    ensures !probe.Answered? ==> !ok
    ensures probe.Answered? && IsRedirect(probe.response.status) ==> !ok
    ensures probe.Answered? && probe.response.status != 200 ==> !ok
    ensures probe.Answered? && HasLoginMarkers(probe.response.body) ==> !ok
    ensures ok <==>
      (probe.Answered? && probe.response.status == 200
       && !HasLoginMarkers(probe.response.body) && HasPushMarkers(probe.response.body))
  {
    match probe
    case Answered(resp) =>
      if IsRedirect(resp.status) then false
      else if resp.status != 200 then false
      else if HasLoginMarkers(resp.body) then false
      else HasPushMarkers(resp.body)
    case _ => false
  }

  datatype LoginResult = LoginOk | MissingCredentials | LoginRejected | LoginRaised

  /** The login form. */
  function LoginForm(login: string, password: string): map<string, string> {
    map["identification" := "true", "login" := login, "password" := password]
  }

  /** The requests `gb_login` sends, given what the first one produced. */
  function LoginRequests(dashboardBase: string, login: string, password: string,
                         pageOutcome: Outcome<string>): (sent: seq<Request>)
    ensures login == "" || password == "" ==> sent == []
    ensures login != "" && password != "" ==> 1 <= |sent| <= 2 && sent[0].verb == Get
    ensures |sent| == 2 <==> login != "" && password != "" && pageOutcome.Answered?
    ensures |sent| == 2 ==>
      (sent[1].verb == Post && sent[1].form == LoginForm(login, password)
       && sent[0].url == sent[1].url == AbsUrl(dashboardBase, LoginPath))
  {
    var url := AbsUrl(dashboardBase, LoginPath);
    var headers := BaseHeaders(dashboardBase);
    if login == "" || password == "" then []
    else if !pageOutcome.Answered? then [Request(Get, url, None, headers, map[])]
    else [Request(Get, url, None, headers, map[]), Request(Post, url, None, headers, LoginForm(login, password))]
  }

  /** `gb_login`'s outcome: missing credentials fail before any request; a
      failed request raises; 301/302 is success; a 200 whose page says
      "Cannot login" is a rejection; any other answer returns normally. */
  function Login(login: string, password: string,
                 pageOutcome: Outcome<string>, postOutcome: Outcome<string>): (r: LoginResult)
    ensures r == MissingCredentials <==> login == "" || password == ""
    ensures r == LoginRaised <==> login != "" && password != "" && (!pageOutcome.Answered? || !postOutcome.Answered?)
    ensures r == LoginRejected <==>
      (login != "" && password != "" && pageOutcome.Answered?
       && postOutcome.Answered? && postOutcome.response.status == 200
       && Contains(postOutcome.response.body, "Cannot login"))
    ensures r == LoginOk && postOutcome.Answered? ==>
      postOutcome.response.status != 200 || !Contains(postOutcome.response.body, "Cannot login")
    ensures (postOutcome.Answered? && postOutcome.response.status in {301, 302}
             && login != "" && password != "" && pageOutcome.Answered?) ==> r == LoginOk
  {
    if login == "" || password == "" then MissingCredentials
    else if !pageOutcome.Answered? then LoginRaised
    else match postOutcome
      case Answered(resp) =>
        if resp.status in {301, 302} then LoginOk
        else if resp.status == 200 && Contains(resp.body, "Cannot login") then LoginRejected
        else LoginOk
      case _ => LoginRaised
  }

  // ---------------------------------------------------------------------
  // Push

  /** `gb_get_push_hidden_inputs`: a failed request or a 4xx/5xx status is
      an error; otherwise the page's hidden fields. */
  function PushPageFields(page: Outcome<string>): (r: Option<map<string, string>>)
    ensures r.None? <==> !page.Answered? || IsErrorStatus(page.response.status)
    ensures r.Some? ==> r.value == HiddenFields(page.response.body)
  {
    match page
    case Answered(resp) =>
      if IsErrorStatus(resp.status) then None else Some(HiddenFields(resp.body))
    case _ => None
  }

  /** The local date and time strings the form carries (MM/DD/YYYY,
      YYYY-MM-DD, HH:MM, HH, MM), taken from the clock by the caller. */
  datatype LocalStamp = LocalStamp(pickerDate: string, isoDate: string, heure: string, hh: string, mm: string)

  /** The fields the push form always sends; `zones` is the JSON text of
      the zone payload. */
  function FixedFields(message: string, zonesJson: string, stamp: LocalStamp): map<string, string> {
    map[
      "action" := "mod", "type" := "simple", "message" := message,
      "linktype" := "", "link" := "", "pushDate" := "now",
      "picker-date" := stamp.pickerDate, "date" := stamp.isoDate, "heure" := stamp.heure,
      "hour-heure" := stamp.hh, "minutes-heure" := stamp.mm,
      "platform-target-ios" := "ios", "platform-target-android" := "android",
      "target" := "select", "period_launch" := "none",
      "pwa-target" := "all", "pwa-period_launch" := "none",
      "sound" := "03", "zones" := zonesJson]
  }

  const Honeypot := "address"

  /** The push form: the harvested fields, overridden by the fixed ones,
      with the honeypot field emptied. */
  function Payload(hidden: map<string, string>, message: string, zonesJson: string, stamp: LocalStamp)
    : (p: map<string, string>)
    ensures Honeypot in p && p[Honeypot] == ""
    ensures forall k :: k in hidden ==> k in p
    ensures forall k :: k in FixedFields(message, zonesJson, stamp) ==>
      k in p && p[k] == FixedFields(message, zonesJson, stamp)[k]
    ensures forall k :: k in hidden && k !in FixedFields(message, zonesJson, stamp) && k != Honeypot ==>
      p[k] == hidden[k]
    ensures forall k :: k in p ==> k in hidden || k in FixedFields(message, zonesJson, stamp) || k == Honeypot
    ensures p["message"] == message && p["zones"] == zonesJson
  {
    (hidden + FixedFields(message, zonesJson, stamp))[Honeypot := ""]
  }

  /** A random draw of `random.uniform(1.0, 2.0)`. */
  type Jitter = r: real | 1.0 <= r <= 2.0 witness 1.0

  function TwoTo(n: nat): (p: nat)
    ensures p >= 1
  {
    if n == 0 then 1 else 2 * TwoTo(n - 1)
  }

  /** The pause after the timeout of attempt `k` (counting from 0). */
  function Backoff(k: nat, jitter: Jitter): real {
    TwoTo(k + 1) as real + jitter
  }

  const MaxAttempts: nat := 4

  datatype PostEnd = GotResponse(response: Response<string>) | Raised | NoResponse

  /** The attempts made from attempt `k` on: how they ended, how many POSTs
      were sent and the pauses taken. */
  datatype RetryRun = RetryRun(end: PostEnd, posts: nat, sleeps: seq<real>)

  function RetryFrom(attempts: nat -> Outcome<string>, jitter: nat -> Jitter, k: nat): (run: RetryRun)
    decreases MaxAttempts - k
  {
    if k >= MaxAttempts then RetryRun(NoResponse, 0, [])
    else match attempts(k)
      case TimedOut =>
        var rest := RetryFrom(attempts, jitter, k + 1);
        RetryRun(rest.end, rest.posts + 1, [Backoff(k, jitter(k))] + rest.sleeps)
      case Answered(resp) => RetryRun(GotResponse(resp), 1, [])
      case Failed => RetryRun(Raised, 1, [])
  }

  /** From attempt `k` on, the loop gives up with no response exactly
      when every remaining attempt times out. */
  lemma {:induction false} RetryGivesUp(attempts: nat -> Outcome<string>, jitter: nat -> Jitter, k: nat)
    requires k <= MaxAttempts
    ensures RetryFrom(attempts, jitter, k).end.NoResponse? <==>
      forall i :: k <= i < MaxAttempts ==> attempts(i).TimedOut?
    decreases MaxAttempts - k
  {
    if k < MaxAttempts {
      if attempts(k).TimedOut? {
        RetryGivesUp(attempts, jitter, k + 1);
      } else {
        assert !RetryFrom(attempts, jitter, k).end.NoResponse?;
      }
    }
  }

  /** The retry loop's promises, from attempt `k`: every POST but the last
      timed out, a pause follows each timeout and only a timeout, the
      pauses grow as 2^(k+1) plus the jitter, and the loop gives up with
      no response only when every remaining attempt timed out. */
  lemma {:induction false} RetryFacts(attempts: nat -> Outcome<string>, jitter: nat -> Jitter, k: nat)
    requires k <= MaxAttempts
    ensures var run := RetryFrom(attempts, jitter, k);
      && run.posts <= MaxAttempts - k
      && (k < MaxAttempts ==> run.posts >= 1)
      && (forall i :: k <= i < k + run.posts - 1 ==> attempts(i).TimedOut?)
      && (run.end.NoResponse? <==> forall i :: k <= i < MaxAttempts ==> attempts(i).TimedOut?)
      && (run.end.NoResponse? ==> run.posts == MaxAttempts - k && |run.sleeps| == run.posts)
      && (!run.end.NoResponse? ==>
            |run.sleeps| == run.posts - 1 && !attempts(k + run.posts - 1).TimedOut?)
      && (run.end.GotResponse? ==> attempts(k + run.posts - 1) == Answered(run.end.response))
      && (run.end.Raised? ==> attempts(k + run.posts - 1).Failed?)
      && (forall i :: 0 <= i < |run.sleeps| ==> run.sleeps[i] == Backoff(k + i, jitter(k + i)))
    decreases MaxAttempts - k
  {
    RetryGivesUp(attempts, jitter, k);
    RetryPauses(attempts, jitter, k);
    if k < MaxAttempts && attempts(k).TimedOut? {
      RetryFacts(attempts, jitter, k + 1);
    }
  }

  /** The pauses from attempt `k` on are 2^(k+1), 2^(k+2), ... seconds,
      each plus its attempt's jitter. */
  lemma {:induction false} RetryPauses(attempts: nat -> Outcome<string>, jitter: nat -> Jitter, k: nat)
    ensures var sleeps := RetryFrom(attempts, jitter, k).sleeps;
      forall i :: 0 <= i < |sleeps| ==> sleeps[i] == Backoff(k + i, jitter(k + i))
    decreases MaxAttempts - k
  {
    if k < MaxAttempts && attempts(k).TimedOut? {
      RetryPauses(attempts, jitter, k + 1);
      var rest := RetryFrom(attempts, jitter, k + 1);
      assert forall i :: 1 <= i < 1 + |rest.sleeps| ==>
        ([Backoff(k, jitter(k))] + rest.sleeps)[i] == rest.sleeps[i - 1];
    }
  }

  /** Each pause is 2^(k+1) seconds plus between one and two seconds. */
  lemma BackoffBounds(k: nat, jitter: Jitter)
    ensures TwoTo(k + 1) as real + 1.0 <= Backoff(k, jitter) <= TwoTo(k + 1) as real + 2.0
  {
  }

  /** `ok`: a 301 or 302 whose Location starts with the history path. */
  predicate PushSucceeded(resp: Response<string>) {
    resp.status in {301, 302} && StartsWith(Header(resp, "Location"), PushHistoryPath)
  }

  function ReplaceNewlines(s: string): (r: string)
    ensures |r| == |s|
    ensures forall i :: 0 <= i < |s| ==> r[i] == if s[i] == '\n' then ' ' else s[i]
  {
    seq(|s|, i requires 0 <= i < |s| => if s[i] == '\n' then ' ' else s[i])
  }

  /** The body excerpt logged for an unexpected answer: newlines become
      spaces, the text is trimmed, and a text over 300 characters becomes
      its first 297 and "...". */
  function BodyExcerpt(body: string): (e: string)
    ensures |e| <= 300
    ensures var clean := StripSpace(ReplaceNewlines(body));
      (|clean| <= 300 ==> e == clean)
      && (|clean| > 300 ==> |e| == 300 && e == clean[..297] + "...")
  {
    var clean := StripSpace(ReplaceNewlines(body));
    if |clean| > 300 then clean[..297] + "..." else clean
  }

  /** One attempt of the retry loop, from the outside. */
  lemma RetryUnfold(attempts: nat -> Outcome<string>, jitter: nat -> Jitter, k: nat)
    requires k < MaxAttempts
    ensures var run := RetryFrom(attempts, jitter, k);
      var rest := RetryFrom(attempts, jitter, k + 1);
      && (attempts(k).TimedOut? ==>
            run == RetryRun(rest.end, rest.posts + 1, [Backoff(k, jitter(k))] + rest.sleeps))
      && (attempts(k).Failed? ==> run == RetryRun(Raised, 1, []))
      && (attempts(k).Answered? ==> run == RetryRun(GotResponse(attempts(k).response), 1, []))
  {
  }

  /** The retry loop of `gb_send_push`: POST `post` until an attempt does
      not time out, at most four times, pausing after each timeout. */
  method PostWithRetry(post: Request, attempts: nat -> Outcome<string>, jitter: nat -> Jitter)
    returns (posts: nat, sleeps: seq<real>, end: PostEnd)
    ensures RetryRun(end, posts, sleeps) == RetryFrom(attempts, jitter, 0)
  {
    posts := 0;
    sleeps := [];
    var attempt := 0;
    ghost var whole := RetryFrom(attempts, jitter, attempt);
    while attempt < MaxAttempts
      invariant 0 <= attempt <= MaxAttempts
      invariant posts == attempt
      invariant var rest := RetryFrom(attempts, jitter, attempt);
        whole.end == rest.end && whole.posts == posts + rest.posts
        && whole.sleeps == sleeps + rest.sleeps
    {
      RetryUnfold(attempts, jitter, attempt);
      posts := posts + 1;
      var outcome := attempts(attempt);
      match outcome {
        case Failed =>
          return posts, sleeps, Raised;
        case TimedOut =>
          var sleepFor := Backoff(attempt, jitter(attempt));
          ghost var rest := RetryFrom(attempts, jitter, attempt + 1).sleeps;
          assert sleeps + ([sleepFor] + rest) == (sleeps + [sleepFor]) + rest;
          sleeps := sleeps + [sleepFor];
          attempt := attempt + 1;
        case Answered(resp) =>
          return posts, sleeps, GotResponse(resp);
      }
    }
    return posts, sleeps, NoResponse;
  }

  datatype PushResult = PushRaised | PushReturned(ok: bool, response: Option<Response<string>>)

  /** `gb_send_push`: fetch the push page's hidden fields (a failure
      raises), build the form, POST it with up to four attempts retrying
      only timeouts, and classify the answer. `sent` lists the requests in
      order and `sleeps` the pauses. */
  method SendPush(dashboardBase: string, message: string, zonesJson: string, stamp: LocalStamp,
                  page: Outcome<string>, attempts: nat -> Outcome<string>, jitter: nat -> Jitter)
    returns (sent: seq<Request>, sleeps: seq<real>, r: PushResult)
    ensures |sent| >= 1 && sent[0] == ProbeRequest(dashboardBase)
    ensures PushPageFields(page).None? ==> r == PushRaised && |sent| == 1 && sleeps == []
    ensures PushPageFields(page).Some? ==>
      var run := RetryFrom(attempts, jitter, 0);
      && |sent| == 1 + run.posts
      && sleeps == run.sleeps
      && (forall i :: 1 <= i < |sent| ==>
            sent[i] == Request(Post, AbsUrl(dashboardBase, PushSendPath), None,
                               BaseHeaders(dashboardBase)["Referer" := AbsUrl(dashboardBase, PushSendPath)],
                               Payload(PushPageFields(page).value, message, zonesJson, stamp)))
      && (run.end.Raised? ==> r == PushRaised)
      && (run.end.NoResponse? ==> r == PushReturned(false, None))
      && (run.end.GotResponse? ==> r == PushReturned(PushSucceeded(run.end.response), Some(run.end.response)))
  {
    sent := [ProbeRequest(dashboardBase)];
    sleeps := [];
    var fields := PushPageFields(page);
    if fields.None? {
      return sent, sleeps, PushRaised;
    }
    var hidden := fields.value;

    var payload := hidden;
    payload := payload + FixedFields(message, zonesJson, stamp);
    payload := payload[Honeypot := ""];

    var headers := BaseHeaders(dashboardBase);
    headers := headers["Referer" := AbsUrl(dashboardBase, PushSendPath)];
    var post := Request(Post, AbsUrl(dashboardBase, PushSendPath), None, headers, payload);

    var posts, end;
    posts, sleeps, end := PostWithRetry(post, attempts, jitter);
    sent := sent + seq(posts, _ => post);
    assert payload == Payload(hidden, message, zonesJson, stamp);
    assert forall i :: 1 <= i < |sent| ==> sent[i] == post;

    match end {
      case Raised =>
        r := PushRaised;
      case NoResponse =>
        r := PushReturned(false, None);
      case GotResponse(response) =>
        if response.status in {301, 302} {
          var loc := Header(response, "Location");
          r := PushReturned(StartsWith(loc, PushHistoryPath), Some(response));
        } else {
          r := PushReturned(false, Some(response));
        }
    }
  }
}
