/** The push message built from an alert's headline: the text on one line,
    a title, and, when the headline says until when the alert runs, that
    time as "h:mm AM/PM Weekday". The two "until" patterns are scanners
    over the characters; letters, digits and word characters are the ASCII
    ones. A time or a date that the datetime library would refuse makes the
    whole formatting fail. */
module Formatter {
  import opened Wrappers
  import opened Text
  import opened Calendar

  // ---------------------------------------------------------------------
  // One line, title

  /** `_clean_one_line`: the words of the text joined by single spaces. */
  function Clean(raw: string): string {
    Join(Words(StripSpace(raw)))
  }

  /** The cleaned text keeps the words of the original in order, has no
      whitespace at either end, and has none but single spaces between
      words; cleaning it again changes nothing. */
  lemma CleanProperties(raw: string)
    ensures Words(Clean(raw)) == Words(raw)
    ensures var c := Clean(raw);
      c == [] || (!IsSpace(c[0]) && !IsSpace(c[|c| - 1]))
    ensures var c := Clean(raw);
      forall k :: 0 <= k < |c| && IsSpace(c[k]) ==>
        c[k] == ' ' && 0 < k < |c| - 1 && !IsSpace(c[k - 1]) && !IsSpace(c[k + 1])
    ensures Clean(Clean(raw)) == Clean(raw)
  {
    var ws := Words(StripSpace(raw));
    WordsOfStripSpace(raw);
    WordsOfJoin(ws);
    JoinSpacing(ws);
    var c := Join(ws);
    if c != [] {
      assert Join(ws) != [];
    }
    WordsOfStripSpace(c);
  }

  /** `_extract_title`: the text before the first ':' when a space follows
      it, else the text before the first " issued" (in any case), else the
      whole text; trimmed. */
  function ExtractTitle(s: string): (t: string)
    ensures StripSpace(t) == t
    ensures (IndexOf(s, ":").Some? && IndexOf(s, ":").value + 1 < |s|
             && s[IndexOf(s, ":").value + 1] == ' ') ==>
      t == StripSpace(s[..IndexOf(s, ":").value])
    ensures !(IndexOf(s, ":").Some? && IndexOf(s, ":").value + 1 < |s|
              && s[IndexOf(s, ":").value + 1] == ' ') ==>
      (IndexOf(Lower(s), " issued").Some? ==> t == StripSpace(s[..IndexOf(Lower(s), " issued").value]))
      && (IndexOf(Lower(s), " issued").None? ==> t == StripSpace(s))
  {
    var colon := IndexOf(s, ":");
    if colon.Some? && colon.value + 1 < |s| && s[colon.value + 1] == ' ' then
      StripSpaceIdempotent(s[..colon.value]);
      StripSpace(s[..colon.value])
    else
      match IndexOf(Lower(s), " issued")
      case Some(i) =>
        StripSpaceIdempotent(s[..i]);
        StripSpace(s[..i])
      case None =>
        StripSpaceIdempotent(s);
        StripSpace(s)
  }

  // ---------------------------------------------------------------------
  // Times

  type Hour = h: nat | h < 24
  type Minute = m: nat | m < 60

  /** A time of day on the 24-hour clock. */
  datatype ClockTime = ClockTime(hour: Hour, minute: Minute)

  /** The hour on the 12-hour clock: midnight and noon are 12. */
  function Hour12(hour: Hour): (h: nat)
    ensures 1 <= h <= 12
    ensures h % 12 == hour % 12
    ensures hour == 0 ==> h == 12
    ensures hour == 12 ==> h == 12
  {
    if hour % 12 == 0 then 12 else hour % 12
  }

  function Meridiem(hour: Hour): (m: string)
    ensures m == "AM" <==> hour < 12
    ensures m == "AM" || m == "PM"
  {
    if hour < 12 then "AM" else "PM"
  }

  /** `{n:02d}` for n below 100. */
  function TwoDigits(n: nat): (r: string)
    requires n < 100
    ensures |r| == 2 && IsDigit(r[0]) && IsDigit(r[1]) && DecimalValue(r) == n
  {
    var r := [('0' as int + n / 10) as char, ('0' as int + n % 10) as char];
    assert r[..1] == [r[0]] && [r[0]][..0] == [];
    assert DecimalValue(r[..1]) == n / 10;
    r
  }

  /** `_fmt_time`: "h:mm AM" or "h:mm PM". */
  function FmtTime(t: ClockTime): string {
    NatToString(Hour12(t.hour)) + ":" + TwoDigits(t.minute) + " " + Meridiem(t.hour)
  }

  /** The text of a matched time, split as the pattern `\d{1,2}:\d{2}\s*[AP]M`
      reads it: hour digits, minute digits, the gap before the meridiem, and
      the meridiem's first letter. */
  datatype TimeText = TimeText(hourText: string, minuteText: string, gap: string, meridiem: char)

  predicate AllDigits(s: string) {
    forall k :: 0 <= k < |s| ==> IsDigit(s[k])
  }

  datatype FormatError = BadTime | BadDate

  /** `strptime(text.replace(" ", "").upper(), "%I:%M%p")`: the hour must be
      1 to 12 and the minute 0 to 59, and nothing but spaces may stand
      between the minutes and the meridiem. */
  function ParseTime(tt: TimeText): (r: Result<ClockTime, FormatError>)
    ensures r.Ok? <==>
      1 <= |tt.hourText| <= 2 && AllDigits(tt.hourText) && 1 <= DecimalValue(tt.hourText) <= 12
      && 1 <= |tt.minuteText| <= 2 && AllDigits(tt.minuteText) && DecimalValue(tt.minuteText) <= 59
      && (forall k :: 0 <= k < |tt.gap| ==> tt.gap[k] == ' ')
      && tt.meridiem in "AaPp"
    ensures r.Ok? ==> AllDigits(tt.hourText) && 1 <= DecimalValue(tt.hourText) <= 12
    ensures r.Ok? ==> Hour12(r.value.hour) == DecimalValue(tt.hourText)
    ensures r.Ok? ==> (r.value.hour < 12 <==> tt.meridiem in "Aa")
    ensures r.Ok? ==> AllDigits(tt.minuteText) && r.value.minute == DecimalValue(tt.minuteText)
  {
    if !(1 <= |tt.hourText| <= 2 && AllDigits(tt.hourText)) then Err(BadTime)
    else if !(1 <= |tt.minuteText| <= 2 && AllDigits(tt.minuteText)) then Err(BadTime)
    else if exists k :: 0 <= k < |tt.gap| && tt.gap[k] != ' ' then Err(BadTime)
    else if tt.meridiem !in "AaPp" then Err(BadTime)
    else
      var h := DecimalValue(tt.hourText);
      var m := DecimalValue(tt.minuteText);
      if h < 1 || h > 12 || m > 59 then Err(BadTime)
      else
        var hour := h % 12 + (if tt.meridiem in "Pp" then 12 else 0);
        Ok(ClockTime(hour, m))
  }

  /** Two readings `strptime` makes: midnight is "12:05 AM", and an hour
      or a minute out of range is refused. */
  lemma ParseTimeExamples()
    ensures ParseTime(TimeText("12", "05", " ", 'A')) == Ok(ClockTime(0, 5))
    ensures ParseTime(TimeText("12", "05", "", 'p')) == Ok(ClockTime(12, 5))
    ensures ParseTime(TimeText("13", "00", " ", 'P')).Err?
    ensures ParseTime(TimeText("9", "60", " ", 'A')).Err?
  {
    assert DecimalValue("12") == 12 by { assert "12"[..1] == "1"; }
    assert DecimalValue("05") == 5 by { assert "05"[..1] == "0"; }
    assert DecimalValue("13") == 13 by { assert "13"[..1] == "1"; }
    assert DecimalValue("60") == 60 by { assert "60"[..1] == "6"; }
  }

  /** The pieces of a rendered time, as the time pattern would capture them. */
  function RenderedTimeText(t: ClockTime): TimeText {
    TimeText(NatToString(Hour12(t.hour)), TwoDigits(t.minute), " ", Meridiem(t.hour)[0])
  }

  lemma RenderedIsTimeText(t: ClockTime)
    ensures FmtTime(t) == RenderedTimeText(t).hourText + ":" + RenderedTimeText(t).minuteText
      + RenderedTimeText(t).gap + [RenderedTimeText(t).meridiem, 'M']
  {
    assert Meridiem(t.hour) == [Meridiem(t.hour)[0], 'M'];
  }

  /** Reading a rendered time back gives the same time: the 12-hour
      rendering loses nothing. */
  lemma ParseRenderedTime(t: ClockTime)
    ensures ParseTime(RenderedTimeText(t)) == Ok(t)
  {
    var tt := RenderedTimeText(t);
    NatToStringShort(Hour12(t.hour));
  }

  /** Numbers below 100 are written with one or two digits. */
  lemma NatToStringShort(n: nat)
    requires n < 100
    ensures 1 <= |NatToString(n)| <= 2
  {
    if n >= 10 {
      assert |NatToString(n / 10)| == 1;
    }
  }

  // ---------------------------------------------------------------------
  // The two "until" patterns

  predicate IsWordChar(c: char) {
    IsAsciiLetter(c) || IsDigit(c) || c == '_'
  }

  /** The end of the run of whitespace that starts at `i`. */
  function SkipSpace(s: string, i: nat): (j: nat)
    requires i <= |s|
    ensures i <= j <= |s|
    ensures forall k :: i <= k < j ==> IsSpace(s[k])
    ensures j == |s| || !IsSpace(s[j])
    decreases |s| - i
  {
    if i < |s| && IsSpace(s[i]) then SkipSpace(s, i + 1) else i
  }

  /** The length of the run of characters satisfying `p` that starts at `i`. */
  function Run(s: string, i: nat, p: char -> bool): (n: nat)
    requires i <= |s|
    ensures i + n <= |s|
    ensures forall k :: i <= k < i + n ==> p(s[k])
    ensures i + n == |s| || !p(s[i + n])
    decreases |s| - i
  {
    if i < |s| && p(s[i]) then 1 + Run(s, i + 1, p) else 0
  }

  /** `\d{1,2}:\d{2}\s*[AP]M` at `i`: the time's pieces and where it ends. */
  function TimeAt(s: string, i: nat): (r: Option<(TimeText, nat)>)
    requires i <= |s|
    ensures r.Some? ==> i < r.value.1 <= |s|
    ensures r.Some? ==> AllDigits(r.value.0.hourText) && 1 <= |r.value.0.hourText| <= 2
    ensures r.Some? ==> AllDigits(r.value.0.minuteText) && |r.value.0.minuteText| == 2
    ensures r.Some? ==> forall k :: 0 <= k < |r.value.0.gap| ==> IsSpace(r.value.0.gap[k])
    ensures r.Some? ==> r.value.0.meridiem in "AaPp"
  {
    var d := Run(s, i, IsDigit);
    if d < 1 || d > 2 then None
    else
      var c := i + d;
      if c + 3 > |s| || s[c] != ':' || !IsDigit(s[c + 1]) || !IsDigit(s[c + 2]) then None
      else
        var g := SkipSpace(s, c + 3);
        if g + 2 > |s| || s[g] !in "AaPp" || s[g + 1] !in "Mm" then None
        else Some((TimeText(s[i..c], s[c + 1..c + 3], s[c + 3..g], s[g]), g + 2))
  }

  /** What an "until" pattern captures: the month (a name or a number), the
      day and the time. */
  datatype UntilMatch = UntilMatch(monthText: string, dayText: string, time: TimeText)

  /** `\buntil\s+` at `p`: where the text after it starts. */
  function UntilAt(s: string, p: nat): (r: Option<nat>)
    ensures r.Some? ==> p + 5 < r.value <= |s|
  {
    if p > |s| || !(p == 0 || !IsWordChar(s[p - 1])) || !MatchesAt(s, p, "until") then None
    else
      var i := SkipSpace(s, p + 5);
      if i == p + 5 then None else Some(i)
  }

  /** The long form, `\buntil\s+(month letters)\s+(day \d{1,2})\s+at\s+(time)`,
      matched at `p`. */
  function LongAt(s: string, p: nat): (r: Option<UntilMatch>)
    ensures r.Some? ==> r.value.monthText != [] && forall k :: 0 <= k < |r.value.monthText| ==> IsAsciiLetter(r.value.monthText[k])
    ensures r.Some? ==> AllDigits(r.value.dayText) && 1 <= |r.value.dayText| <= 2
  {
    match UntilAt(s, p)
    case None => None
    case Some(i1) => LongFromMonth(s, i1)
  }

  /** The long form after `until` and its spaces: the month name. */
  function LongFromMonth(s: string, i1: nat): (r: Option<UntilMatch>)
    requires i1 <= |s|
    ensures r.Some? ==> r.value.monthText != [] && forall k :: 0 <= k < |r.value.monthText| ==> IsAsciiLetter(r.value.monthText[k])
    ensures r.Some? ==> AllDigits(r.value.dayText) && 1 <= |r.value.dayText| <= 2
  {
    var j1 := i1 + Run(s, i1, IsAsciiLetter);
    var i2 := SkipSpace(s, j1);
    if j1 == i1 || i2 == j1 then None
    else match LongFromDay(s, i2)
      case None => None
      case Some((day, tt)) => Some(UntilMatch(s[i1..j1], day, tt))
  }

  /** The long form from the day on: `(\d{1,2})\s+at\s+(time)`. */
  function LongFromDay(s: string, i2: nat): (r: Option<(string, TimeText)>)
    requires i2 <= |s|
    ensures r.Some? ==> AllDigits(r.value.0) && 1 <= |r.value.0| <= 2
  {
    var d := Run(s, i2, IsDigit);
    if d < 1 || d > 2 then None
    else
      var j2 := i2 + d;
      var i3 := SkipSpace(s, j2);
      if i3 == j2 || !MatchesAt(s, i3, "at") then None
      else
        var i4 := SkipSpace(s, i3 + 2);
        if i4 == i3 + 2 then None
        else match TimeAt(s, i4)
          case None => None
          case Some((tt, _)) => Some((s[i2..j2], tt))
  }

  /** The numeric form, `\buntil\s+(time)\s+(month \d{1,2})/(day \d{1,2})`,
      matched at `p`. */
  function NumAt(s: string, p: nat): (r: Option<UntilMatch>)
    ensures r.Some? ==> AllDigits(r.value.monthText) && 1 <= |r.value.monthText| <= 2
    ensures r.Some? ==> AllDigits(r.value.dayText) && 1 <= |r.value.dayText| <= 2
  {
    match UntilAt(s, p)
    case None => None
    case Some(i1) =>
      match TimeAt(s, i1)
      case None => None
      case Some((tt, e)) =>
        var i2 := SkipSpace(s, e);
        if i2 == e then None
        else match NumDate(s, i2)
          case None => None
          case Some((month, day)) => Some(UntilMatch(month, day, tt))
  }

  /** `(\d{1,2})/(\d{1,2})` at `i2`: month and day digits. */
  function NumDate(s: string, i2: nat): (r: Option<(string, string)>)
    requires i2 <= |s|
    ensures r.Some? ==> AllDigits(r.value.0) && 1 <= |r.value.0| <= 2
    ensures r.Some? ==> AllDigits(r.value.1) && 1 <= |r.value.1| <= 2
  {
    var d := Run(s, i2, IsDigit);
    var c := i2 + d;
    if d < 1 || d > 2 || c >= |s| || s[c] != '/' then None
    else
      var d2 := Run(s, c + 1, IsDigit);
      if d2 == 0 then None
      else
        var dayEnd := c + 1 + (if d2 > 2 then 2 else d2);
        Some((s[i2..c], s[c + 1..dayEnd]))
  }

  /** The regex `search`: the leftmost position from `p` at which `at`
      matches. */
  function FirstMatch<T>(n: nat, at: nat -> Option<T>, p: nat): (r: Option<T>)
    ensures r.Some? ==> exists q :: p <= q <= n && at(q) == r && (forall q' :: p <= q' < q ==> at(q').None?)
    ensures r.None? ==> forall q :: p <= q <= n ==> at(q).None?
    decreases n + 1 - p
  {
    if p > n then None
    else if at(p).Some? then at(p)
    else FirstMatch(n, at, p + 1)
  }

  /** The two compiled "until" patterns. */
  datatype Pattern = LongUntil | NumUntil

  /** A pattern's match at `p`. */
  function MatchAt(pat: Pattern, s: string, p: nat): Option<UntilMatch> {
    match pat
    case LongUntil => LongAt(s, p)
    case NumUntil => NumAt(s, p)
  }

  /** The pattern as a matcher over positions of `s`. */
  function Matcher(pat: Pattern, s: string): nat -> Option<UntilMatch> {
    (p: nat) => MatchAt(pat, s, p)
  }

  /** `pattern.search(s)`. */
  function Search(pat: Pattern, s: string): Option<UntilMatch> {
    FirstMatch(|s|, Matcher(pat, s), 0)
  }

  /** A search result is the match at the leftmost matching position. */
  lemma SearchFindsLeftmost(pat: Pattern, s: string)
    requires Search(pat, s).Some?
    ensures exists q :: 0 <= q <= |s| && MatchAt(pat, s, q) == Search(pat, s)
                        && (forall q' :: 0 <= q' < q ==> MatchAt(pat, s, q').None?)
  {
    var at := Matcher(pat, s);
    var q :| 0 <= q <= |s| && at(q) == Search(pat, s) && (forall q' :: 0 <= q' < q ==> at(q').None?);
    forall q' | 0 <= q' < q
      ensures MatchAt(pat, s, q').None?
    {
      assert at(q').None?;
    }
    assert MatchAt(pat, s, q) == at(q);
  }

  /** A search finds nothing only when no position matches. */
  lemma SearchNoneMeansNoMatch(pat: Pattern, s: string)
    requires Search(pat, s).None?
    ensures forall q :: 0 <= q <= |s| ==> MatchAt(pat, s, q).None?
  {
    var at := Matcher(pat, s);
    forall q | 0 <= q <= |s|
      ensures MatchAt(pat, s, q).None?
    {
      assert at(q).None?;
    }
  }

  /** `LONG_UNTIL.search`. */
  function LongSearch(s: string): (r: Option<UntilMatch>)
    ensures r.Some? ==> AllDigits(r.value.dayText) && 1 <= |r.value.dayText| <= 2
  {
    var r := Search(LongUntil, s);
    if r.Some? then
      var q :| 0 <= q <= |s| && MatchAt(LongUntil, s, q) == r;
      r
    else r
  }

  /** `NUM_UNTIL.search`. */
  function NumSearch(s: string): (r: Option<UntilMatch>)
    ensures r.Some? ==> AllDigits(r.value.monthText) && AllDigits(r.value.dayText)
  {
    var r := Search(NumUntil, s);
    if r.Some? then
      var q :| 0 <= q <= |s| && MatchAt(NumUntil, s, q) == r;
      r
    else r
  }

  // ---------------------------------------------------------------------
  // The message

  const MonthNames: seq<string> := ["january", "february", "march", "april", "may", "june",
    "july", "august", "september", "october", "november", "december"]

  function IndexIn(names: seq<string>, x: string, i: nat): (r: Option<nat>)
    ensures r.Some? ==> i <= r.value < |names| && names[r.value] == x
    ensures r.None? ==> forall k :: i <= k < |names| ==> names[k] != x
    decreases |names| - i
  {
    if i >= |names| then None
    else if names[i] == x then Some(i)
    else IndexIn(names, x, i + 1)
  }

  /** `MONTHS.get(name.lower())`: 1 for January through 12 for December. */
  function MonthNumber(name: string): (r: Option<nat>)
    ensures r.Some? ==> 1 <= r.value <= 12 && MonthNames[r.value - 1] == Lower(name)
    ensures r.None? <==> Lower(name) !in MonthNames
  {
    match IndexIn(MonthNames, Lower(name), 0)
    case None => None
    case Some(i) => Some(i + 1)
  }

  const Warning := "\U{26A0}\U{FE0F}  "

  function PlainMessage(title: string): (m: string)
    ensures StartsWith(m, Warning + title + " issued")
  {
    Warning + title + " issued. Tap for details!"
  }

  function UntilMessage(title: string, t: ClockTime, weekday: string): (m: string)
    ensures StartsWith(m, Warning + title + " issued")
  {
    Warning + title + " issued until " + FmtTime(t) + " " + weekday + "! Tap for details!"
  }

  /** `datetime(year, month, day, ...)` and the message built from it; an
      impossible date is an error. */
  function DatedMessage(title: string, year: int, month: int, day: int, t: ClockTime)
    : (r: Result<string, FormatError>)
    ensures r.Ok? <==> ValidDate(year, month, day)
    ensures r.Ok? ==> r.value == UntilMessage(title, t, WeekdayName(year, month, day))
    ensures r.Ok? ==> StartsWith(r.value, Warning + title + " issued")
  {
    if ValidDate(year, month, day) then Ok(UntilMessage(title, t, WeekdayName(year, month, day)))
    else Err(BadDate)
  }

  /** The numeric form's outcome: no match keeps the plain message; a match
      gives the dated message for its month and day numbers, and fails on
      a time `strptime` refuses or on an impossible date. */
  function NumOutcome(s: string, title: string, year: int): (r: Result<string, FormatError>)
    ensures NumSearch(s).None? ==> r == Ok(PlainMessage(title))
    ensures NumSearch(s).Some? ==> var m := NumSearch(s).value;
      (ParseTime(m.time).Err? ==> r.Err?)
      && (ParseTime(m.time).Ok? ==> r == DatedMessage(title, year, DecimalValue(m.monthText),
                                                      DecimalValue(m.dayText), ParseTime(m.time).value))
    ensures r.Ok? ==> StartsWith(r.value, Warning + title + " issued")
  {
    match NumSearch(s)
    case None => Ok(PlainMessage(title))
    case Some(m) =>
      match ParseTime(m.time)
      case Err(e) => Err(e)
      case Ok(t) => DatedMessage(title, year, DecimalValue(m.monthText), DecimalValue(m.dayText), t)
  }

  /** `format_nws_notification`, with the current year given. */
  function FormatNotification(raw: string, year: int): (r: Result<string, FormatError>)
    ensures r.Ok? ==> StartsWith(r.value, Warning + ExtractTitle(Clean(raw)) + " issued")
  {
    var s := Clean(raw);
    var title := ExtractTitle(s);
    if !Contains(Lower(s), " until ") then Ok(PlainMessage(title))
    else match LongSearch(s)
      case None => NumOutcome(s, title, year)
      case Some(m) =>
        match ParseTime(m.time)
        case Err(e) => Err(e)
        case Ok(t) =>
          match MonthNumber(m.monthText)
          case Some(month) => DatedMessage(title, year, month, DecimalValue(m.dayText), t)
          case None => NumOutcome(s, title, year)
  }

  /** Without " until " in the lower-cased text, or when neither pattern
      matches, the message is the plain one. */
  lemma PlainWithoutUntil(raw: string, year: int)
    requires var s := Clean(raw);
      !Contains(Lower(s), " until ") || (LongSearch(s).None? && NumSearch(s).None?)
    ensures FormatNotification(raw, year) == Ok(PlainMessage(ExtractTitle(Clean(raw))))
  {
  }

  /** A long-form match whose month name is known decides the message,
      whatever the numeric form would say; an impossible date fails. */
  lemma LongFormFirst(raw: string, year: int)
    requires var s := Clean(raw);
      Contains(Lower(s), " until ") && LongSearch(s).Some?
      && ParseTime(LongSearch(s).value.time).Ok?
      && MonthNumber(LongSearch(s).value.monthText).Some?
    ensures var s := Clean(raw);
      var m := LongSearch(s).value;
      FormatNotification(raw, year)
        == DatedMessage(ExtractTitle(s), year, MonthNumber(m.monthText).value,
                        DecimalValue(m.dayText), ParseTime(m.time).value)
  {
  }

  /** Without a long-form match, a numeric-form match decides the message:
      its time and its month/day numbers give the dated message, and a bad
      time or an impossible date fails. */
  lemma NumericFormWithoutLong(raw: string, year: int)
    requires var s := Clean(raw);
      Contains(Lower(s), " until ") && LongSearch(s).None? && NumSearch(s).Some?
    ensures var s := Clean(raw);
      var m := NumSearch(s).value;
      (ParseTime(m.time).Err? ==> FormatNotification(raw, year).Err?)
      && (ParseTime(m.time).Ok? ==>
            FormatNotification(raw, year)
              == DatedMessage(ExtractTitle(s), year, DecimalValue(m.monthText),
                              DecimalValue(m.dayText), ParseTime(m.time).value))
  {
  }

  /** A long-form match with an unknown month name falls through to the
      numeric form; its time is still read first, and a bad time fails. */
  lemma UnknownMonthFallsThrough(raw: string, year: int)
    requires var s := Clean(raw);
      Contains(Lower(s), " until ") && LongSearch(s).Some?
    ensures var s := Clean(raw);
      var m := LongSearch(s).value;
      (ParseTime(m.time).Err? ==> FormatNotification(raw, year).Err?)
      && (ParseTime(m.time).Ok? && MonthNumber(m.monthText).None? ==>
            FormatNotification(raw, year) == NumOutcome(s, ExtractTitle(s), year))
  {
  }

  const MaxMessageLength := 250

  /** The cap on the message: over 250 characters it becomes its first
      247 and "...". */
  function Truncate(msg: string): (r: string)
    ensures |r| <= MaxMessageLength
    ensures |msg| <= MaxMessageLength ==> r == msg
    ensures |msg| > MaxMessageLength ==> |r| == MaxMessageLength && r == msg[..247] + "..."
  {
    if |msg| > MaxMessageLength then msg[..247] + "..." else msg
  }

  /** Truncating twice is truncating once. */
  lemma TruncateIdempotent(msg: string)
    ensures Truncate(Truncate(msg)) == Truncate(msg)
  {
  }
}
