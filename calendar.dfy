/** The proleptic Gregorian calendar as the notification formatter uses
    it: which dates exist (the range of years a datetime accepts is 1 to
    9999), and the weekday of a date, by counting days from 1 January of
    year 1, a Monday. */
module Calendar {
  const MinYear := 1
  const MaxYear := 9999

  predicate IsLeap(y: int) {
    y % 4 == 0 && (y % 100 != 0 || y % 400 == 0)
  }

  function DaysInMonth(y: int, m: int): (n: nat)
    requires 1 <= m <= 12
    ensures 28 <= n <= 31
  {
    if m == 2 then (if IsLeap(y) then 29 else 28)
    else if m == 4 || m == 6 || m == 9 || m == 11 then 30
    else 31
  }

  predicate ValidDate(y: int, m: int, d: int) {
    MinYear <= y <= MaxYear && 1 <= m <= 12 && 1 <= d <= DaysInMonth(y, m)
  }

  /** Days in the months of year `y` before month `m`. */
  function DaysBeforeMonth(y: int, m: int): (n: nat)
    requires 1 <= m <= 12
    decreases m
  {
    if m == 1 then 0 else DaysBeforeMonth(y, m - 1) + DaysInMonth(y, m - 1)
  }

  /** Days in the years before year `y`. */
  function DaysBeforeYear(y: int): int
    requires y >= 1
  {
    var p := y - 1;
    p * 365 + p / 4 - p / 100 + p / 400
  }

  /** The day number of a date, 1 January of year 1 being day 1. */
  function Ordinal(y: int, m: int, d: int): int
    requires ValidDate(y, m, d)
  {
    DaysBeforeYear(y) + DaysBeforeMonth(y, m) + d
  }

  /** The weekday, Monday being 0. */
  function Weekday(y: int, m: int, d: int): (w: nat)
    requires ValidDate(y, m, d)
    ensures w < 7
  {
    (Ordinal(y, m, d) + 6) % 7
  }

  const DayNames: seq<string> :=
    ["Monday", "Tuesday", "Wednesday", "Thursday", "Friday", "Saturday", "Sunday"]

  /** The full English weekday name of a date. */
  function WeekdayName(y: int, m: int, d: int): (name: string)
    requires ValidDate(y, m, d)
    ensures name in DayNames
  {
    DayNames[Weekday(y, m, d)]
  }

  /** The day after a date. */
  function NextDay(y: int, m: int, d: int): (int, int, int)
    requires ValidDate(y, m, d)
  {
    if d < DaysInMonth(y, m) then (y, m, d + 1)
    else if m < 12 then (y, m + 1, 1)
    else (y + 1, 1, 1)
  }

  lemma StepOf(q: int, k: int)
    requires q >= 1 && (k == 4 || k == 100 || k == 400)
    ensures q / k - (q - 1) / k == if q % k == 0 then 1 else 0
  {
    if k == 4 {
      assert q / 4 - (q - 1) / 4 == if q % 4 == 0 then 1 else 0;
    } else if k == 100 {
      assert q / 100 - (q - 1) / 100 == if q % 100 == 0 then 1 else 0;
    } else {
      assert q / 400 - (q - 1) / 400 == if q % 400 == 0 then 1 else 0;
    }
  }

  /** A year has 366 days when it is a leap year and 365 otherwise. */
  lemma YearLength(y: int)
    requires y >= 1
    ensures DaysBeforeYear(y + 1) == DaysBeforeYear(y) + if IsLeap(y) then 366 else 365
  {
    StepOf(y, 4);
    StepOf(y, 100);
    StepOf(y, 400);
    if y % 400 == 0 {
      assert y % 100 == 0 && y % 4 == 0;
    } else if y % 100 == 0 {
      assert y % 4 == 0;
    }
  }

  /** The months of a year add up to its length. */
  lemma MonthsFillYear(y: int)
    ensures DaysBeforeMonth(y, 12) + DaysInMonth(y, 12) == if IsLeap(y) then 366 else 365
  {
  }

  /** Consecutive dates have consecutive day numbers, so the weekday
      advances by one each day and the week repeats every seven days. */
  lemma NextDayAdvancesWeekday(y: int, m: int, d: int)
    requires ValidDate(y, m, d)
    requires y < MaxYear || m < 12 || d < 31
    ensures var (y', m', d') := NextDay(y, m, d);
      ValidDate(y', m', d') && Ordinal(y', m', d') == Ordinal(y, m, d) + 1
      && Weekday(y', m', d') == (Weekday(y, m, d) + 1) % 7
  {
    var (y', m', d') := NextDay(y, m, d);
    if d < DaysInMonth(y, m) {
      assert Ordinal(y', m', d') == Ordinal(y, m, d) + 1;
    } else if m < 12 {
      NextMonthStep(y, m);
    } else {
      NextYearStep(y);
    }
    WeekdayFollows(y, m, d, y', m', d');
  }

  lemma WeekdayFollows(y: int, m: int, d: int, y': int, m': int, d': int)
    requires ValidDate(y, m, d) && ValidDate(y', m', d')
    requires Ordinal(y', m', d') == Ordinal(y, m, d) + 1
    ensures Weekday(y', m', d') == (Weekday(y, m, d) + 1) % 7
  {
    WeekdayStep(Ordinal(y, m, d));
  }

  /** The first of the next month follows the last day of a month. */
  lemma NextMonthStep(y: int, m: int)
    requires MinYear <= y <= MaxYear && 1 <= m < 12
    ensures Ordinal(y, m + 1, 1) == Ordinal(y, m, DaysInMonth(y, m)) + 1
  {
    assert DaysBeforeMonth(y, m + 1) == DaysBeforeMonth(y, m) + DaysInMonth(y, m);
  }

  /** New Year's Day follows the last day of December. */
  lemma NextYearStep(y: int)
    requires MinYear <= y < MaxYear
    ensures Ordinal(y + 1, 1, 1) == Ordinal(y, 12, 31) + 1
  {
    YearLength(y);
    MonthsFillYear(y);
  }

  lemma WeekdayStep(n: int)
    ensures (n + 1 + 6) % 7 == ((n + 6) % 7 + 1) % 7
  {
  }

  /** The calendar is anchored: 1 January of year 1 is a Monday and
      15 October 2026 a Thursday. */
  lemma Anchors()
    ensures WeekdayName(1, 1, 1) == "Monday"
    ensures Ordinal(2026, 10, 15) == 739904
    ensures WeekdayName(2026, 10, 15) == "Thursday"
  {
  }
}
