/**
 * The UTC calendar arithmetic behind `Date.UTC`, `getUTCDay`, `getUTCFullYear`,
 * and the ISO 8601 week-date rules (ISO 8601:2004, section 4.1.4: weeks start on
 * Monday and week 1 of a year is the week holding that year's first Thursday).
 * A calendar day is a day number: whole days since 1970-01-01 (UTC), the JavaScript epoch.
 */
module Calendar {
  import Js

  /** Milliseconds in a UTC day. */
  const MsPerDay: int := 86400000

  /** Proleptic Gregorian leap years. */
  predicate IsLeap(y: int) {
    y % 4 == 0 && (y % 100 != 0 || y % 400 == 0)
  }

  function YearLength(y: int): int {
    if IsLeap(y) then 366 else 365
  }

  /** Days from 0001-01-01 to 1 January of year `y` (proleptic Gregorian, floor division). */
  function DaysBeforeYear(y: int): int {
    365 * (y - 1) + (y - 1) / 4 - (y - 1) / 100 + (y - 1) / 400
  }

  /** The day number of 1 January of year `y`. */
  function YearStart(y: int): int {
    DaysBeforeYear(y) - DaysBeforeYear(1970)
  }

  /** Going one year back crosses a multiple of 4, 100 or 400 exactly when the year is one. */
  lemma LeapCounterSteps(y: int)
    ensures y / 4 - (y - 1) / 4 == if y % 4 == 0 then 1 else 0
    ensures y / 100 - (y - 1) / 100 == if y % 100 == 0 then 1 else 0
    ensures y / 400 - (y - 1) / 400 == if y % 400 == 0 then 1 else 0
  {
  }

  lemma YearStep(y: int)
    ensures YearStart(y + 1) == YearStart(y) + YearLength(y)
  {
    LeapCounterSteps(y);
  }

  lemma YearStartMonotonic(a: int, b: int)
    requires a <= b
    ensures YearStart(a) + 365 * (b - a) <= YearStart(b)
    decreases b - a
  {
    if a < b {
      YearStartMonotonic(a, b - 1);
      YearStep(b - 1);
    }
  }

  /** Days before the 0-based month `m` (0 = January) of year `y`. */
  function DaysBeforeMonth(y: int, m: int): (r: int)
    requires 0 <= m <= 11
    ensures 0 <= r <= 335
  {
    var cumulative := [0, 31, 59, 90, 120, 151, 181, 212, 243, 273, 304, 334];
    cumulative[m] + if m >= 2 && IsLeap(y) then 1 else 0
  }

  /** Days in the 0-based month `m` of year `y`. */
  function MonthLength(y: int, m: int): (r: int)
    requires 0 <= m <= 11
    ensures 28 <= r <= 31
  {
    if m == 1 then (if IsLeap(y) then 29 else 28)
    else if m == 3 || m == 5 || m == 8 || m == 10 then 30
    else 31
  }

  /** Consecutive months tile the year. */
  lemma DaysBeforeMonthStep(y: int, m: int)
    requires 0 <= m <= 11
    ensures m < 11 ==> DaysBeforeMonth(y, m + 1) == DaysBeforeMonth(y, m) + MonthLength(y, m)
    ensures m == 11 ==> DaysBeforeMonth(y, m) + MonthLength(y, m) == YearLength(y)
  {
    if m == 0 {} else if m == 1 {} else if m == 2 {} else if m == 3 {} else if m == 4 {}
    else if m == 5 {} else if m == 6 {} else if m == 7 {} else if m == 8 {} else if m == 9 {}
    else if m == 10 {} else {}
  }

  /** `Date.UTC(y, m, d)` as a day number: years 0 to 99 mean 1900 to 1999, a month outside
      0..11 carries into the year, and a day outside the month carries into the neighbouring days. */
  function Utc(y: int, m: int, d: int): (r: int)
    ensures 0 <= m <= 11 && !(0 <= y <= 99) ==> r == YearStart(y) + DaysBeforeMonth(y, m) + d - 1
  {
    var fullYear := if 0 <= y <= 99 then 1900 + y else y;
    var year := fullYear + m / 12;
    YearStart(year) + DaysBeforeMonth(year, m % 12) + d - 1
  }

  /** `getUTCDay`: 0 = Sunday, 1 = Monday, ..., 6 = Saturday. Day 0 (1970-01-01) was a Thursday. */
  function Weekday(day: int): (r: int)
    ensures 0 <= r <= 6
  {
    (day + 4) % 7
  }

  lemma WeekdayShift(day: int, k: int)
    ensures Weekday(day + k) == (Weekday(day) + k) % 7
  {
    var q := (day + 4) / 7;
    assert day + 4 == 7 * q + Weekday(day);
    assert day + k + 4 == 7 * q + (Weekday(day) + k);
  }

  /** The year that `day` falls in, searching upwards from year `y`. */
  function YearFrom(y: int, day: int): (r: int)
    requires YearStart(y) <= day
    ensures YearStart(r) <= day < YearStart(r + 1)
    decreases day - YearStart(y)
  {
    YearStep(y);
    if day < YearStart(y + 1) then y else YearFrom(y + 1, day)
  }

  /** The year that `day` falls in, searching downwards from year `y`. */
  function YearUntil(y: int, day: int): (r: int)
    requires day < YearStart(y + 1)
    ensures YearStart(r) <= day < YearStart(r + 1)
    decreases YearStart(y + 1) - day
  {
    YearStep(y);
    if YearStart(y) <= day then y else YearUntil(y - 1, day)
  }

  /** `getUTCFullYear`: the year whose days include `day`. */
  function YearOf(day: int): (y: int)
    ensures YearStart(y) <= day < YearStart(y + 1)
  {
    if day >= 0 then YearFrom(1970, day) else YearUntil(1969, day)
  }

  /** Each day lies in exactly one year. */
  lemma YearOfUnique(y: int, day: int)
    requires YearStart(y) <= day < YearStart(y + 1)
    ensures YearOf(day) == y
  {
    SameYear(y, YearOf(day), day);
  }

  /** Two years whose spans both hold `day` are the same year. */
  lemma SameYear(y: int, z: int, day: int)
    requires YearStart(y) <= day < YearStart(y + 1)
    requires YearStart(z) <= day < YearStart(z + 1)
    ensures y == z
  {
    if z < y {
      YearStartMonotonic(z + 1, y);
    } else if z > y {
      YearStartMonotonic(y + 1, z);
    }
  }

  /** The ISO weekday: 1 = Monday, ..., 7 = Sunday (`getUTCDay() || 7`). */
  function IsoWeekday(day: int): (r: int)
    ensures 1 <= r <= 7
  {
    if Weekday(day) == 0 then 7 else Weekday(day)
  }

  /** The Thursday of the Monday-to-Sunday week that holds `day`. */
  function WeekThursday(day: int): (t: int)
    ensures Weekday(t) == 4
    ensures t - 3 <= day <= t + 3
    ensures day - t == IsoWeekday(day) - 4
  {
    WeekdayShift(day, 4 - IsoWeekday(day));
    day + 4 - IsoWeekday(day)
  }

  datatype YearWeek = YearWeek(year: int, week: int)

  /** `getWeekNumber` on a day: the year is that of the week's Thursday, and the week counts
      the 7-day blocks up to the Thursday from `Date.UTC(year, 0, 1)`, `ceil((days since then + 1) / 7)`.
      For the years 0 to 99 `Date.UTC` starts the count in 1900 to 1999, so the week there comes out
      at most 0. */
  function WeekNumberOfDay(day: int): (r: YearWeek)
    ensures r.year == YearOf(WeekThursday(day))
    ensures !(0 <= r.year <= 99) ==>
              && 1 <= r.week <= 53
              && 7 * (r.week - 1) <= WeekThursday(day) - YearStart(r.year) < 7 * r.week
    ensures 0 <= r.year <= 99 ==> r.week <= 0
  {
    var t := WeekThursday(day);
    var y := YearOf(t);
    var yearStart := Utc(y, 0, 1);
    YearStep(y);
    YearStartMonotonic(y + 1, 1900 + y);
    YearWeek(y, Js.CeilDiv(t - yearStart + 1, 7))
  }

  /** `getWeekNumber(date)` for the local calendar date (`y`, 0-based `m`, `d`) of `date`. */
  function GetWeekNumber(y: int, m: int, d: int): (r: YearWeek)
    ensures !(0 <= r.year <= 99) ==> 1 <= r.week <= 53
    ensures 0 <= r.year <= 99 ==> r.week <= 0
  {
    WeekNumberOfDay(Utc(y, m, d))
  }

  /** The Monday that starts ISO week `week` of `year`, computed as `getWeeklyReportFor` does: take
      1 January plus `7 * (week - 1)` days, then step back to its Monday when that day is Sunday to
      Thursday (Sunday counts as 0, so it steps forward one day), or forward to the next Monday when it is
      Friday or Saturday. */
  function IsoWeekStart(year: int, week: int): (r: int)
    ensures Weekday(r) == 1
  {
    var simple := Utc(year, 0, 1 + (week - 1) * 7);
    var dow := Weekday(simple);
    if dow <= 4 then
      WeekdayShift(simple, 1 - dow);
      simple - dow + 1
    else
      WeekdayShift(simple, 8 - dow);
      simple + 8 - dow
  }

  /** The Monday of week `week` is `k` days after 1 January plus whole weeks, with the week's Thursday
      `k + 3` days in and `k` between 0 and 6 only for Thursday itself; `k` depends on 1 January's weekday only. */
  lemma IsoWeekStartOffset(year: int, week: int)
    requires !(0 <= year <= 99)
    ensures -3 <= IsoWeekStart(year, week) - YearStart(year) - 7 * (week - 1) <= 3
    ensures IsoWeekStart(year, week) + 3 - YearStart(year) - 7 * (week - 1)
            == IsoWeekStart(year, 1) + 3 - YearStart(year)
    ensures 0 <= IsoWeekStart(year, 1) + 3 - YearStart(year) <= 6
  {
    var j := YearStart(year);
    WeekdayShift(j, 7 * (week - 1));
    assert (Weekday(j) + 7 * (week - 1)) % 7 == Weekday(j);
    assert Utc(year, 0, 1 + (week - 1) * 7) == j + 7 * (week - 1);
    assert Utc(year, 0, 1) == j;
  }

  /** Week 1 holds the year's first Thursday: its Thursday is one of the first seven days of January. */
  lemma FirstWeekHoldsFirstThursday(year: int)
    requires !(0 <= year <= 99)
    ensures Weekday(IsoWeekStart(year, 1) + 3) == 4
    ensures YearStart(year) <= IsoWeekStart(year, 1) + 3 < YearStart(year) + 7
  {
    IsoWeekStartOffset(year, 1);
    WeekdayShift(IsoWeekStart(year, 1), 3);
  }

  /** Numbering the Monday of week `week` gives back (`year`, `week`) for every week a year surely has. */
  lemma {:induction false} IsoWeekRoundTrip(year: int, week: int)
    requires !(0 <= year <= 99)
    requires 1 <= week <= 52
    ensures WeekNumberOfDay(IsoWeekStart(year, week)) == YearWeek(year, week)
  {
    var start := IsoWeekStart(year, week);
    IsoWeekStartOffset(year, week);
    var t := WeekThursday(start);
    assert t == start + 3;
    var n := t - YearStart(year);
    assert 7 * (week - 1) <= n <= 7 * (week - 1) + 6;
    YearStep(year);
    YearOfUnique(year, t);
  }

  /** ISO week 1 of 2024 runs from Monday 2024-01-01 to Sunday 2024-01-07. */
  lemma IsoWeek2024Week1()
    ensures IsoWeekStart(2024, 1) == Utc(2024, 0, 1) == 19723
    ensures IsoWeekStart(2024, 1) + 6 == Utc(2024, 0, 7)
    ensures WeekNumberOfDay(Utc(2024, 0, 1)) == YearWeek(2024, 1)
  {
    assert YearStart(2024) == 19723;
    assert DaysBeforeMonth(2024, 0) == 0;
    assert Utc(2024, 0, 1) == 19723 && Utc(2024, 0, 7) == 19729;
    assert Weekday(19723) == 1;
    assert IsoWeekStart(2024, 1) == 19723;
    IsoWeekRoundTrip(2024, 1);
  }

  /** The monthly window: `Date.UTC(y, month - 1, 1)` is the first day of the 1-based `month` and
      `Date.UTC(y, month, 0)` its last day, both in year `y`. */
  lemma MonthWindow(y: int, month: int)
    requires !(0 <= y <= 99)
    requires 1 <= month <= 12
    ensures Utc(y, month, 0) - Utc(y, month - 1, 1) == MonthLength(y, month - 1) - 1
    ensures YearOf(Utc(y, month - 1, 1)) == y && YearOf(Utc(y, month, 0)) == y
  {
    YearStep(y);
    DaysBeforeMonthStep(y, month - 1);
    var first := Utc(y, month - 1, 1);
    assert first == YearStart(y) + DaysBeforeMonth(y, month - 1);
    if month == 12 {
      assert Utc(y, month, 0) == YearStart(y + 1) + DaysBeforeMonth(y + 1, 0) - 1;
    } else {
      assert Utc(y, month, 0) == YearStart(y) + DaysBeforeMonth(y, month) - 1;
    }
    YearOfUnique(y, Utc(y, month - 1, 1));
    YearOfUnique(y, Utc(y, month, 0));
  }
}
