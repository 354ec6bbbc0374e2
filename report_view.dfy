/**
 * The report screen: a weekly report that can be moved week by week, a jump
 * to an ISO week or to a month, and three exports of the report shown (a
 * text summary, a CSV table and a short shareable summary). Exported lines
 * are kept as structured rows; their exact wording and number formatting are
 * not modelled.
 */
module ReportView {
  import opened Wrappers
  import opened Domain
  import Analytics
  import Calendar
  import Storage
  import Units

  // ---------------------------------------------------------------- the reports the screen can show

  /** The weekly report `weekOffset` weeks away from the seven days ending at `now`. */
  function OffsetReport(log: seq<SetLog>, now: int, weekOffset: int, weekdayName: int -> string): Report {
    var end := now + 7 * weekOffset * Calendar.MsPerDay;
    Analytics.Accumulate(log, end - 6 * Calendar.MsPerDay, end, Analytics.WeekdayKey(weekdayName))
  }

  /** The report of ISO week `week` of `year`. */
  function IsoWeekReport(log: seq<SetLog>, year: int, week: int, weekdayName: int -> string): Report {
    var monday := Calendar.IsoWeekStart(year, week);
    Analytics.Accumulate(log, monday * Calendar.MsPerDay, (monday + 6) * Calendar.MsPerDay,
                         Analytics.WeekdayKey(weekdayName))
  }

  /** The report of month `month` (1 to 12) of `year`. */
  function MonthReport(log: seq<SetLog>, year: int, month: int): Report {
    Analytics.Accumulate(log, Calendar.Utc(year, month - 1, 1) * Calendar.MsPerDay,
                         Calendar.Utc(year, month, 0) * Calendar.MsPerDay, Analytics.DateKey)
  }

  // ---------------------------------------------------------------- navigation and jumps

  /** The screen state the jump buttons change: the report shown and the week offset. */
  datatype Shown = Shown(report: Report, weekOffset: int)

  /** The week jump as written: the requested week is loaded and the offset reset to 0; but a reset from a
      non-zero offset re-runs the loader of the offset report, which then replaces the requested week by
      the current one. Unparsable input (`None`) or a year or week below 1 changes nothing. */
  function JumpToWeekAsWritten(s: Shown, log: seq<SetLog>, now: int, weekdayName: int -> string,
                               year: Option<int>, week: Option<int>): (r: Shown)
    ensures !(year.Some? && week.Some? && year.value > 0 && week.value > 0) ==> r == s
    ensures year.Some? && week.Some? && year.value > 0 && week.value > 0 ==> r.weekOffset == 0
  {
    if year.Some? && week.Some? && year.value > 0 && week.value > 0 then
      Shown(if s.weekOffset != 0 then OffsetReport(log, now, 0, weekdayName)
            else IsoWeekReport(log, year.value, week.value, weekdayName), 0)
    else s
  }

  /** Jumping from the previous week to ISO week 1 of 2024 shows the seven days ending at `now` rather than
      2024-01-01 to 2024-01-07, unless `now` is 00:00 UTC of 2024-01-07. */
  lemma JumpFromPreviousWeekShowsCurrentWeek(r: Report, log: seq<SetLog>, now: int, weekdayName: int -> string)
    requires now != 19729 * Calendar.MsPerDay
    ensures var after := JumpToWeekAsWritten(Shown(r, -1), log, now, weekdayName, Some(2024), Some(1));
            && after.report.rangeStart == now - 6 * Calendar.MsPerDay
            && after.report.rangeStart != IsoWeekReport(log, 2024, 1, weekdayName).rangeStart
  {
    OffsetReportRange(log, now, 0, weekdayName);
    IsoWeekReportRange(log, 2024, 1, weekdayName);
    Calendar.IsoWeek2024Week1();
  }

  /** An ISO week's report spans six days from 00:00 UTC of its Monday. */
  lemma IsoWeekReportRange(log: seq<SetLog>, year: int, week: int, weekdayName: int -> string)
    ensures var r := IsoWeekReport(log, year, week, weekdayName);
            && r.rangeStart == Calendar.IsoWeekStart(year, week) * Calendar.MsPerDay
            && r.rangeEnd == r.rangeStart + 6 * Calendar.MsPerDay
  {
    var monday := Calendar.IsoWeekStart(year, week);
    Analytics.AccumulateSound(log, monday * Calendar.MsPerDay, (monday + 6) * Calendar.MsPerDay,
                              Analytics.WeekdayKey(weekdayName));
  }

  /** The week jump as intended: with a year and a week of at least 1, that ISO week is shown, from 00:00 UTC
      of its Monday, and the offset is 0; otherwise nothing changes. */
  function JumpToWeek(s: Shown, log: seq<SetLog>, weekdayName: int -> string, year: Option<int>, week: Option<int>)
    : (r: Shown)
    ensures !(year.Some? && week.Some? && year.value > 0 && week.value > 0) ==> r == s
    ensures year.Some? && week.Some? && year.value > 0 && week.value > 0 ==>
              && r.weekOffset == 0
              && r.report == IsoWeekReport(log, year.value, week.value, weekdayName)
              && r.report.rangeStart % Calendar.MsPerDay == 0
              && Calendar.Weekday(r.report.rangeStart / Calendar.MsPerDay) == 1
              && r.report.rangeEnd == r.report.rangeStart + 6 * Calendar.MsPerDay
              && (year.value >= 100 && week.value <= 52 ==>
                    Calendar.WeekNumberOfDay(r.report.rangeStart / Calendar.MsPerDay)
                    == Calendar.YearWeek(year.value, week.value))
  {
    if year.Some? && week.Some? && year.value > 0 && week.value > 0 then
      var monday := Calendar.IsoWeekStart(year.value, week.value);
      IsoWeekReportRange(log, year.value, week.value, weekdayName);
      assert (monday * Calendar.MsPerDay) / Calendar.MsPerDay == monday;
      assert year.value >= 100 && week.value <= 52 ==>
               Calendar.WeekNumberOfDay(monday) == Calendar.YearWeek(year.value, week.value) by {
        if year.value >= 100 && week.value <= 52 {
          Calendar.IsoWeekRoundTrip(year.value, week.value);
        }
      }
      Shown(IsoWeekReport(log, year.value, week.value, weekdayName), 0)
    else s
  }

  /** The month jump as written: like the week jump, a reset from a non-zero offset reloads the offset
      report over the requested month. */
  function JumpToMonthAsWritten(s: Shown, log: seq<SetLog>, now: int, weekdayName: int -> string,
                                year: Option<int>, month: Option<int>): (r: Shown)
    ensures !(year.Some? && month.Some? && year.value > 0 && 1 <= month.value <= 12) ==> r == s
    ensures year.Some? && month.Some? && year.value > 0 && 1 <= month.value <= 12 ==> r.weekOffset == 0
  {
    if year.Some? && month.Some? && year.value > 0 && 1 <= month.value <= 12 then
      Shown(if s.weekOffset != 0 then OffsetReport(log, now, 0, weekdayName)
            else MonthReport(log, year.value, month.value), 0)
    else s
  }

  /** Jumping from the next week to a month shows a weekly report (keyed by weekday) instead of the month. */
  lemma JumpFromNextWeekShowsNoMonth(r: Report, log: seq<SetLog>, now: int, weekdayName: int -> string)
    ensures var after := JumpToMonthAsWritten(Shown(r, 1), log, now, weekdayName, Some(2024), Some(2));
            && after.report == OffsetReport(log, now, 0, weekdayName)
            && after.report.rangeEnd - after.report.rangeStart == 6 * Calendar.MsPerDay
            && MonthReport(log, 2024, 2).rangeEnd - MonthReport(log, 2024, 2).rangeStart == 28 * Calendar.MsPerDay
  {
    OffsetReportRange(log, now, 0, weekdayName);
    MonthReportRange(log, 2024, 2);
    assert Calendar.MonthLength(2024, 1) == 29;
  }

  /** A week's report spans six days, from the day six days before the end to the end. */
  lemma OffsetReportRange(log: seq<SetLog>, now: int, weekOffset: int, weekdayName: int -> string)
    ensures var r := OffsetReport(log, now, weekOffset, weekdayName);
            && r.rangeEnd == now + 7 * weekOffset * Calendar.MsPerDay
            && r.rangeEnd - r.rangeStart == 6 * Calendar.MsPerDay
  {
    var end := now + 7 * weekOffset * Calendar.MsPerDay;
    Analytics.AccumulateSound(log, end - 6 * Calendar.MsPerDay, end, Analytics.WeekdayKey(weekdayName));
  }

  /** The range of a month's report: from 00:00 UTC of its first day to 00:00 UTC of its last. */
  lemma MonthReportRange(log: seq<SetLog>, year: int, month: int)
    requires year > 0 && 1 <= month <= 12
    ensures var r := MonthReport(log, year, month);
            && r.rangeStart == Calendar.Utc(year, month - 1, 1) * Calendar.MsPerDay
            && (year >= 100 ==> r.rangeEnd - r.rangeStart == (Calendar.MonthLength(year, month - 1) - 1) * Calendar.MsPerDay)
  {
    var first := Calendar.Utc(year, month - 1, 1);
    var last := Calendar.Utc(year, month, 0);
    Analytics.AccumulateSound(log, first * Calendar.MsPerDay, last * Calendar.MsPerDay, Analytics.DateKey);
    if year >= 100 {
      Calendar.MonthWindow(year, month);
      assert last * Calendar.MsPerDay - first * Calendar.MsPerDay == (last - first) * Calendar.MsPerDay;
    }
  }

  /** The month jump as intended: with a year of at least 1 and a month from 1 to 12, that month is shown
      (its range is given by `MonthReportRange`) and the offset is 0. */
  function JumpToMonth(s: Shown, log: seq<SetLog>, year: Option<int>, month: Option<int>): (r: Shown)
    ensures !(year.Some? && month.Some? && year.value > 0 && 1 <= month.value <= 12) ==> r == s
    ensures year.Some? && month.Some? && year.value > 0 && 1 <= month.value <= 12 ==>
              && r.weekOffset == 0
              && r.report == MonthReport(log, year.value, month.value)
  {
    if year.Some? && month.Some? && year.value > 0 && 1 <= month.value <= 12 then
      Shown(MonthReport(log, year.value, month.value), 0)
    else s
  }

  /** "Back to current" as written: setting an offset that is already 0 does not reload, so after a jump
      made at offset 0 the jumped report stays on screen. */
  function BackToCurrentAsWritten(s: Shown, log: seq<SetLog>, now: int, weekdayName: int -> string): (r: Shown)
    ensures r.weekOffset == 0
    ensures s.weekOffset == 0 ==> r == s
  {
    if s.weekOffset == 0 then s else Shown(OffsetReport(log, now, 0, weekdayName), 0)
  }

  /** After jumping to ISO week 1 of 2024 at offset 0, "back to current" still shows that week. */
  lemma BackToCurrentAfterJumpKeepsJump(r: Report, log: seq<SetLog>, now: int, weekdayName: int -> string)
    ensures var jumped := JumpToWeek(Shown(r, 0), log, weekdayName, Some(2024), Some(1));
            BackToCurrentAsWritten(jumped, log, now, weekdayName).report == IsoWeekReport(log, 2024, 1, weekdayName)
  {
  }

  /** "Back to current" as intended: the seven days ending at `now`, at offset 0, from any screen state. */
  function BackToCurrent(s: Shown, log: seq<SetLog>, now: int, weekdayName: int -> string): (r: Shown)
    ensures r.weekOffset == 0
    ensures r.report == OffsetReport(log, now, 0, weekdayName)
    ensures r.report.rangeEnd == now && r.report.rangeStart == now - 6 * Calendar.MsPerDay
  {
    Analytics.AccumulateSound(log, now - 6 * Calendar.MsPerDay, now, Analytics.WeekdayKey(weekdayName));
    Shown(OffsetReport(log, now, 0, weekdayName), 0)
  }

  // ---------------------------------------------------------------- exports

  /** A row of the CSV export: the header (its volume column names the unit), a day, or an exercise of the
      day above it. */
  datatype CsvRow = Header(unit: string) | DayRow(key: DayKey, sets: nat, reps: int, volume: real)
                  | ExerciseRow(name: string, count: nat)

  /** A line of the text exports: the period, the summary, a day, or an exercise of the day above it. */
  datatype TextLine = Period(rangeStart: int, rangeEnd: int) | Summary(sets: nat, reps: int, volume: real)
                    | DayLine(key: DayKey, sets: nat, reps: int, volume: real) | ExerciseLine(name: string, count: nat)

  function DayRowOf(b: Bucket, unit: string): CsvRow {
    DayRow(b.key, b.sets, b.reps, Units.KgToUnit(unit, b.volumeKg))
  }

  function DayLineOf(b: Bucket, unit: string): TextLine {
    DayLine(b.key, b.sets, b.reps, Units.KgToUnit(unit, b.volumeKg))
  }

  /** The exercise rows of a day, in first-seen order. */
  function ExerciseRows(ex: seq<ExerciseCount>): (r: seq<CsvRow>)
    ensures |r| == |ex|
    ensures forall k :: 0 <= k < |r| ==> r[k] == ExerciseRow(ex[k].name, ex[k].count)
  {
    if ex == [] then [] else ExerciseRows(ex[..|ex| - 1]) + [ExerciseRow(ex[|ex| - 1].name, ex[|ex| - 1].count)]
  }

  function ExerciseLines(ex: seq<ExerciseCount>): (r: seq<TextLine>)
    ensures |r| == |ex|
    ensures forall k :: 0 <= k < |r| ==> r[k] == ExerciseLine(ex[k].name, ex[k].count)
  {
    if ex == [] then [] else ExerciseLines(ex[..|ex| - 1]) + [ExerciseLine(ex[|ex| - 1].name, ex[|ex| - 1].count)]
  }

  /** The CSV rows below the header: each day's row followed by its exercise rows. */
  function CsvBody(bs: seq<Bucket>, unit: string): seq<CsvRow> {
    if bs == [] then [] else CsvBody(bs[..|bs| - 1], unit) + [DayRowOf(bs[|bs| - 1], unit)] + ExerciseRows(bs[|bs| - 1].exercises)
  }

  function TextBody(bs: seq<Bucket>, unit: string): seq<TextLine> {
    if bs == [] then [] else TextBody(bs[..|bs| - 1], unit) + [DayLineOf(bs[|bs| - 1], unit)] + ExerciseLines(bs[|bs| - 1].exercises)
  }

  function ShareBody(bs: seq<Bucket>, unit: string): (r: seq<TextLine>)
    ensures |r| == |bs|
    ensures forall k :: 0 <= k < |bs| ==> r[k] == DayLineOf(bs[k], unit)
  {
    if bs == [] then [] else ShareBody(bs[..|bs| - 1], unit) + [DayLineOf(bs[|bs| - 1], unit)]
  }

  /** One more day of CSV rows: its day row, then its exercise rows. */
  lemma CsvBodyStep(head: seq<CsvRow>, bs: seq<Bucket>, unit: string, i: nat)
    requires i < |bs|
    ensures head + CsvBody(bs[..i + 1], unit)
            == head + CsvBody(bs[..i], unit) + [DayRowOf(bs[i], unit)] + ExerciseRows(bs[i].exercises)
  {
    assert bs[..i + 1][..i] == bs[..i];
  }

  /** One more day of text: its day line, then its exercise lines. */
  lemma TextBodyStep(head: seq<TextLine>, bs: seq<Bucket>, unit: string, i: nat)
    requires i < |bs|
    ensures head + TextBody(bs[..i + 1], unit)
            == head + TextBody(bs[..i], unit) + [DayLineOf(bs[i], unit)] + ExerciseLines(bs[i].exercises)
  {
    assert bs[..i + 1][..i] == bs[..i];
  }

  /** The inner loop of `exportCSV`: one row per exercise of the day, appended in order. */
  method AppendExerciseRows(rows: seq<CsvRow>, ex: seq<ExerciseCount>) returns (r: seq<CsvRow>)
    ensures r == rows + ExerciseRows(ex)
  {
    r := rows;
    for j := 0 to |ex|
      invariant r == rows + ExerciseRows(ex[..j])
    {
      assert ex[..j + 1][..j] == ex[..j];
      r := r + [ExerciseRow(ex[j].name, ex[j].count)];
    }
    assert ex[..|ex|] == ex;
  }

  /** The inner loop of `exportText`: one line per exercise of the day, appended in order. */
  method AppendExerciseLines(lines: seq<TextLine>, ex: seq<ExerciseCount>) returns (r: seq<TextLine>)
    ensures r == lines + ExerciseLines(ex)
  {
    r := lines;
    for j := 0 to |ex|
      invariant r == lines + ExerciseLines(ex[..j])
    {
      assert ex[..j + 1][..j] == ex[..j];
      r := r + [ExerciseLine(ex[j].name, ex[j].count)];
    }
    assert ex[..|ex|] == ex;
  }

  /** The number of exercise rows of all days. */
  function ExerciseTotal(bs: seq<Bucket>): nat {
    if bs == [] then 0 else ExerciseTotal(bs[..|bs| - 1]) + |bs[|bs| - 1].exercises|
  }

  function SummaryOf(r: Report, unit: string): TextLine {
    Summary(r.total.sets, r.total.reps, Units.KgToUnit(unit, r.total.volumeKg))
  }

  /** The CSV: a header, then each day's row followed by one row per exercise; 1 + days + exercises rows. */
  lemma {:induction false} CsvRowCount(bs: seq<Bucket>, unit: string)
    ensures |[Header(unit)] + CsvBody(bs, unit)| == 1 + |bs| + ExerciseTotal(bs)
  {
    if bs != [] {
      CsvRowCount(bs[..|bs| - 1], unit);
    }
  }

  /** The text export: 2 summary lines, then each day's line followed by its exercise lines. */
  lemma {:induction false} TextLineCount(bs: seq<Bucket>, unit: string)
    ensures |TextBody(bs, unit)| == |bs| + ExerciseTotal(bs)
  {
    if bs != [] {
      TextLineCount(bs[..|bs| - 1], unit);
    }
  }

  /** The sets written on the day rows of the CSV. */
  function DayRowSets(rows: seq<CsvRow>): nat {
    if rows == [] then 0 else DayRowSets(rows[..|rows| - 1]) + (if rows[|rows| - 1].DayRow? then rows[|rows| - 1].sets else 0)
  }

  lemma {:induction false} DayRowSetsAppend(a: seq<CsvRow>, b: seq<CsvRow>)
    ensures DayRowSets(a + b) == DayRowSets(a) + DayRowSets(b)
    decreases |b|
  {
    if b == [] {
      assert a + b == a;
    } else {
      assert (a + b)[..|a + b| - 1] == a + b[..|b| - 1];
      DayRowSetsAppend(a, b[..|b| - 1]);
    }
  }

  lemma {:induction false} ExerciseRowsHaveNoSets(ex: seq<ExerciseCount>)
    ensures DayRowSets(ExerciseRows(ex)) == 0
  {
    if ex != [] {
      ExerciseRowsHaveNoSets(ex[..|ex| - 1]);
      DayRowSetsAppend(ExerciseRows(ex[..|ex| - 1]), [ExerciseRow(ex[|ex| - 1].name, ex[|ex| - 1].count)]);
      assert DayRowSets([ExerciseRow(ex[|ex| - 1].name, ex[|ex| - 1].count)]) == 0;
    }
  }

  /** The day rows of the CSV of a report carry all of its sets: they add up to the summary's total. */
  lemma {:induction false} CsvDaySetsAddUp(bs: seq<Bucket>, unit: string)
    ensures DayRowSets(CsvBody(bs, unit)) == Analytics.SumSets(bs)
  {
    if bs != [] {
      var init, last := bs[..|bs| - 1], bs[|bs| - 1];
      CsvDaySetsAddUp(init, unit);
      DayRowSetsAppend(CsvBody(init, unit), [DayRowOf(last, unit)]);
      DayRowSetsAppend(CsvBody(init, unit) + [DayRowOf(last, unit)], ExerciseRows(last.exercises));
      ExerciseRowsHaveNoSets(last.exercises);
      assert DayRowSets([DayRowOf(last, unit)]) == last.sets;
      assert init + [last] == bs;
      Analytics.SumsAppend(init, last);
    }
  }

  /** In a sound report the CSV's day rows add up to the report's total sets. */
  lemma CsvMatchesTotal(r: Report, log: seq<SetLog>, unit: string)
    requires Analytics.TotalsSound(r, log)
    ensures DayRowSets(CsvBody(r.byDay, unit)) == r.total.sets
  {
    CsvDaySetsAddUp(r.byDay, unit);
  }

  /** The report screen. Week navigation reloads the offset report after every change of offset, as the
      screen's loader does; the jumps and "back to current" follow their intended behaviour (see `JumpToWeek`,
      `JumpToMonth` and `BackToCurrent`). */
  class ReportScreen {
    const store: Storage.Store
    const weekdayName: int -> string
    var report: Report
    var weekOffset: int
    var monthly: bool
    var unit: string

    function Screen(): Shown
      reads this
    {
      Shown(report, weekOffset)
    }

    /** The screen after its first load: this week's report at offset 0, in weekly mode. */
    constructor (store: Storage.Store, now: int, weekdayName: int -> string)
      ensures this.store == store && this.weekdayName == weekdayName
      ensures weekOffset == 0 && !monthly && unit == store.unit
      ensures report == OffsetReport(store.sessions, now, 0, weekdayName)
    {
      this.store := store;
      this.weekdayName := weekdayName;
      weekOffset := 0;
      monthly := false;
      unit := store.unit;
      var first := Analytics.WeeklyReportWithOffset(store.sessions, now, 0, weekdayName);
      report := first;
    }

    /** The loader, run after every change of offset: the offset report and the unit. */
    method Load(now: int)
      modifies this`report, this`unit
      ensures report == OffsetReport(store.sessions, now, weekOffset, weekdayName) && unit == store.unit
    {
      report := Analytics.WeeklyReportWithOffset(store.sessions, now, weekOffset, weekdayName);
      unit := store.unit;
    }

    method PreviousWeek(now: int)
      modifies this`report, this`unit, this`weekOffset
      ensures weekOffset == old(weekOffset) - 1
      ensures report == OffsetReport(store.sessions, now, weekOffset, weekdayName) && unit == store.unit
    {
      weekOffset := weekOffset - 1;
      Load(now);
    }

    method NextWeek(now: int)
      modifies this`report, this`unit, this`weekOffset
      ensures weekOffset == old(weekOffset) + 1
      ensures report == OffsetReport(store.sessions, now, weekOffset, weekdayName) && unit == store.unit
    {
      weekOffset := weekOffset + 1;
      Load(now);
    }

    method ShowCurrentWeek(now: int)
      modifies this`report, this`unit, this`weekOffset
      ensures Screen() == BackToCurrent(old(Screen()), store.sessions, now, weekdayName) && unit == store.unit
    {
      weekOffset := 0;
      Load(now);
    }

    method SetMonthly(m: bool)
      modifies this`monthly
      ensures monthly == m
    {
      monthly := m;
    }

    method GoToWeek(year: Option<int>, week: Option<int>)
      modifies this`report, this`weekOffset
      ensures Screen() == JumpToWeek(old(Screen()), store.sessions, weekdayName, year, week)
    {
      if year.Some? && week.Some? && year.value > 0 && week.value > 0 {
        report := Analytics.WeeklyReportFor(store.sessions, year.value, week.value, weekdayName);
        weekOffset := 0;
      }
    }

    method GoToMonth(year: Option<int>, month: Option<int>)
      modifies this`report, this`weekOffset
      ensures Screen() == JumpToMonth(old(Screen()), store.sessions, year, month)
    {
      if year.Some? && month.Some? && year.value > 0 && 1 <= month.value <= 12 {
        report := Analytics.MonthlyReport(store.sessions, year.value, month.value);
        weekOffset := 0;
      }
    }

    /** `exportCSV`: the rows built by its nested loops. */
    method ExportCsv() returns (rows: seq<CsvRow>)
      ensures rows == [Header(unit)] + CsvBody(report.byDay, unit)
    {
      var days := report.byDay;
      rows := [Header(unit)];
      for i := 0 to |days|
        invariant rows == [Header(unit)] + CsvBody(days[..i], unit)
      {
        CsvBodyStep([Header(unit)], days, unit, i);
        rows := AppendExerciseRows(rows + [DayRowOf(days[i], unit)], days[i].exercises);
      }
      assert days[..|days|] == days;
    }

    /** `exportText`: the period, the summary, then each day's line followed by its exercise lines. */
    method ExportText() returns (lines: seq<TextLine>)
      ensures lines == [Period(report.rangeStart, report.rangeEnd), SummaryOf(report, unit)] + TextBody(report.byDay, unit)
    {
      var days := report.byDay;
      var head := [Period(report.rangeStart, report.rangeEnd), SummaryOf(report, unit)];
      lines := head;
      for i := 0 to |days|
        invariant lines == head + TextBody(days[..i], unit)
      {
        TextBodyStep(head, days, unit, i);
        lines := AppendExerciseLines(lines + [DayLineOf(days[i], unit)], days[i].exercises);
      }
      assert days[..|days|] == days;
    }

    /** `shareSummary`: the period, the summary and one line per day; 2 + days lines. */
    method ShareSummary() returns (lines: seq<TextLine>)
      ensures |lines| == 2 + |report.byDay|
      ensures lines == [Period(report.rangeStart, report.rangeEnd), SummaryOf(report, unit)] + ShareBody(report.byDay, unit)
    {
      var days := report.byDay;
      lines := [Period(report.rangeStart, report.rangeEnd), SummaryOf(report, unit)];
      for i := 0 to |days|
        invariant lines == [Period(report.rangeStart, report.rangeEnd), SummaryOf(report, unit)] + ShareBody(days[..i], unit)
      {
        assert days[..i + 1][..i] == days[..i];
        lines := lines + [DayLineOf(days[i], unit)];
      }
      assert days[..|days|] == days;
    }
  }
}
