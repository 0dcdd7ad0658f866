/**
 Report periods and the periods they are compared with. The timezone is Asia/Bangkok, which is
 seven hours ahead of UTC all year; instants are microseconds since 1970.

 A preset and an instant give the first and the last day of a period, a custom period is read from
 texts. Resolving refuses what the source refuses: texts that are no dates, a last day before the
 first, and more than 366 days. A comparison period is computed from the texts of a period; how it
 lies to the period, and when its own texts can be read again, is stated for every preset.
 */
module Periods {
  import opened Options
  import opened Units
  import opened Catalog
  import opened Calendar

  const ZONE: int := 25_200_000_000

  /** The day number of 1970-01-01. */
  const EPOCH: int := 719_162

  /** The local calendar day of an instant. */
  function LocalDay(instant: int): int {
    (instant + ZONE) / DAY + EPOCH
  }

  function Days(from: Date, to: Date): int
    requires IsDate(from) && IsDate(to)
  {
    DayNumber(to) - DayNumber(from) + 1
  }

  function PeriodOf(preset: Preset, from: Date, to: Date): Period
    requires IsDate(from) && IsDate(to)
  {
    Period(preset, Format(from), Format(to))
  }

  // ---- ResolvePeriod ----

  /** None stands for the error returns. */
  function ResolveDates(preset: Preset, instant: int, customFrom: Option<string>,
                        customTo: Option<string>): (r: Option<(Date, Date)>)
    ensures r.Some? ==> IsDate(r.value.0) && IsDate(r.value.1)
  {
    var today := DateOf(LocalDay(instant));
    match preset
    case Yesterday => Some((AddDays(today, -1), AddDays(today, -1)))
    case TodayToNow => Some((today, today))
    case AsOfRun => Some((today, today))
    case MonthToDate => Some((today.(day := 1), today))
    case Custom =>
      if customFrom.None? || customTo.None? || Parse(customFrom.value).None? || Parse(customTo.value).None? then None
      else
        var from, to := Parse(customFrom.value).value, Parse(customTo.value).value;
        if DayNumber(to) < DayNumber(from) || 366 < Days(from, to) then None else Some((from, to))
  }

  function ResolvePeriod(preset: Preset, instant: int, customFrom: Option<string>,
                         customTo: Option<string>): Option<Period> {
    match ResolveDates(preset, instant, customFrom, customTo)
    case None => None
    case Some((from, to)) => Some(PeriodOf(preset, from, to))
  }

  // ---- ResolveComparisonPeriod ----

  /** A duration holds at most 106751 whole days. */
  function DurationDays(from: Date, to: Date): int
    requires IsDate(from) && IsDate(to)
  {
    if DayNumber(to) - DayNumber(from) <= 106_751 then DayNumber(to) - DayNumber(from) else 106_751
  }

  function ComparisonDates(preset: Preset, from: Date, to: Date): (r: Option<(Date, Date)>)
    requires IsDate(from) && IsDate(to)
    ensures r.Some? ==> IsDate(r.value.0) && IsDate(r.value.1)
  {
    match preset
    case MonthToDate =>
      var priorMonthEnd := AddDays(from, -1);
      var targetDay := if priorMonthEnd.day < to.day then priorMonthEnd.day else to.day;
      Some((Normalised(MonthIndex(from) - 1, from.day), priorMonthEnd.(day := targetDay)))
    case Custom =>
      var days := DurationDays(from, to) + 1;
      Some((AddDays(AddDays(from, -1), -(days - 1)), AddDays(from, -1)))
    case _ =>
      if from != to then None else Some((AddDays(from, -1), AddDays(from, -1)))
  }

  function ResolveComparisonPeriod(p: Period): Option<Period> {
    if Parse(p.dateFrom).None? || Parse(p.dateTo).None? then None
    else
      var from, to := Parse(p.dateFrom).value, Parse(p.dateTo).value;
      if DayNumber(to) < DayNumber(from) then None
      else
        match ComparisonDates(p.preset, from, to)
        case None => None
        case Some((a, b)) => Some(PeriodOf(Custom, a, b))
  }

  // ---- Resolved periods ----

  /** What ResolvePeriod promises of its dates. */
  predicate Resolved(preset: Preset, from: Date, to: Date) {
    && IsDate(from) && IsDate(to) && 1 <= Days(from, to) <= 366
    && (preset.MonthToDate? ==> from.day == 1 && MonthIndex(from) == MonthIndex(to))
    && (preset.Yesterday? || preset.TodayToNow? || preset.AsOfRun? ==> from == to)
  }

  lemma ResolveIsResolved(preset: Preset, instant: int, customFrom: Option<string>, customTo: Option<string>)
    ensures var r := ResolveDates(preset, instant, customFrom, customTo);
            r.Some? ==> Resolved(preset, r.value.0, r.value.1)
  {
    var today := DateOf(LocalDay(instant));
    if preset.MonthToDate? {
      assert DayNumber(today) - DayNumber(today.(day := 1)) == today.day - 1;
    }
  }

  /** The last month has the day number of to, or is shorter and ends there. */
  function SameDayLastMonth(from: Date, to: Date): Date
    requires IsDate(from) && IsDate(to)
  {
    var last := FirstOfMonth(MonthIndex(from) - 1);
    var length := MonthLength(last.year, last.month);
    last.(day := if length < to.day then length else to.day)
  }

  /** The day before the first of a month is the last day of the month before. */
  lemma PriorMonthEnd(from: Date)
    requires IsDate(from) && from.day == 1
    ensures var last := FirstOfMonth(MonthIndex(from) - 1);
            AddDays(from, -1) == last.(day := MonthLength(last.year, last.month))
  {
    var last := FirstOfMonth(MonthIndex(from) - 1);
    if 1 < from.month {
      MonthsAddUp(last.year, last.month);
    } else {
      YearsAddUp(last.year);
      MonthsAddUp(last.year, 12);
    }
    NumbersFollowDates(AddDays(from, -1), last.(day := MonthLength(last.year, last.month)));
  }

  predicate ClampedLastMonth(from: Date, to: Date, c: (Date, Date))
    requires IsDate(from) && IsDate(to)
  {
    c.0 == FirstOfMonth(MonthIndex(from) - 1) && c.1 == SameDayLastMonth(from, to)
  }

  lemma MonthToDateComparison(from: Date, to: Date)
    requires Resolved(MonthToDate, from, to)
    ensures var c := ComparisonDates(MonthToDate, from, to);
            && c.Some? && ClampedLastMonth(from, to, c.value)
            && 1 <= Days(c.value.0, c.value.1) && DayNumber(c.value.1) < DayNumber(from)
  {
    var last := FirstOfMonth(MonthIndex(from) - 1);
    var length := MonthLength(last.year, last.month);
    PriorMonthEnd(from);
    NormalisedInside(MonthIndex(from) - 1, 1);
    DaysWithinMonth(last, length);
    DaysWithinMonth(last, SameDayLastMonth(from, to).day);
    assert DayNumber(last.(day := length)) == DayNumber(from) - 1;
  }

  lemma AdjacentComparison(preset: Preset, from: Date, to: Date)
    requires Resolved(preset, from, to) && !preset.MonthToDate?
    ensures var c := ComparisonDates(preset, from, to);
            && c.Some?
            && DayNumber(c.value.1) + 1 == DayNumber(from) && Days(c.value.0, c.value.1) == Days(from, to)
  {
    if preset.Custom? {
      assert DurationDays(from, to) == Days(from, to) - 1;
      var end := AddDays(from, -1);
      assert ComparisonDates(preset, from, to) == Some((AddDays(end, 1 - Days(from, to)), end));
    } else {
      assert ComparisonDates(preset, from, to) == Some((AddDays(from, -1), AddDays(from, -1)));
    }
  }

  /**
   The comparison of every resolved period exists and ends before the period starts. A custom
   comparison is adjacent and equally long; a month-to-date comparison runs from the first of
   the month before to the same day number, clamped to that month.
   */
  lemma ComparisonOfResolved(preset: Preset, from: Date, to: Date)
    requires Resolved(preset, from, to)
    ensures var c := ComparisonDates(preset, from, to);
            && c.Some?
            && 1 <= Days(c.value.0, c.value.1) && DayNumber(c.value.1) < DayNumber(from)
            && (!preset.MonthToDate? ==>
                DayNumber(c.value.1) + 1 == DayNumber(from) && Days(c.value.0, c.value.1) == Days(from, to))
            && (preset.MonthToDate? ==> ClampedLastMonth(from, to, c.value))
  {
    if preset.MonthToDate? {
      MonthToDateComparison(from, to);
    } else {
      AdjacentComparison(preset, from, to);
    }
  }

  /** Whether the comparison dates have four-digit years, in terms of the period itself. */
  predicate ComparisonInRange(preset: Preset, from: Date, to: Date)
    requires IsDate(from) && IsDate(to)
  {
    if preset.MonthToDate? then 1 <= MonthIndex(from) else DayNumber(Date(0, 1, 1)) <= DayNumber(from) - Days(from, to)
  }

  lemma FromYearZero(d: Date)
    requires IsDate(d)
    ensures 0 <= d.year <==> DayNumber(Date(0, 1, 1)) <= DayNumber(d)
  {
    NumbersFollowDates(d, Date(0, 1, 1));
    NumbersFollowDates(Date(0, 1, 1), d);
  }

  lemma EarlierYear(a: Date, b: Date)
    requires IsDate(a) && IsDate(b) && DayNumber(a) < DayNumber(b)
    ensures a.year <= b.year
  {
    NumbersFollowDates(a, b);
  }

  /**
   From the preset, the instant and the custom texts to the comparison: when the resolved dates
   print with four-digit years, a comparison is returned, and its texts read back as the
   comparison dates exactly when the period is late enough after the start of year 0.
   */
  lemma ComparisonReadsBack(preset: Preset, instant: int, customFrom: Option<string>, customTo: Option<string>)
    requires var r := ResolveDates(preset, instant, customFrom, customTo);
             r.Some? && 0 <= r.value.0.year && r.value.1.year <= 9999
    ensures var r := ResolveDates(preset, instant, customFrom, customTo);
            var p := ResolvePeriod(preset, instant, customFrom, customTo);
            var c := ComparisonDates(preset, r.value.0, r.value.1);
            && p.Some? && ResolveComparisonPeriod(p.value).Some? && c.Some?
            && var q := ResolveComparisonPeriod(p.value).value;
            && q.preset == Custom
            && (Parse(q.dateFrom) == Some(c.value.0) && Parse(q.dateTo) == Some(c.value.1)
                <==> ComparisonInRange(preset, r.value.0, r.value.1))
  {
    var r := ResolveDates(preset, instant, customFrom, customTo);
    var from, to := r.value.0, r.value.1;
    ResolveIsResolved(preset, instant, customFrom, customTo);
    ComparisonTexts(preset, from, to);
    var c := ComparisonDates(preset, from, to).value;
    DateRoundTrip(c.0);
    DateRoundTrip(c.1);
    ComparisonYears(preset, from, to);
  }

  lemma ComparisonTexts(preset: Preset, from: Date, to: Date)
    requires Resolved(preset, from, to) && 0 <= from.year && to.year <= 9999
    ensures var c := ComparisonDates(preset, from, to);
            c.Some? && ResolveComparisonPeriod(PeriodOf(preset, from, to))
              == Some(PeriodOf(Custom, c.value.0, c.value.1))
  {
    ResolvedYears(from, to);
    DateRoundTrip(from);
    DateRoundTrip(to);
    ComparisonOfResolved(preset, from, to);
  }

  lemma ResolvedYears(from: Date, to: Date)
    requires IsDate(from) && IsDate(to) && 1 <= Days(from, to)
    ensures from.year <= to.year
  {
    if Days(from, to) == 1 {
      NumbersFollowDates(from, to);
    } else {
      EarlierYear(from, to);
    }
  }

  lemma ComparisonYears(preset: Preset, from: Date, to: Date)
    requires Resolved(preset, from, to) && 0 <= from.year && to.year <= 9999
    ensures var c := ComparisonDates(preset, from, to);
            && c.Some? && c.value.0.year <= c.value.1.year <= 9999
            && (0 <= c.value.0.year <==> ComparisonInRange(preset, from, to))
  {
    ComparisonOfResolved(preset, from, to);
    var c := ComparisonDates(preset, from, to).value;
    ResolvedYears(from, to);
    ResolvedYears(c.0, c.1);
    EarlierYear(c.1, from);
    FromYearZero(c.0);
  }

  lemma FirstDayReads()
    ensures Parse("0000-01-01") == Some(Date(0, 1, 1)) && AddDays(Date(0, 1, 1), -1).year == -1
  {
    var first := Date(0, 1, 1);
    var text := "0000-01-01";
    assert LooksLikeDate(text) && DigitValue('0') == 0 && DigitValue('1') == 1;
    YearsAddUp(-1);
    MonthsAddUp(-1, 12);
    NumbersFollowDates(AddDays(first, -1), Date(-1, 12, 31));
  }

  /** The boundary: the comparison of the first representable day has no readable date. */
  lemma FirstDayHasNoComparison()
    ensures var p := Period(Custom, "0000-01-01", "0000-01-01");
            && ResolvePeriod(Custom, 0, Some("0000-01-01"), Some("0000-01-01")) == Some(p)
            && ResolveComparisonPeriod(p).Some? && Parse(ResolveComparisonPeriod(p).value.dateFrom).None?
  {
    var first := Date(0, 1, 1);
    FirstDayReads();
    TextRoundTrip("0000-01-01");
    DateRoundTrip(AddDays(first, -1));
    assert AddDays(AddDays(first, -1), 0) == AddDays(first, -1);
  }

  // ---- Effective periods of scheduled reports ----

  function EffectivePreset(preset: Preset, kind: ParameterKind): Preset {
    match kind
    case DateRange => if preset.AsOfRun? then TodayToNow else preset
    case AsOfDate => if !preset.Yesterday? then AsOfRun else preset
    case CurrentOnly => AsOfRun
  }

  function ResolveEffectivePeriod(preset: Preset, kind: ParameterKind, instant: int): Option<Period> {
    ResolvePeriod(EffectivePreset(preset, kind), instant, None, None)
  }

  /** For a schedule's presets every report gets a period, and only ranged reports more than one day. */
  lemma EffectivePeriods(preset: Preset, kind: ParameterKind, instant: int)
    requires !preset.Custom?
    ensures ResolveEffectivePeriod(preset, kind, instant).Some?
    ensures var p := ResolveEffectivePeriod(preset, kind, instant).value;
            p.dateFrom == p.dateTo || (kind.DateRange? && preset.MonthToDate?)
  {
  }
}
