/** Periods and due times by the clock on the wall in Bangkok, from 1970-01-01, a Thursday, on. */
module LocalDates {
  import opened Options
  import opened Units
  import opened Catalog
  import opened Calendar
  import opened Periods
  import opened Occurrences

  /** Days since 1970-01-01. */
  function Since1970(d: Date): int
    requires IsDate(d)
  {
    DayNumber(d) - DayNumber(Date(1970, 1, 1))
  }

  /** The date in Bangkok, seven hours ahead. */
  predicate IsLocalDate(instant: int, d: Date) {
    IsDate(d) && Since1970(d) * 86_400 * SECOND <= instant + 25_200 * SECOND < (Since1970(d) + 1) * 86_400 * SECOND
  }

  lemma LocalDateOf(instant: int) returns (d: Date)
    ensures IsLocalDate(instant, d) && d == DateOf(LocalDay(instant))
  {
    d := DateOf(LocalDay(instant));
    assert DayNumber(Date(1970, 1, 1)) == EPOCH;
    Divides(instant + 25_200 * SECOND);
  }

  lemma Divides(t: int)
    ensures t / DAY * 86_400 * SECOND <= t < (t / DAY + 1) * 86_400 * SECOND
  {
  }

  /** A day is 86400 seconds long, so the date a day earlier is the date before. */
  lemma DayBefore(instant: int) returns (d: Date)
    ensures IsLocalDate(instant - 86_400 * SECOND, d) && d == AddDays(DateOf(LocalDay(instant)), -1)
  {
    var today := LocalDateOf(instant);
    d := AddDays(today, -1);
  }

  /** A year with four digits, a month and a day with two, in this order. */
  lemma FormatMeans(d: Date)
    requires IsDate(d) && 0 <= d.year <= 9999
    ensures var s := Format(d);
            && |s| == 10 && s[4] == '-' && s[7] == '-'
            && (forall i | i in {0, 1, 2, 3, 5, 6, 8, 9} :: '0' <= s[i] <= '9')
            && var value := (i: int) requires i in {0, 1, 2, 3, 5, 6, 8, 9} => s[i] as int - '0' as int;
            && d.year == value(0) * 1000 + value(1) * 100 + value(2) * 10 + value(3)
            && d.month == value(5) * 10 + value(6) && d.day == value(8) * 10 + value(9)
  {
    FourDigits(d.year);
  }

  /**
   The period of a preset by the local date of the instant: yesterday, today, or the month up to
   today. A custom period is the one given exactly when both texts are dates and span one to 366 days.
   */
  lemma PeriodMeans(preset: Preset, instant: int, customFrom: Option<string>, customTo: Option<string>)
    ensures var r := ResolvePeriod(preset, instant, customFrom, customTo);
            match preset
            case Yesterday => exists d | IsLocalDate(instant - 86_400 * SECOND, d) ::
              r == Some(Period(Yesterday, Format(d), Format(d)))
            case MonthToDate => exists d | IsLocalDate(instant, d) ::
              r == Some(Period(MonthToDate, Format(Date(d.year, d.month, 1)), Format(d)))
            case Custom =>
              if customFrom.Some? && customTo.Some? && Parse(customFrom.value).Some? && Parse(customTo.value).Some?
                 && 0 <= DayNumber(Parse(customTo.value).value) - DayNumber(Parse(customFrom.value).value) < 366
              then r == Some(Period(Custom, customFrom.value, customTo.value))
              else r == None
            case _ => exists d | IsLocalDate(instant, d) :: r == Some(Period(preset, Format(d), Format(d)))
  {
    if preset.Custom? {
      CustomMeans(instant, customFrom, customTo);
    } else if preset.Yesterday? {
      var before := DayBefore(instant);
      assert ResolvePeriod(preset, instant, customFrom, customTo)
             == Some(Period(Yesterday, Format(before), Format(before)));
    } else {
      var today := LocalDateOf(instant);
      assert preset.MonthToDate? ==> today.(day := 1) == Date(today.year, today.month, 1);
    }
  }

  lemma CustomMeans(instant: int, customFrom: Option<string>, customTo: Option<string>)
    ensures ResolvePeriod(Custom, instant, customFrom, customTo)
            == if customFrom.Some? && customTo.Some? && Parse(customFrom.value).Some? && Parse(customTo.value).Some?
                  && 0 <= DayNumber(Parse(customTo.value).value) - DayNumber(Parse(customFrom.value).value) < 366
               then Some(Period(Custom, customFrom.value, customTo.value)) else None
  {
    if ResolvePeriod(Custom, instant, customFrom, customTo).Some? {
      TextRoundTrip(customFrom.value);
      TextRoundTrip(customTo.value);
    }
  }

  /** The day a scheduled report ends on: the day before for yesterday, unless it is about now. */
  function LastDay(preset: Preset, kind: ParameterKind, instant: int): int {
    if preset == Yesterday && kind != CurrentOnly then instant - 86_400 * SECOND else instant
  }

  /** The preset it is labelled with: as of the run when it is about a moment, else a range of days. */
  function Label(preset: Preset, kind: ParameterKind): Preset {
    if kind == CurrentOnly || (kind == AsOfDate && preset != Yesterday) then AsOfRun
    else if preset == AsOfRun then TodayToNow
    else preset
  }

  /** The period of a scheduled report: month to date only for reports over a range, else one day. */
  lemma EffectiveMeans(preset: Preset, kind: ParameterKind, instant: int)
    requires !preset.Custom?
    ensures exists d | IsLocalDate(LastDay(preset, kind, instant), d) ::
              ResolveEffectivePeriod(preset, kind, instant) == Some(Period(Label(preset, kind),
                Format(if preset == MonthToDate && kind == DateRange then Date(d.year, d.month, 1) else d), Format(d)))
  {
    if preset == Yesterday && kind != CurrentOnly {
      var d := DayBefore(instant);
      EffectiveOn(preset, kind, instant, d);
    } else {
      var d := LocalDateOf(instant);
      EffectiveOn(preset, kind, instant, d);
    }
  }

  lemma EffectiveOn(preset: Preset, kind: ParameterKind, instant: int, d: Date)
    requires !preset.Custom?
    requires var today := DateOf(LocalDay(instant));
             d == if preset == Yesterday && kind != CurrentOnly then AddDays(today, -1) else today
    ensures ResolveEffectivePeriod(preset, kind, instant) == Some(Period(Label(preset, kind),
              Format(if preset == MonthToDate && kind == DateRange then Date(d.year, d.month, 1) else d), Format(d)))
  {
    assert d.(day := 1) == Date(d.year, d.month, 1);
  }

  // ---- Due times ----

  /** A local time of day on one of the weekdays, Sunday being 0. */
  ghost predicate IsDue(days: seq<int>, hour: int, minute: int, t: int) {
    exists d | IsDate(d) ::
      && t == Since1970(d) * 86_400 * SECOND + (hour * 3600 + minute * 60) * SECOND - 25_200 * SECOND
      && (Since1970(d) + 4) % 7 in days
  }

  lemma EpochDay()
    ensures DayNumber(Date(1970, 1, 1)) == EPOCH
  {
  }

  lemma DayMeans(n: int, hour: int, minute: int)
    ensures Instant(n, hour, minute)
            == (n - EPOCH) * 86_400 * SECOND + (hour * 3600 + minute * 60) * SECOND - 25_200 * SECOND
    ensures Weekday(n) == (n - EPOCH + 4) % 7
  {
  }

  lemma InstantMeans(d: Date, hour: int, minute: int)
    requires IsDate(d)
    ensures Instant(DayNumber(d), hour, minute)
            == Since1970(d) * 86_400 * SECOND + (hour * 3600 + minute * 60) * SECOND - 25_200 * SECOND
    ensures Weekday(DayNumber(d)) == (Since1970(d) + 4) % 7
  {
    EpochDay();
    DayMeans(DayNumber(d), hour, minute);
  }

  lemma DueMeans(days: seq<int>, hour: int, minute: int, t: int)
    ensures IsDue(days, hour, minute, t) <==> exists day :: Allowed(days, day) && t == Instant(day, hour, minute)
  {
    if day :| Allowed(days, day) && t == Instant(day, hour, minute) {
      InstantMeans(DateOf(day), hour, minute);
    }
    forall d | IsDate(d)
      ensures Instant(DayNumber(d), hour, minute)
              == Since1970(d) * 86_400 * SECOND + (hour * 3600 + minute * 60) * SECOND - 25_200 * SECOND
      ensures Weekday(DayNumber(d)) == (Since1970(d) + 4) % 7
    {
      InstantMeans(d, hour, minute);
    }
  }

  /** The occurrences found are due times after the moment, in order, and every other one is later. */
  lemma FoundMeans(days: seq<int>, hour: int, minute: int, after: int, found: seq<int>)
    requires IsClock(hour, minute) && IsNext(days, hour, minute, after, found)
    ensures forall i, j | 0 <= i < j < |found| :: found[i] < found[j]
    ensures forall t | t in found :: after < t && IsDue(days, hour, minute, t)
    ensures forall t | IsDue(days, hour, minute, t) && after < t && t !in found :: forall u | u in found :: u < t
  {
    forall t | t in found
      ensures after < t && IsDue(days, hour, minute, t)
    {
      var i :| 0 <= i < |found| && found[i] == t;
      DueMeans(days, hour, minute, t);
    }
    forall t | IsDue(days, hour, minute, t) && after < t && t !in found
      ensures forall u | u in found :: u < t
    {
      DueMeans(days, hour, minute, t);
    }
  }

  // ---- The calendar itself ----

  /** Four centuries have 97 leap days and a whole number of weeks; centuries are leap by 400 only. */
  lemma Centuries(year: int)
    ensures DayNumber(Date(year + 400, 1, 1)) - DayNumber(Date(year, 1, 1)) == 400 * 365 + 97
    ensures (400 * 365 + 97) % 7 == 0
    ensures IsDate(Date(2000, 2, 29)) && !IsDate(Date(1900, 2, 29))
    ensures IsDate(Date(2024, 2, 29)) && !IsDate(Date(2023, 2, 29))
    ensures DayNumber(Date(2026, 1, 1)) - DayNumber(Date(1970, 1, 1)) == 20_454
  {
  }
}
