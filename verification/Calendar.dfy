/**
 Gregorian dates, their day numbers and their RFC 3339 texts (sections 5.6 and 5.7 of RFC 3339).

 A date is a year, a month and a day of the month; its day number counts from the first day of
 year 1, so that the days between two dates are a difference. Years run in both directions without
 bound, as they do in the source, whose dates may lie outside the four digits a text can hold.
 What the rest of the model relies on is stated here once: day numbers order dates and name them
 uniquely, adding days is adding numbers, and a date and its text agree exactly as far as four
 digits of a year go.
 */
module Calendar {
  import opened Options

  datatype Date = Date(year: int, month: int, day: int)

  predicate Leap(year: int) {
    year % 4 == 0 && (year % 100 != 0 || year % 400 == 0)
  }

  function MonthLength(year: int, month: int): int {
    if month == 2 then if Leap(year) then 29 else 28
    else if month == 4 || month == 6 || month == 9 || month == 11 then 30
    else 31
  }

  predicate IsDate(d: Date) {
    1 <= d.month <= 12 && 1 <= d.day <= MonthLength(d.year, d.month)
  }

  // ---- Day numbers ----

  /** Days from 0001-01-01 to the first day of a year. */
  function YearStart(year: int): int {
    var y := year - 1;
    365 * y + y / 4 - y / 100 + y / 400
  }

  /** Days before a month in a year that is not leap; 13 stands for the end of the year. */
  function PlainMonthStart(month: int): int
    requires 1 <= month <= 13
  {
    if month <= 7 then
      if month == 1 then 0 else if month == 2 then 31 else if month == 3 then 59 else if month == 4 then 90
      else if month == 5 then 120 else if month == 6 then 151 else 181
    else if month == 8 then 212 else if month == 9 then 243 else if month == 10 then 273
    else if month == 11 then 304 else if month == 12 then 334 else 365
  }

  function MonthStart(year: int, month: int): int
    requires 1 <= month <= 13
  {
    PlainMonthStart(month) + if 2 < month && Leap(year) then 1 else 0
  }

  /** The number of a day; 0001-01-01 is day 0, a Monday. */
  function DayNumber(d: Date): int
    requires 1 <= d.month <= 12
  {
    YearStart(d.year) + MonthStart(d.year, d.month) + d.day - 1
  }

  function YearLength(year: int): int {
    if Leap(year) then 366 else 365
  }

  lemma YearsAddUp(year: int)
    ensures YearStart(year + 1) == YearStart(year) + YearLength(year)
  {
    var y := year - 1;
    assert year / 4 == y / 4 + if year % 4 == 0 then 1 else 0;
    assert year / 100 == y / 100 + if year % 100 == 0 then 1 else 0;
    assert year / 400 == y / 400 + if year % 400 == 0 then 1 else 0;
  }

  /** The months of a year follow each other without gaps. */
  lemma MonthsAddUp(year: int, month: int)
    requires 1 <= month <= 12
    ensures MonthStart(year, month + 1) == MonthStart(year, month) + MonthLength(year, month)
    ensures MonthStart(year, 13) == YearLength(year)
  {
  }

  /** The following day. */
  function Next(d: Date): (n: Date)
    requires IsDate(d)
    ensures IsDate(n)
  {
    if d.day < MonthLength(d.year, d.month) then Date(d.year, d.month, d.day + 1)
    else if d.month < 12 then Date(d.year, d.month + 1, 1)
    else Date(d.year + 1, 1, 1)
  }

  function Previous(d: Date): (p: Date)
    requires IsDate(d)
    ensures IsDate(p)
  {
    if 1 < d.day then Date(d.year, d.month, d.day - 1)
    else if 1 < d.month then Date(d.year, d.month - 1, MonthLength(d.year, d.month - 1))
    else Date(d.year - 1, 12, 31)
  }

  lemma NextCounts(d: Date)
    requires IsDate(d)
    ensures DayNumber(Next(d)) == DayNumber(d) + 1
  {
    if d.day == MonthLength(d.year, d.month) {
      MonthsAddUp(d.year, d.month);
      YearsAddUp(d.year);
    }
  }

  lemma PreviousCounts(d: Date)
    requires IsDate(d)
    ensures DayNumber(Previous(d)) == DayNumber(d) - 1
  {
    if d.day == 1 && 1 < d.month {
      MonthsAddUp(d.year, d.month - 1);
    } else if d.day == 1 {
      YearsAddUp(d.year - 1);
      MonthsAddUp(d.year - 1, 12);
    }
  }

  /** AddDate(0, 0, n). */
  function AddDays(d: Date, n: int): (r: Date)
    requires IsDate(d)
    ensures IsDate(r) && DayNumber(r) == DayNumber(d) + n
    decreases if n < 0 then -n else n
  {
    if n == 0 then d
    else if 0 < n then
      var r := AddDays(d, n - 1); NextCounts(r); Next(r)
    else
      var r := AddDays(d, n + 1); PreviousCounts(r); Previous(r)
  }

  predicate Before(a: Date, b: Date) {
    a.year < b.year || (a.year == b.year && (a.month < b.month || (a.month == b.month && a.day < b.day)))
  }

  lemma MonthStartGrows(year: int, a: int, b: int)
    requires 1 <= a < b <= 13
    ensures 0 <= MonthStart(year, a) && MonthStart(year, a) + MonthLength(year, a) <= MonthStart(year, b)
  {
  }

  lemma {:induction false} YearStartGrows(a: int, b: int)
    requires a < b
    ensures YearStart(a) + YearLength(a) <= YearStart(b)
    decreases b - a
  {
    YearsAddUp(b - 1);
    if a < b - 1 {
      YearStartGrows(a, b - 1);
    }
  }

  /** Earlier dates have smaller numbers, so a day number names one date. */
  lemma NumbersFollowDates(a: Date, b: Date)
    requires IsDate(a) && IsDate(b)
    ensures Before(a, b) <==> DayNumber(a) < DayNumber(b)
    ensures a == b <==> DayNumber(a) == DayNumber(b)
  {
    if Before(a, b) {
      EarlierIsLess(a, b);
    } else if Before(b, a) {
      EarlierIsLess(b, a);
    }
  }

  lemma EarlierIsLess(a: Date, b: Date)
    requires IsDate(a) && IsDate(b) && Before(a, b)
    ensures DayNumber(a) < DayNumber(b)
  {
    if a.year < b.year {
      YearStartGrows(a.year, b.year);
      MonthStartGrows(a.year, a.month, 13);
      MonthStartGrows(b.year, b.month, 13);
    } else if a.month < b.month {
      MonthStartGrows(a.year, a.month, b.month);
    }
  }

  /** The date with a given number. */
  function DateOf(n: int): (d: Date)
    ensures IsDate(d) && DayNumber(d) == n
  {
    AddDays(Date(1, 1, 1), n)
  }

  /** Sunday is 0. */
  function Weekday(n: int): int {
    (n + 1) % 7
  }

  /** A calendar month as one number. */
  function MonthIndex(d: Date): int {
    d.year * 12 + d.month - 1
  }

  function FirstOfMonth(index: int): (d: Date)
    ensures IsDate(d) && d.day == 1 && MonthIndex(d) == index
  {
    Date(index / 12, index % 12 + 1, 1)
  }

  lemma FirstOfOwnMonth(d: Date)
    requires IsDate(d)
    ensures FirstOfMonth(MonthIndex(d)) == d.(day := 1)
  {
  }

  lemma DaysWithinMonth(d: Date, day: int)
    requires 1 <= d.month <= 12
    ensures DayNumber(d.(day := day)) == DayNumber(d) - d.day + day
  {
  }

  /** time.Date with a month and day that may be out of range. */
  function Normalised(monthIndex: int, day: int): (d: Date)
    ensures IsDate(d) && DayNumber(d) == DayNumber(FirstOfMonth(monthIndex)) + day - 1
  {
    AddDays(FirstOfMonth(monthIndex), day - 1)
  }

  lemma NormalisedInside(monthIndex: int, day: int)
    requires 1 <= day <= MonthLength(FirstOfMonth(monthIndex).year, FirstOfMonth(monthIndex).month)
    ensures Normalised(monthIndex, day) == FirstOfMonth(monthIndex).(day := day)
  {
    NumbersFollowDates(Normalised(monthIndex, day), FirstOfMonth(monthIndex).(day := day));
  }

  // ---- Texts ----

  function Digit(n: int): char
    requires 0 <= n <= 9
  {
    ('0' as int + n) as char
  }

  predicate IsDigit(c: char) {
    '0' <= c <= '9'
  }

  function DigitValue(c: char): (n: int)
    requires IsDigit(c)
    ensures 0 <= n <= 9
  {
    c as int - '0' as int
  }

  function TwoDigits(n: int): string
    requires 0 <= n <= 99
  {
    [Digit(n / 10), Digit(n % 10)]
  }

  /** At least four digits, with a sign for years before 0. */
  function YearText(year: int): (s: string)
    ensures 0 <= year <= 9999 ==> |s| == 4
    ensures !(0 <= year <= 9999) ==> 5 <= |s|
    decreases if year < 0 then -year + 1 else year
  {
    if year < 0 then "-" + YearText(-year)
    else if year <= 9999 then TwoDigits(year / 100) + TwoDigits(year % 100)
    else YearText(year / 10) + [Digit(year % 10)]
  }

  /** Format with the layout 2006-01-02. */
  function Format(d: Date): string
    requires IsDate(d)
  {
    YearText(d.year) + "-" + TwoDigits(d.month) + "-" + TwoDigits(d.day)
  }

  predicate LooksLikeDate(s: string) {
    && |s| == 10 && s[4] == '-' && s[7] == '-'
    && IsDigit(s[0]) && IsDigit(s[1]) && IsDigit(s[2]) && IsDigit(s[3])
    && IsDigit(s[5]) && IsDigit(s[6]) && IsDigit(s[8]) && IsDigit(s[9])
  }

  function Parse(s: string): Option<Date> {
    if !LooksLikeDate(s) then None
    else
      var d := Date(DigitValue(s[0]) * 1000 + DigitValue(s[1]) * 100 + DigitValue(s[2]) * 10 + DigitValue(s[3]),
                    DigitValue(s[5]) * 10 + DigitValue(s[6]), DigitValue(s[8]) * 10 + DigitValue(s[9]));
      if IsDate(d) then Some(d) else None
  }

  /** A formatted date reads back exactly when its year has four digits. */
  lemma DateRoundTrip(d: Date)
    requires IsDate(d)
    ensures Parse(Format(d)) == Some(d) <==> 0 <= d.year <= 9999
    ensures Parse(Format(d)) == None <==> !(0 <= d.year <= 9999)
  {
    if 0 <= d.year <= 9999 {
      FourDigits(d.year);
    }
  }

  lemma FourDigits(year: int)
    requires 0 <= year <= 9999
    ensures |YearText(year)| == 4 && forall i | 0 <= i < 4 :: IsDigit(YearText(year)[i])
    ensures var t := YearText(year);
            DigitValue(t[0]) * 1000 + DigitValue(t[1]) * 100 + DigitValue(t[2]) * 10 + DigitValue(t[3]) == year
  {
  }

  lemma YearTextBack(s: string)
    requires LooksLikeDate(s)
    ensures YearText(DigitValue(s[0]) * 1000 + DigitValue(s[1]) * 100 + DigitValue(s[2]) * 10 + DigitValue(s[3]))
            == s[..4]
  {
    var y := DigitValue(s[0]) * 1000 + DigitValue(s[1]) * 100 + DigitValue(s[2]) * 10 + DigitValue(s[3]);
    assert y / 100 == DigitValue(s[0]) * 10 + DigitValue(s[1]);
    assert y % 100 == DigitValue(s[2]) * 10 + DigitValue(s[3]);
  }

  /** What reads as a date prints back as the same text. */
  lemma TextRoundTrip(s: string)
    requires Parse(s).Some?
    ensures Format(Parse(s).value) == s && 0 <= Parse(s).value.year <= 9999
  {
    YearTextBack(s);
    assert TwoDigits(Parse(s).value.month) == s[5..7];
    assert TwoDigits(Parse(s).value.day) == s[8..];
    assert s == s[..4] + "-" + s[5..7] + "-" + s[8..];
  }
}
