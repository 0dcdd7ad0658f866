/** Validation of a schedule's input, and the occurrences shown for it. */
module ScheduleInput {
  import opened Options
  import opened Catalog
  import opened Calendar
  import opened Occurrences
  import Ranking

  /** The name is given by its trimmed length; recipient 0 stands for the nil identifier. */
  datatype Input = Input(nameLength: nat, days: seq<int>, localTime: string, bangkok: bool, preset: Preset,
                         keys: seq<ReportKey>, recipients: seq<nat>)

  datatype Fault = InvalidName | InvalidDays | InvalidLocalTime | InvalidTimezone | InvalidPreset | InvalidReports
                 | DuplicateReport | InvalidRecipients | DuplicateRecipient | InvalidCount

  datatype Verdict<T> = Accepted(value: T) | Rejected(fault: Fault)

  predicate LooksLikeClock(s: string) {
    |s| == 5 && IsDigit(s[0]) && IsDigit(s[1]) && s[2] == ':' && IsDigit(s[3]) && IsDigit(s[4])
  }

  function Hour(s: string): int
    requires LooksLikeClock(s)
  {
    DigitValue(s[0]) * 10 + DigitValue(s[1])
  }

  function Minute(s: string): int
    requires LooksLikeClock(s)
  {
    DigitValue(s[3]) * 10 + DigitValue(s[4])
  }

  predicate ClockText(s: string) {
    LooksLikeClock(s) && IsClock(Hour(s), Minute(s))
  }

  /** HH:MM, from 00:00 to 23:59: each clock time has one text, and no other text is accepted. */
  lemma ClockRoundTrip(s: string, hour: int, minute: int)
    requires IsClock(hour, minute)
    ensures var text := TwoDigits(hour) + ":" + TwoDigits(minute);
            ClockText(text) && Hour(text) == hour && Minute(text) == minute
    ensures ClockText(s) ==> s == TwoDigits(Hour(s)) + ":" + TwoDigits(Minute(s))
  {
    var text := TwoDigits(hour) + ":" + TwoDigits(minute);
    assert |text| == 5 && text[2] == ':';
    if ClockText(s) {
      assert s == s[..2] + ":" + s[3..];
      assert s[..2] == TwoDigits(Hour(s)) && s[3..] == TwoDigits(Minute(s));
    }
  }

  /** What a schedule needs, with no mention of the order of the checks. */
  ghost predicate Acceptable(i: Input) {
    && 1 <= i.nameLength <= 160
    && 1 <= |i.days| <= 7 && Ranking.Distinct(i.days) && (forall d | d in i.days :: 0 <= d <= 6)
    && ClockText(i.localTime) && i.bangkok && !i.preset.Custom?
    && 1 <= |i.keys| <= 10 && Ranking.Distinct(i.keys)
    && 1 <= |i.recipients| <= 500 && Ranking.Distinct(i.recipients) && 0 !in i.recipients
  }

  function Ascending(days: seq<int>): seq<int> {
    Ranking.Sort(days, (a, b) => a < b)
  }

  lemma {:induction false} SortKeepsSize(days: seq<int>)
    ensures Ranking.Elements(Ascending(days)) == Ranking.Elements(days) && |Ascending(days)| == |days|
  {
    if days != [] {
      var front, last := days[..|days| - 1], days[|days| - 1];
      SortKeepsSize(front);
      Ranking.InsertElements(Ascending(front), last, (a, b) => a < b);
      assert days == front + [last];
      assert Ranking.Elements(days) == Ranking.Elements(front) + {last};
    }
  }

  lemma {:induction false} SizeTellsDistinct(a: seq<int>)
    ensures |Ranking.Elements(a)| <= |a|
    ensures |Ranking.Elements(a)| == |a| <==> Ranking.Distinct(a)
  {
    if a != [] {
      var front, last := a[..|a| - 1], a[|a| - 1];
      SizeTellsDistinct(front);
      assert a == front + [last];
      assert Ranking.Elements(a) == Ranking.Elements(front) + {last};
      if last in Ranking.Elements(front) {
        var k :| 0 <= k < |front| && front[k] == last;
        assert a[k] == a[|a| - 1];
        assert Ranking.Elements(a) == Ranking.Elements(front);
      } else {
        assert forall k | 0 <= k < |front| :: front[k] in Ranking.Elements(front);
      }
    }
  }

  /** Sorted days without a repetition come from days without one, and the other way round. */
  lemma SortedDays(days: seq<int>)
    ensures ValidDays(Ascending(days)) <==>
              1 <= |days| <= 7 && Ranking.Distinct(days) && (forall d | d in days :: 0 <= d <= 6)
  {
    var sorted := Ascending(days);
    SortKeepsSize(days);
    SizeTellsDistinct(days);
    SizeTellsDistinct(sorted);
    assert forall k | 0 <= k < |days| :: days[k] in Ranking.Elements(days);
    assert forall k | 0 <= k < |sorted| :: sorted[k] in Ranking.Elements(sorted);
    if ValidDays(sorted) {
      forall d | d in days
        ensures 0 <= d <= 6
      {
        assert d in Ranking.Elements(sorted);
      }
    } else if 1 <= |days| <= 7 && Ranking.Distinct(days) && (forall d | d in days :: 0 <= d <= 6) {
      Ranking.SortCorrect(days, (a, b) => a < b);
    }
  }

  method CheckDistinct<T(==,!new)>(items: seq<T>) returns (ok: bool)
    ensures ok == Ranking.Distinct(items)
  {
    var seen: set<T> := {};
    for i := 0 to |items|
      invariant seen == set k | 0 <= k < i :: items[k]
      invariant forall j, k | 0 <= j < k < i :: items[j] != items[k]
    {
      if items[i] in seen {
        return false;
      }
      seen := seen + {items[i]};
    }
    return true;
  }

  /** Accepts exactly the acceptable inputs, with their days in ascending order and the rest as given. */
  method Validate(input: Input) returns (v: Verdict<Input>)
    ensures v.Accepted? <==> Acceptable(input)
    ensures v.Accepted? ==> v.value == input.(days := Ascending(input.days)) && ValidDays(v.value.days)
  {
    if input.nameLength < 1 || input.nameLength > 160 {
      return Rejected(InvalidName);
    }
    SortedDays(input.days);
    SortKeepsSize(input.days);
    if |input.days| < 1 || |input.days| > 7 {
      return Rejected(InvalidDays);
    }
    var days := Ascending(input.days);
    for index := 0 to |days|
      invariant forall k | 0 <= k < index :: 0 <= days[k] <= 6
      invariant forall j, k | 0 <= j < k < index :: days[j] < days[k]
    {
      if days[index] < 0 || days[index] > 6 || (index > 0 && days[index - 1] == days[index]) {
        return Rejected(InvalidDays);
      }
      WeaklySorted(input.days, index);
    }
    if !ClockText(input.localTime) {
      return Rejected(InvalidLocalTime);
    }
    if !input.bangkok {
      return Rejected(InvalidTimezone);
    }
    if input.preset.Custom? {
      return Rejected(InvalidPreset);
    }
    if |input.keys| < 1 || |input.keys| > 10 {
      return Rejected(InvalidReports);
    }
    var distinctKeys := CheckDistinct(input.keys);
    if !distinctKeys {
      return Rejected(DuplicateReport);
    }
    if |input.recipients| < 1 || |input.recipients| > 500 || 0 in input.recipients {
      return Rejected(InvalidRecipients);
    }
    var distinctRecipients := CheckDistinct(input.recipients);
    if !distinctRecipients {
      return Rejected(DuplicateRecipient);
    }
    v := Accepted(input.(days := days));
  }

  /** Neighbours in the sorted list are in weak order. */
  lemma WeaklySorted(days: seq<int>, index: nat)
    requires index < |Ascending(days)|
    ensures 0 < index ==> Ascending(days)[index - 1] <= Ascending(days)[index]
  {
    AscendingIsWeak(days);
  }

  lemma {:induction false} AscendingIsWeak(days: seq<int>)
    ensures var s := Ascending(days); forall i | 0 < i < |s| :: s[i - 1] <= s[i]
  {
    if days != [] {
      AscendingIsWeak(days[..|days| - 1]);
      InsertIsWeak(Ascending(days[..|days| - 1]), days[|days| - 1]);
    }
  }

  lemma {:induction false} InsertIsWeak(s: seq<int>, x: int)
    requires forall i | 0 < i < |s| :: s[i - 1] <= s[i]
    ensures var t := Ranking.Insert(s, x, (a, b) => a < b);
            |t| == |s| + 1 && (t[0] == x || (s != [] && t[0] == s[0])) && forall i | 0 < i < |t| :: t[i - 1] <= t[i]
  {
    if s != [] && !(x < s[0]) {
      InsertIsWeak(s[1..], x);
    }
  }

  /** The count next due times of an acceptable schedule, for a count from 1 to 100. */
  method NextOccurrences(input: Input, after: int, count: int) returns (v: Verdict<seq<int>>)
    ensures v.Accepted? <==> 1 <= count <= 100 && Acceptable(input)
    ensures v.Accepted? ==> |v.value| == count
                            && IsNext(Ascending(input.days), Hour(input.localTime), Minute(input.localTime), after,
                                      v.value)
  {
    if count < 1 || count > 100 {
      return Rejected(InvalidCount);
    }
    var validated := Validate(input);
    match validated
    case Rejected(fault) =>
      return Rejected(fault);
    case Accepted(i) =>
      var found := CalculateOccurrences(i.days, Hour(i.localTime), Minute(i.localTime), after, count);
      return Accepted(found);
  }
}
