/**
 Trend buckets: days up to 62 days, weeks counted from the first day up to 186, months beyond.
 A detail report aggregates raw rows, a summary report rows that SQL has grouped already.
 Dates are day numbers, amounts integers in the smallest unit.
 */
module Trends {
  import opened Options
  import opened Calendar
  import opened Ranking

  datatype Mode = ByDay | ByWeek | ByMonth

  function ModeOf(days: int): Mode {
    if days > 186 then ByMonth else if days > 62 then ByWeek else ByDay
  }

  /** A row whose date may be unreadable and whose amount may not parse. */
  datatype Row = Row(date: Option<int>, amount: Option<int>)

  /** dashboardBucketKey: the day, the first day of the week, or the month. */
  function BucketKey(from: int, day: int, mode: Mode): int {
    match mode
    case ByDay => day
    case ByWeek => from + (day - from) / 7 * 7
    case ByMonth => MonthIndex(DateOf(day))
  }

  /** The key of every day, as a function of the day. */
  function Keys(from: int, mode: Mode): int -> int {
    day => BucketKey(from, day, mode)
  }

  // ---- Labels ----

  /** The keys of the first n days, each once, in the order they are met. */
  function Labels(from: int, n: nat, keyOf: int -> int): seq<int> {
    if n == 0 then []
    else
      var before, key := Labels(from, n - 1, keyOf), keyOf(from + n - 1);
      if key in before then before else before + [key]
  }

  lemma {:induction false} LabelsAre(from: int, n: nat, keyOf: int -> int)
    ensures Distinct(Labels(from, n, keyOf))
    ensures forall day | from <= day < from + n :: keyOf(day) in Labels(from, n, keyOf)
  {
    if n != 0 {
      LabelsAre(from, n - 1, keyOf);
    }
  }

  method PeriodBuckets(from: int, to: int, keyOf: int -> int) returns (labels: seq<int>, indexes: map<int, nat>)
    requires from <= to
    ensures labels == Labels(from, to - from + 1, keyOf)
    ensures forall key :: key in indexes <==> key in labels
    ensures forall key | key in indexes :: indexes[key] < |labels| && labels[indexes[key]] == key
  {
    labels, indexes := [], map[];
    var date := from;
    while date <= to
      invariant from <= date <= to + 1
      invariant labels == Labels(from, date - from, keyOf)
      invariant forall key :: key in indexes <==> key in labels
      invariant forall key | key in indexes :: indexes[key] < |labels| && labels[indexes[key]] == key
    {
      var key := keyOf(date);
      if key !in indexes {
        indexes := indexes[key := |labels|];
        labels := labels + [key];
      }
      date := date + 1;
    }
  }

  // ---- Aggregation ----

  predicate Inside(r: Row, from: int, to: int) {
    r.date.Some? && from <= r.date.value <= to
  }

  predicate Hits(r: Row, from: int, to: int, keyOf: int -> int, key: int) {
    Inside(r, from, to) && keyOf(r.date.value) == key
  }

  function BucketSum(rows: seq<Row>, from: int, to: int, keyOf: int -> int, key: int): int {
    if rows == [] then 0
    else
      var r := rows[|rows| - 1];
      BucketSum(rows[..|rows| - 1], from, to, keyOf, key) + if Hits(r, from, to, keyOf, key) then r.amount.GetOr(0)
        else 0
  }

  /** The amounts of all rows dated inside the period. */
  function PeriodSum(rows: seq<Row>, from: int, to: int): int {
    if rows == [] then 0
    else
      var r := rows[|rows| - 1];
      PeriodSum(rows[..|rows| - 1], from, to) + if Inside(r, from, to) then r.amount.GetOr(0) else 0
  }

  lemma BucketSumNext(rows: seq<Row>, r: Row, from: int, to: int, keyOf: int -> int, key: int)
    ensures BucketSum(rows + [r], from, to, keyOf, key) ==
            BucketSum(rows, from, to, keyOf, key) + if Hits(r, from, to, keyOf, key) then r.amount.GetOr(0) else 0
  {
    assert (rows + [r])[..|rows|] == rows;
  }

  ghost predicate Filled(values: seq<int>, labels: seq<int>, rows: seq<Row>, from: int, to: int, keyOf: int -> int) {
    |values| == |labels| && forall i | 0 <= i < |labels| :: values[i] == BucketSum(rows, from, to, keyOf, labels[i])
  }

  lemma FilledNext(values: seq<int>, labels: seq<int>, rows: seq<Row>, r: Row, from: int, to: int, keyOf: int -> int,
                   index: nat)
    requires Filled(values, labels, rows, from, to, keyOf) && Distinct(labels) && r.amount.Some?
    requires Inside(r, from, to) && index < |labels| && labels[index] == keyOf(r.date.value)
    ensures Filled(values[index := values[index] + r.amount.value], labels, rows + [r], from, to, keyOf)
  {
    forall i | 0 <= i < |labels|
      ensures values[index := values[index] + r.amount.value][i] == BucketSum(rows + [r], from, to, keyOf, labels[i])
    {
      BucketSumNext(rows, r, from, to, keyOf, labels[i]);
    }
  }

  lemma FilledSkip(values: seq<int>, labels: seq<int>, rows: seq<Row>, r: Row, from: int, to: int, keyOf: int -> int)
    requires Filled(values, labels, rows, from, to, keyOf) && !Inside(r, from, to)
    ensures Filled(values, labels, rows + [r], from, to, keyOf)
  {
    forall i | 0 <= i < |labels|
      ensures values[i] == BucketSum(rows + [r], from, to, keyOf, labels[i])
    {
      BucketSumNext(rows, r, from, to, keyOf, labels[i]);
    }
  }

  /** Every day of the period has a label, so a row inside it always finds its bucket. */
  method AddRow(values: array<int>, labels: seq<int>, indexes: map<int, nat>, ghost rows: seq<Row>, row: Row,
                from: int, to: int, keyOf: int -> int)
    requires from <= to && Inside(row, from, to) && row.amount.Some?
    requires labels == Labels(from, to - from + 1, keyOf) && Filled(values[..], labels, rows, from, to, keyOf)
    requires forall key :: key in indexes <==> key in labels
    requires forall key | key in indexes :: indexes[key] < |labels| && labels[indexes[key]] == key
    modifies values
    ensures Filled(values[..], labels, rows + [row], from, to, keyOf)
  {
    LabelsAre(from, to - from + 1, keyOf);
    ghost var before := values[..];
    var key := keyOf(row.date.value);
    if key in indexes {
      var index := indexes[key];
      values[index] := values[index] + row.amount.value;
      assert values[..] == before[index := before[index] + row.amount.value];
      FilledNext(before, labels, rows, row, from, to, keyOf, index);
    }
  }

  function PeriodKeys(from: int, to: int): int -> int {
    Keys(from, ModeOf(to - from + 1))
  }

  /**
   aggregatePeriodRows: one value per label, the sum of the rows of its bucket. Rows outside the
   period or without a date are passed over; an amount that does not parse inside it is an error.
   */
  method AggregatePeriodRows(from: int, to: int, rows: seq<Row>)
    returns (labels: seq<int>, values: array<int>, ok: bool)
    requires from <= to
    ensures fresh(values) && labels == Labels(from, to - from + 1, PeriodKeys(from, to))
    ensures ok <==> forall r | r in rows && Inside(r, from, to) :: r.amount.Some?
    ensures ok ==> Filled(values[..], labels, rows, from, to, PeriodKeys(from, to))
  {
    var keyOf := PeriodKeys(from, to);
    var indexes: map<int, nat>;
    labels, indexes := PeriodBuckets(from, to, keyOf);
    values := new int[|labels|](_ => 0);
    for k := 0 to |rows|
      invariant Filled(values[..], labels, rows[..k], from, to, keyOf)
      invariant forall r | r in rows[..k] && Inside(r, from, to) :: r.amount.Some?
    {
      var row := rows[k];
      assert rows[..k + 1] == rows[..k] + [row];
      if Inside(row, from, to) {
        if row.amount.None? {
          assert row in rows;
          ok := false;
          return;
        }
        AddRow(values, labels, indexes, rows[..k], row, from, to, keyOf);
      } else {
        FilledSkip(values[..], labels, rows[..k], row, from, to, keyOf);
      }
    }
    assert rows[..|rows|] == rows;
    ok := true;
  }

  /**
   Two days share a bucket: only a day with itself up to 62 days, in the same week counted from the first day up to
   186, and in the same month of the same year beyond.
   */
  lemma SameBucket(from: int, to: int, a: int, b: int)
    ensures PeriodKeys(from, to)(a) == PeriodKeys(from, to)(b) <==>
              if to - from + 1 <= 62 then a == b
              else if to - from + 1 <= 186 then (a - from) / 7 == (b - from) / 7
              else DateOf(a).year == DateOf(b).year && DateOf(a).month == DateOf(b).month
  {
    var days := to - from + 1;
    if days <= 62 {
      assert ModeOf(days) == ByDay;
    } else if days <= 186 {
      assert ModeOf(days) == ByWeek;
      SameWeek((a - from) / 7, (b - from) / 7);
    } else {
      assert ModeOf(days) == ByMonth;
      SameMonth(DateOf(a), DateOf(b));
    }
  }

  lemma SameWeek(a: int, b: int)
    ensures a * 7 == b * 7 <==> a == b
  {
  }

  lemma SameMonth(a: Date, b: Date)
    requires IsDate(a) && IsDate(b)
    ensures MonthIndex(a) == MonthIndex(b) <==> a.year == b.year && a.month == b.month
  {
  }

  /** The date a group is shown under: the day, the first day of its week, or the first of its month. */
  lemma GroupedUnder(from: int, day: int, days: int)
    ensures var shown := SqlBuckets(from, ModeOf(days))(day);
            if days <= 62 then shown == day
            else if days <= 186 then shown <= day < shown + 7 && (shown - from) % 7 == 0
            else DateOf(shown) == Date(DateOf(day).year, DateOf(day).month, 1)
  {
    WeekStart(from, day);
    FirstDayOfMonth(DateOf(day));
  }

  lemma WeekStart(from: int, day: int)
    ensures var shown := from + (day - from) / 7 * 7; shown <= day < shown + 7 && (shown - from) % 7 == 0
  {
  }

  lemma FirstDayOfMonth(d: Date)
    requires IsDate(d)
    ensures DateOf(DayNumber(FirstOfMonth(MonthIndex(d)))) == Date(d.year, d.month, 1)
  {
    FirstOfOwnMonth(d);
    NumbersFollowDates(DateOf(DayNumber(FirstOfMonth(MonthIndex(d)))), FirstOfMonth(MonthIndex(d)));
  }

  // ---- Conservation ----

  function SumOverLabels(labels: seq<int>, rows: seq<Row>, from: int, to: int, keyOf: int -> int): int {
    if labels == [] then 0
    else
      SumOverLabels(labels[..|labels| - 1], rows, from, to, keyOf)
      + BucketSum(rows, from, to, keyOf, labels[|labels| - 1])
  }

  lemma {:induction false} OneLabelGains(labels: seq<int>, rows: seq<Row>, r: Row, from: int, to: int,
                                         keyOf: int -> int)
    requires Distinct(labels)
    ensures SumOverLabels(labels, rows + [r], from, to, keyOf) ==
            SumOverLabels(labels, rows, from, to, keyOf) +
            if Inside(r, from, to) && keyOf(r.date.value) in labels then r.amount.GetOr(0) else 0
  {
    if labels != [] {
      var front, last := labels[..|labels| - 1], labels[|labels| - 1];
      OneLabelGains(front, rows, r, from, to, keyOf);
      BucketSumNext(rows, r, from, to, keyOf, last);
      assert labels == front + [last];
      assert forall i | 0 <= i < |front| :: front[i] == labels[i];
    }
  }

  lemma {:induction false} NoRowsNoSum(labels: seq<int>, from: int, to: int, keyOf: int -> int)
    ensures SumOverLabels(labels, [], from, to, keyOf) == 0
  {
    if labels != [] {
      NoRowsNoSum(labels[..|labels| - 1], from, to, keyOf);
    }
  }

  lemma {:induction false} LabelsConserve(labels: seq<int>, rows: seq<Row>, from: int, to: int, keyOf: int -> int)
    requires Distinct(labels) && forall day | from <= day <= to :: keyOf(day) in labels
    ensures SumOverLabels(labels, rows, from, to, keyOf) == PeriodSum(rows, from, to)
  {
    if rows == [] {
      NoRowsNoSum(labels, from, to, keyOf);
    } else {
      var front, r := rows[..|rows| - 1], rows[|rows| - 1];
      LabelsConserve(labels, front, from, to, keyOf);
      OneLabelGains(labels, front, r, from, to, keyOf);
      assert rows == front + [r];
    }
  }

  /** The buckets of a period add up to the amounts of all rows dated inside it. */
  lemma BucketsConserve(rows: seq<Row>, from: int, to: int)
    requires from <= to
    ensures SumOverLabels(Labels(from, to - from + 1, PeriodKeys(from, to)), rows, from, to, PeriodKeys(from, to))
            == PeriodSum(rows, from, to)
  {
    LabelsAre(from, to - from + 1, PeriodKeys(from, to));
    LabelsConserve(Labels(from, to - from + 1, PeriodKeys(from, to)), rows, from, to, PeriodKeys(from, to));
  }

  // ---- Grouping in SQL ----

  /** summaryBucketExpression: months are grouped under their first day, even before from. */
  function SqlBucket(from: int, day: int, mode: Mode): int {
    match mode
    case ByDay => day
    case ByWeek => from + (day - from) / 7 * 7
    case ByMonth => DayNumber(FirstOfMonth(MonthIndex(DateOf(day))))
  }

  function SqlBuckets(from: int, mode: Mode): int -> int {
    day => SqlBucket(from, day, mode)
  }

  /** The query selects rows dated inside the period, with readable dates and amounts. */
  ghost predicate Selected(rows: seq<Row>, from: int, to: int) {
    forall r | r in rows :: Inside(r, from, to) && r.amount.Some?
  }

  function GroupSum(rows: seq<Row>, bucketOf: int -> int, bucket: int): int {
    if rows == [] then 0
    else
      var r := rows[|rows| - 1];
      GroupSum(rows[..|rows| - 1], bucketOf, bucket) +
      if r.date.Some? && bucketOf(r.date.value) == bucket then r.amount.GetOr(0) else 0
  }

  ghost predicate AllBucketed(buckets: seq<int>, rows: seq<Row>, bucketOf: int -> int) {
    forall r | r in rows :: r.date.Some? && bucketOf(r.date.value) in buckets
  }

  /** The group by result: one row per bucket that occurs, in any order. */
  ghost predicate IsGrouping(buckets: seq<int>, rows: seq<Row>, bucketOf: int -> int) {
    && Distinct(buckets)
    && AllBucketed(buckets, rows, bucketOf)
    && (forall b | b in buckets :: exists r :: r in rows && r.date.Some? && bucketOf(r.date.value) == b)
  }

  function GroupedRows(buckets: seq<int>, rows: seq<Row>, bucketOf: int -> int): seq<Row> {
    if buckets == [] then []
    else
      var b := buckets[|buckets| - 1];
      GroupedRows(buckets[..|buckets| - 1], rows, bucketOf) + [Row(Some(b), Some(GroupSum(rows, bucketOf, b)))]
  }

  /** A bucket date the aggregation keeps, under the key it sees. */
  predicate Lands(b: int, from: int, to: int, keyOf: int -> int, key: int) {
    from <= b <= to && keyOf(b) == key
  }

  /** What the grouped rows contribute to a bucket, row by row. */
  function LandedSum(rows: seq<Row>, from: int, to: int, keyOf: int -> int, bucketOf: int -> int, key: int): int {
    if rows == [] then 0
    else
      var r := rows[|rows| - 1];
      LandedSum(rows[..|rows| - 1], from, to, keyOf, bucketOf, key) +
      if r.date.Some? && Lands(bucketOf(r.date.value), from, to, keyOf, key) then r.amount.GetOr(0) else 0
  }

  lemma GroupAppends(buckets: seq<int>, rows: seq<Row>, from: int, to: int, keyOf: int -> int, bucketOf: int -> int,
                     key: int)
    requires buckets != []
    ensures var last := buckets[|buckets| - 1];
            BucketSum(GroupedRows(buckets, rows, bucketOf), from, to, keyOf, key) ==
            BucketSum(GroupedRows(buckets[..|buckets| - 1], rows, bucketOf), from, to, keyOf, key) +
            if Lands(last, from, to, keyOf, key) then GroupSum(rows, bucketOf, last) else 0
  {
    var last := buckets[|buckets| - 1];
    BucketSumNext(GroupedRows(buckets[..|buckets| - 1], rows, bucketOf),
                  Row(Some(last), Some(GroupSum(rows, bucketOf, last))),
                  from, to, keyOf, key);
  }

  /** Adding a row to the source changes only the group of its own bucket. */
  lemma {:induction false} OneGroupGains(buckets: seq<int>, rows: seq<Row>, r: Row, from: int, to: int,
                                         keyOf: int -> int, bucketOf: int -> int, key: int)
    requires Distinct(buckets) && r.date.Some?
    ensures BucketSum(GroupedRows(buckets, rows + [r], bucketOf), from, to, keyOf, key) ==
            BucketSum(GroupedRows(buckets, rows, bucketOf), from, to, keyOf, key) +
            var b := bucketOf(r.date.value);
            if b in buckets && Lands(b, from, to, keyOf, key) then r.amount.GetOr(0) else 0
  {
    if buckets != [] {
      var front, last := buckets[..|buckets| - 1], buckets[|buckets| - 1];
      OneGroupGains(front, rows, r, from, to, keyOf, bucketOf, key);
      assert buckets == front + [last];
      assert forall i | 0 <= i < |front| :: front[i] == buckets[i];
      GroupAppends(buckets, rows, from, to, keyOf, bucketOf, key);
      GroupAppends(buckets, rows + [r], from, to, keyOf, bucketOf, key);
      assert (rows + [r])[..|rows|] == rows;
    }
  }

  lemma {:induction false} EmptyGroups(buckets: seq<int>, from: int, to: int, keyOf: int -> int, bucketOf: int -> int,
                                       key: int)
    ensures BucketSum(GroupedRows(buckets, [], bucketOf), from, to, keyOf, key) == 0
  {
    if buckets != [] {
      EmptyGroups(buckets[..|buckets| - 1], from, to, keyOf, bucketOf, key);
      GroupAppends(buckets, [], from, to, keyOf, bucketOf, key);
    }
  }

  lemma {:induction false} GroupsLand(buckets: seq<int>, rows: seq<Row>, from: int, to: int, keyOf: int -> int,
                                      bucketOf: int -> int, key: int)
    requires Distinct(buckets) && AllBucketed(buckets, rows, bucketOf)
    ensures BucketSum(GroupedRows(buckets, rows, bucketOf), from, to, keyOf, key)
            == LandedSum(rows, from, to, keyOf, bucketOf, key)
  {
    if rows == [] {
      EmptyGroups(buckets, from, to, keyOf, bucketOf, key);
    } else {
      var front, r := rows[..|rows| - 1], rows[|rows| - 1];
      assert rows == front + [r] && r in rows;
      GroupsLand(buckets, front, from, to, keyOf, bucketOf, key);
      OneGroupGains(buckets, front, r, from, to, keyOf, bucketOf, key);
    }
  }

  /** Whether the aggregation keeps the SQL bucket of a day in the bucket of the day itself. */
  predicate Kept(from: int, day: int, mode: Mode) {
    !mode.ByMonth? || DateOf(from).day == 1 || MonthIndex(DateOf(day)) != MonthIndex(DateOf(from))
  }

  lemma MonthOfDay(day: int)
    ensures DateOf(DayNumber(FirstOfMonth(MonthIndex(DateOf(day))))) == FirstOfMonth(MonthIndex(DateOf(day)))
    ensures DayNumber(FirstOfMonth(MonthIndex(DateOf(day)))) == day - DateOf(day).day + 1
  {
    var d := DateOf(day);
    FirstOfOwnMonth(d);
    DaysWithinMonth(d, 1);
    var first := FirstOfMonth(MonthIndex(d));
    NumbersFollowDates(DateOf(DayNumber(first)), first);
  }

  lemma SameMonthOrder(from: int, day: int)
    requires from <= day
    ensures MonthIndex(DateOf(from)) <= MonthIndex(DateOf(day))
    ensures MonthIndex(DateOf(from)) < MonthIndex(DateOf(day)) ==>
            from < DayNumber(FirstOfMonth(MonthIndex(DateOf(day))))
  {
    var a, b := DateOf(from), DateOf(day);
    NumbersFollowDates(b, a);
    if MonthIndex(a) < MonthIndex(b) {
      NumbersFollowDates(a, FirstOfMonth(MonthIndex(b)));
    }
  }

  /** The day of the month, and the month, of the days the lemmas below compare. */
  lemma FirstsCompare(from: int, day: int, first: int, fromDay: int, dayDay: int, fromMonth: int, dayMonth: int)
    requires from <= day && 1 <= fromDay && 1 <= dayDay && first == day - dayDay + 1
    requires fromMonth < dayMonth ==> from < first
    requires fromMonth == dayMonth ==> from - fromDay + 1 == first
    requires fromMonth <= dayMonth
    ensures first <= day
    ensures from <= first <==> fromDay == 1 || dayMonth != fromMonth
  {
  }

  lemma FirstOfMonthLands(from: int, day: int)
    requires from <= day
    ensures var first := SqlBucket(from, day, ByMonth);
            && first <= day
            && BucketKey(from, first, ByMonth) == BucketKey(from, day, ByMonth)
            && (from <= first <==> Kept(from, day, ByMonth))
  {
    var first := SqlBucket(from, day, ByMonth);
    MonthOfDay(day);
    MonthOfDay(from);
    SameMonthOrder(from, day);
    FirstsCompare(from, day, first, DateOf(from).day, DateOf(day).day, MonthIndex(DateOf(from)),
                  MonthIndex(DateOf(day)));
  }

  lemma BucketLands(from: int, to: int, day: int, mode: Mode, key: int)
    requires from <= day <= to
    ensures Lands(SqlBucket(from, day, mode), from, to, Keys(from, mode), key) <==>
            Kept(from, day, mode) && BucketKey(from, day, mode) == key
  {
    match mode
    case ByMonth => FirstOfMonthLands(from, day);
    case ByWeek => assert (day - from) / 7 * 7 / 7 == (day - from) / 7;
    case ByDay =>
  }

  /** The first bucket, which grouping empties when the period starts inside a month. */
  predicate LosesFirst(from: int, mode: Mode, key: int) {
    mode.ByMonth? && DateOf(from).day != 1 && key == MonthIndex(DateOf(from))
  }

  lemma KeptOrLost(from: int, day: int, mode: Mode, key: int)
    requires BucketKey(from, day, mode) == key
    ensures Kept(from, day, mode) <==> !LosesFirst(from, mode, key)
  {
  }

  lemma {:induction false} LandedOrLost(rows: seq<Row>, from: int, to: int, keyOf: int -> int, bucketOf: int -> int,
                                        key: int, lost: bool)
    requires forall r | r in rows ::
             Inside(r, from, to) && (Lands(bucketOf(r.date.value), from, to, keyOf, key) <==>
                                     !lost && keyOf(r.date.value) == key)
    ensures LandedSum(rows, from, to, keyOf, bucketOf, key) == if lost then 0 else BucketSum(rows, from, to, keyOf, key)
  {
    if rows != [] {
      var front, r := rows[..|rows| - 1], rows[|rows| - 1];
      assert r in rows && forall x | x in front :: x in rows;
      LandedOrLost(front, from, to, keyOf, bucketOf, key, lost);
    }
  }

  lemma LandedIsKept(rows: seq<Row>, from: int, to: int, mode: Mode, key: int)
    requires Selected(rows, from, to)
    ensures LandedSum(rows, from, to, Keys(from, mode), SqlBuckets(from, mode), key) ==
            if LosesFirst(from, mode, key) then 0 else BucketSum(rows, from, to, Keys(from, mode), key)
  {
    var keyOf, bucketOf, lost := Keys(from, mode), SqlBuckets(from, mode), LosesFirst(from, mode, key);
    forall r | r in rows
      ensures Inside(r, from, to)
              && (Lands(bucketOf(r.date.value), from, to, keyOf, key) <==> !lost && keyOf(r.date.value) == key)
    {
      RowLands(from, to, r.date.value, mode, key);
    }
    LandedOrLost(rows, from, to, keyOf, bucketOf, key, lost);
  }

  lemma RowLands(from: int, to: int, day: int, mode: Mode, key: int)
    requires from <= day <= to
    ensures Lands(SqlBuckets(from, mode)(day), from, to, Keys(from, mode), key) <==>
            !LosesFirst(from, mode, key) && Keys(from, mode)(day) == key
  {
    BucketLands(from, to, day, mode, key);
    if BucketKey(from, day, mode) == key {
      KeptOrLost(from, day, mode, key);
    }
  }

  /**
   Aggregating the grouped rows gives every bucket of the raw rows, except that in month mode
   the first bucket is empty when the period does not start on the first of a month.
   */
  lemma GroupedTrend(buckets: seq<int>, rows: seq<Row>, from: int, to: int, mode: Mode, key: int)
    requires from <= to && Selected(rows, from, to) && IsGrouping(buckets, rows, SqlBuckets(from, mode))
    ensures BucketSum(GroupedRows(buckets, rows, SqlBuckets(from, mode)), from, to, Keys(from, mode), key) ==
            if LosesFirst(from, mode, key) then 0 else BucketSum(rows, from, to, Keys(from, mode), key)
  {
    GroupsLand(buckets, rows, from, to, Keys(from, mode), SqlBuckets(from, mode), key);
    LandedIsKept(rows, from, to, mode, key);
  }

  ghost predicate SameTrend(a: seq<Row>, b: seq<Row>, from: int, to: int, keyOf: int -> int) {
    forall key :: BucketSum(a, from, to, keyOf, key) == BucketSum(b, from, to, keyOf, key)
  }

  /** For given rows the two trends agree exactly when nothing is lost in the first month. */
  lemma TrendsAgree(buckets: seq<int>, rows: seq<Row>, from: int, to: int, mode: Mode)
    requires from <= to && mode == ModeOf(to - from + 1)
    requires Selected(rows, from, to) && IsGrouping(buckets, rows, SqlBuckets(from, mode))
    ensures SameTrend(GroupedRows(buckets, rows, SqlBuckets(from, mode)), rows, from, to, Keys(from, mode)) <==>
              to - from + 1 <= 186 || DateOf(from).day == 1
                || BucketSum(rows, from, to, Keys(from, mode), MonthIndex(DateOf(from))) == 0
  {
    var grouped, keyOf := GroupedRows(buckets, rows, SqlBuckets(from, mode)), Keys(from, mode);
    forall key
      ensures BucketSum(grouped, from, to, keyOf, key) == if LosesFirst(from, mode, key) then 0
              else BucketSum(rows, from, to, keyOf, key)
    {
      GroupedTrend(buckets, rows, from, to, mode, key);
    }
    var first := MonthIndex(DateOf(from));
    assert BucketSum(grouped, from, to, keyOf, first) == if LosesFirst(from, mode, first) then 0
      else BucketSum(rows, from, to, keyOf, first);
  }

  /** So the period itself decides: a long one that starts inside a month has rows on which the trends differ. */
  lemma LongPeriodsNeedMonthStart(from: int, to: int)
    requires 186 < to - from + 1 && DateOf(from).day != 1
    ensures var rows := [Row(Some(from), Some(1))];
            var buckets := [SqlBucket(from, from, ByMonth)];
            && Selected(rows, from, to) && IsGrouping(buckets, rows, SqlBuckets(from, ByMonth))
            && !SameTrend(GroupedRows(buckets, rows, SqlBuckets(from, ByMonth)), rows, from, to, Keys(from, ByMonth))
  {
    var rows := [Row(Some(from), Some(1))];
    var buckets := [SqlBucket(from, from, ByMonth)];
    OneRowGroups(rows[0], SqlBuckets(from, ByMonth));
    assert Hits(rows[0], from, to, Keys(from, ByMonth), MonthIndex(DateOf(from)));
    OneRowSum(rows[0], from, to, Keys(from, ByMonth), MonthIndex(DateOf(from)));
    TrendsAgree(buckets, rows, from, to, ByMonth);
  }

  /** Whatever the rows are, their grouped and raw trends agree. */
  ghost predicate AlwaysAgree(from: int, to: int) {
    var mode := ModeOf(to - from + 1);
    forall buckets, rows | Selected(rows, from, to) && IsGrouping(buckets, rows, SqlBuckets(from, mode)) ::
      SameTrend(GroupedRows(buckets, rows, SqlBuckets(from, mode)), rows, from, to, Keys(from, mode))
  }

  /** The period alone decides whether they do: it has at most 186 days or starts on the first of a month. */
  lemma PeriodDecides(from: int, to: int)
    requires from <= to
    ensures AlwaysAgree(from, to) <==> to - from + 1 <= 186 || DateOf(from).day == 1
  {
    var mode := ModeOf(to - from + 1);
    if to - from + 1 <= 186 || DateOf(from).day == 1 {
      forall buckets, rows | Selected(rows, from, to) && IsGrouping(buckets, rows, SqlBuckets(from, mode))
        ensures SameTrend(GroupedRows(buckets, rows, SqlBuckets(from, mode)), rows, from, to, Keys(from, mode))
      {
        TrendsAgree(buckets, rows, from, to, mode);
      }
    } else {
      LongPeriodsNeedMonthStart(from, to);
    }
  }

  lemma OneRowGroups(r: Row, bucketOf: int -> int)
    requires r.date.Some?
    ensures IsGrouping([bucketOf(r.date.value)], [r], bucketOf)
  {
    assert [r][0] == r;
  }

  lemma OneRowSum(r: Row, from: int, to: int, keyOf: int -> int, key: int)
    requires Hits(r, from, to, keyOf, key)
    ensures BucketSum([r], from, to, keyOf, key) == r.amount.GetOr(0)
  {
    BucketSumNext([], r, from, to, keyOf, key);
    assert [] + [r] == [r];
  }

  // ---- The row limit ----

  lemma {:induction false} DistinctFits(a: seq<int>, low: int, n: nat)
    requires Distinct(a) && forall x | x in a :: low <= x < low + n
    ensures |a| <= n
    decreases n
  {
    if a != [] {
      assert a[0] in a;
      if low + n - 1 in a {
        var i :| 0 <= i < |a| && a[i] == low + n - 1;
        var rest := a[..i] + a[i + 1..];
        assert forall x | x in rest :: x in a && x != a[i];
        DistinctFits(rest, low, n - 1);
      } else {
        DistinctFits(a, low, n - 1);
      }
    }
  }

  function Slot(from: int, b: int, mode: Mode): int {
    match mode
    case ByDay => b - from
    case ByWeek => (b - from) / 7
    case ByMonth => MonthIndex(DateOf(b)) - MonthIndex(DateOf(from))
  }

  function Slots(from: int, buckets: seq<int>, mode: Mode): (s: seq<int>)
    ensures |s| == |buckets|
  {
    seq(|buckets|, i requires 0 <= i < |buckets| => Slot(from, buckets[i], mode))
  }

  function MostBuckets(mode: Mode): nat {
    match mode
    case ByDay => 62
    case ByWeek => 27
    case ByMonth => 13
  }

  /** A year is at least 365 days long, wherever it starts. */
  lemma TwelveMonths(index: int)
    ensures DayNumber(FirstOfMonth(index)) + 365 <= DayNumber(FirstOfMonth(index + 12))
  {
    var d := FirstOfMonth(index);
    assert FirstOfMonth(index + 12) == Date(d.year + 1, d.month, 1);
    YearsAddUp(d.year);
  }

  lemma MonthsWithinYear(from: int, day: int)
    requires from <= day <= from + 365
    ensures MonthIndex(DateOf(day)) - MonthIndex(DateOf(from)) <= 12
  {
    var i := MonthIndex(DateOf(from));
    if i + 13 <= MonthIndex(DateOf(day)) {
      TwelveMonths(i + 1);
      BeforeNextMonth(from);
      NumbersFollowDates(DateOf(day), FirstOfMonth(i + 13));
    }
  }

  lemma BeforeNextMonth(day: int)
    ensures day < DayNumber(FirstOfMonth(MonthIndex(DateOf(day)) + 1))
  {
    NumbersFollowDates(DateOf(day), FirstOfMonth(MonthIndex(DateOf(day)) + 1));
  }

  lemma SlotInRange(from: int, to: int, day: int, mode: Mode)
    requires from <= day <= to && to - from + 1 <= 366 && mode == ModeOf(to - from + 1)
    ensures 0 <= Slot(from, SqlBucket(from, day, mode), mode) < MostBuckets(mode)
  {
    if mode.ByMonth? {
      MonthOfDay(day);
      SameMonthOrder(from, day);
      MonthsWithinYear(from, day);
    }
  }

  lemma SlotTellsBucket(from: int, x: int, y: int, mode: Mode)
    requires Slot(from, SqlBucket(from, x, mode), mode) == Slot(from, SqlBucket(from, y, mode), mode)
    ensures SqlBucket(from, x, mode) == SqlBucket(from, y, mode)
  {
    if mode.ByMonth? {
      MonthOfDay(x);
      MonthOfDay(y);
    }
  }

  /** The trend rows and ten ranked rows of a period of up to 366 days stay below the limit of 200. */
  lemma RowLimitIsNeverReached(buckets: seq<int>, rows: seq<Row>, from: int, to: int)
    requires from <= to && to - from + 1 <= 366
    requires Selected(rows, from, to) && IsGrouping(buckets, rows, SqlBuckets(from, ModeOf(to - from + 1)))
    ensures |buckets| <= MostBuckets(ModeOf(to - from + 1)) && |buckets| + 10 < 200
  {
    var mode := ModeOf(to - from + 1);
    var slots := Slots(from, buckets, mode);
    forall i | 0 <= i < |buckets|
      ensures exists day :: from <= day <= to && SqlBucket(from, day, mode) == buckets[i]
      ensures 0 <= slots[i] < MostBuckets(mode)
    {
      assert buckets[i] in buckets;
      var r :| r in rows && r.date.Some? && SqlBucket(from, r.date.value, mode) == buckets[i];
      SlotInRange(from, to, r.date.value, mode);
    }
    forall i, j | 0 <= i < j < |slots|
      ensures slots[i] != slots[j]
    {
      var x :| from <= x <= to && SqlBucket(from, x, mode) == buckets[i];
      var y :| from <= y <= to && SqlBucket(from, y, mode) == buckets[j];
      if slots[i] == slots[j] {
        SlotTellsBucket(from, x, y, mode);
      }
    }
    DistinctFits(slots, 0, MostBuckets(mode));
  }
}
