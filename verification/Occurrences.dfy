/**
 The due times of a schedule: allowed weekdays at one local time of day in Asia/Bangkok, which
 keeps UTC+7 all year, so that every local time exists exactly once.
 */
module Occurrences {
  import opened Options
  import opened Units
  import opened Calendar
  import opened Periods

  /** The instant of a local time of day on a day. */
  function Instant(day: int, hour: int, minute: int): int {
    (day - EPOCH) * DAY - ZONE + (hour * 60 + minute) * MINUTE
  }

  /** Minutes since local midnight. */
  function LocalMinute(instant: int): int {
    (instant + ZONE) % DAY / MINUTE
  }

  predicate IsClock(hour: int, minute: int) {
    0 <= hour < 24 && 0 <= minute < 60
  }

  predicate ValidDays(days: seq<int>) {
    && 1 <= |days| <= 7
    && (forall i | 0 <= i < |days| :: 0 <= days[i] <= 6)
    && (forall i, j | 0 <= i < j < |days| :: days[i] < days[j])
  }

  predicate Allowed(days: seq<int>, day: int) {
    Weekday(day) in days
  }

  lemma InstantIsLocal(day: int, hour: int, minute: int)
    requires IsClock(hour, minute)
    ensures LocalDay(Instant(day, hour, minute)) == day
    ensures LocalMinute(Instant(day, hour, minute)) == hour * 60 + minute
  {
    var within := (hour * 60 + minute) * MINUTE;
    assert Instant(day, hour, minute) + ZONE == (day - EPOCH) * DAY + within;
    DivMod(day - EPOCH, within);
  }

  lemma DivMod(q: int, r: int)
    requires 0 <= r < DAY
    ensures (q * DAY + r) / DAY == q && (q * DAY + r) % DAY == r
  {
  }

  lemma LocalDayBounds(instant: int)
    ensures Instant(LocalDay(instant), 0, 0) <= instant < Instant(LocalDay(instant) + 1, 0, 0)
  {
  }

  /** What the caller asks for: the count least allowed instants after a moment, in order. */
  ghost predicate IsNext(days: seq<int>, hour: int, minute: int, after: int, found: seq<int>) {
    && (forall i | 0 <= i < |found| ::
        after < found[i] && Allowed(days, LocalDay(found[i])) && found[i] == Instant(LocalDay(found[i]), hour, minute))
    && (forall i, j | 0 <= i < j < |found| :: found[i] < found[j])
    && (forall day | Allowed(days, day) && after < Instant(day, hour, minute) ::
          Instant(day, hour, minute) in found || (forall t | t in found :: t < Instant(day, hour, minute)))
  }

  /** The allowed days among those looked at whose time lies after the moment. */
  function Hits(days: seq<int>, hour: int, minute: int, after: int, first: int, n: nat): seq<int> {
    if n == 0 then []
    else
      var day := first + n - 1;
      Hits(days, hour, minute, after, first, n - 1) + if Allowed(days, day) && after < Instant(day, hour, minute) then
        [day] else []
  }

  function Instants(hits: seq<int>, hour: int, minute: int): (found: seq<int>)
    ensures |found| == |hits|
  {
    seq(|hits|, i requires 0 <= i < |hits| => Instant(hits[i], hour, minute))
  }

  /** The first day after the start on which the first weekday of the list falls. */
  function FirstHit(days: seq<int>, first: int): (o: int)
    requires ValidDays(days)
    ensures 1 <= o <= 7 && Weekday(first + o) == days[0]
  {
    var gap := (days[0] - Weekday(first)) % 7;
    if gap == 0 then 7 else gap
  }

  lemma WeeklyHit(days: seq<int>, first: int, k: nat)
    requires ValidDays(days)
    ensures Allowed(days, first + FirstHit(days, first) + 7 * k)
  {
    assert Weekday(first + FirstHit(days, first) + 7 * k) == days[0];
  }

  /** Enough weeks have passed to have found a time in each of them. */
  ghost predicate Enough(days: seq<int>, first: int, offset: int, n: nat)
    requires ValidDays(days)
  {
    forall k: nat | FirstHit(days, first) + 7 * k < offset :: k < n
  }

  lemma EnoughGrows(days: seq<int>, first: int, offset: int, n: nat, found: bool)
    requires ValidDays(days) && Enough(days, first, offset, n)
    requires Allowed(days, first + offset) && 1 <= offset ==> found
    ensures Enough(days, first, offset + 1, if found then n + 1 else n)
  {
    forall k: nat | FirstHit(days, first) + 7 * k < offset + 1
      ensures k < if found then n + 1 else n
    {
      if FirstHit(days, first) + 7 * k == offset {
        WeeklyHit(days, first, k);
        if 0 < k {
          assert FirstHit(days, first) + 7 * (k - 1) < offset;
        }
      }
    }
  }

  lemma {:induction false} HitsAre(days: seq<int>, hour: int, minute: int, after: int, first: int, n: nat)
    ensures var hits := Hits(days, hour, minute, after, first, n);
            && (forall i | 0 <= i < |hits| ::
                first <= hits[i] < first + n && Allowed(days, hits[i]) && after < Instant(hits[i], hour, minute))
            && (forall i, j | 0 <= i < j < |hits| :: hits[i] < hits[j])
            && (forall day | first <= day < first + n && Allowed(days, day) && after < Instant(day, hour, minute) ::
                day in hits)
  {
    if n != 0 {
      HitsAre(days, hour, minute, after, first, n - 1);
    }
  }

  lemma Later(a: int, b: int, hour: int, minute: int)
    ensures a < b <==> Instant(a, hour, minute) < Instant(b, hour, minute)
  {
  }

  /** Before the local day of a moment no time is after it. */
  lemma NoneEarlier(day: int, hour: int, minute: int, after: int)
    requires IsClock(hour, minute) && after < Instant(day, hour, minute)
    ensures LocalDay(after) <= day
  {
    LocalDayBounds(after);
    Later(day + 1, LocalDay(after), 0, 0);
  }

  lemma HitsAreNext(days: seq<int>, hour: int, minute: int, after: int, n: nat)
    requires IsClock(hour, minute)
    ensures IsNext(days, hour, minute, after,
                   Instants(Hits(days, hour, minute, after, LocalDay(after), n), hour, minute))
  {
    var hits := Hits(days, hour, minute, after, LocalDay(after), n);
    var found := Instants(hits, hour, minute);
    HitsAre(days, hour, minute, after, LocalDay(after), n);
    forall i | 0 <= i < |found|
      ensures LocalDay(found[i]) == hits[i]
    {
      InstantIsLocal(hits[i], hour, minute);
    }
    forall day | Allowed(days, day) && after < Instant(day, hour, minute)
      ensures Instant(day, hour, minute) in found || (forall t | t in found :: t < Instant(day, hour, minute))
    {
      NoneEarlier(day, hour, minute, after);
      if day in hits {
        var i :| 0 <= i < |hits| && hits[i] == day;
        assert found[i] == Instant(day, hour, minute);
      } else {
        forall i | 0 <= i < |found|
          ensures found[i] < Instant(day, hour, minute)
        {
          Later(hits[i], day, hour, minute);
        }
      }
    }
  }

  /**
   calculateOccurrences. The window of 800 days always holds the count asked for, so the error
   after the loop never happens.
   */
  method CalculateOccurrences(days: seq<int>, hour: int, minute: int, after: int, count: int) returns (found: seq<int>)
    requires ValidDays(days) && IsClock(hour, minute) && 1 <= count <= 100
    ensures |found| == count
    ensures IsNext(days, hour, minute, after, found)
  {
    found := [];
    var first := LocalDay(after);
    var offset := 0;
    while offset < 800 && |found| < count
      invariant 0 <= offset <= 800 && |found| <= count
      invariant found == Instants(Hits(days, hour, minute, after, first, offset), hour, minute)
      invariant Enough(days, first, offset, |found|)
    {
      var day := first + offset;
      var candidate := Instant(day, hour, minute);
      InstantIsLocal(day, hour, minute);
      FirstDayOnly(offset, hour, minute, after);
      EnoughGrows(days, first, offset, |found|, Allowed(days, day) && after < candidate);
      ghost var hits := Hits(days, hour, minute, after, first, offset);
      assert Instants(hits + [day], hour, minute) == Instants(hits, hour, minute) + [candidate];
      if Allowed(days, day) {
        if LocalDay(candidate) == day && LocalMinute(candidate) == hour * 60 + minute {
          if after < candidate {
            found := found + [candidate];
          }
        }
      }
      offset := offset + 1;
    }
    assert FirstHit(days, first) + 7 * 99 < 800;
    HitsAreNext(days, hour, minute, after, offset);
  }

  /** From the second day on every time of day is after the moment. */
  lemma FirstDayOnly(offset: nat, hour: int, minute: int, after: int)
    requires IsClock(hour, minute)
    ensures 1 <= offset ==> after < Instant(LocalDay(after) + offset, hour, minute)
  {
    LocalDayBounds(after);
  }

  /** The answer is determined: there is one list of that length. */
  lemma NextIsUnique(days: seq<int>, hour: int, minute: int, after: int, a: seq<int>, b: seq<int>)
    requires IsClock(hour, minute)
    requires IsNext(days, hour, minute, after, a) && IsNext(days, hour, minute, after, b) && |a| == |b|
    ensures a == b
  {
    AgreeUpTo(days, hour, minute, after, a, b, |a|);
  }

  lemma {:induction false} AgreeUpTo(days: seq<int>, hour: int, minute: int, after: int, a: seq<int>, b: seq<int>,
                                     n: nat)
    requires IsClock(hour, minute)
    requires IsNext(days, hour, minute, after, a) && IsNext(days, hour, minute, after, b) && n <= |a| == |b|
    ensures a[..n] == b[..n]
  {
    if n != 0 {
      AgreeUpTo(days, hour, minute, after, a, b, n - 1);
      NotEarlier(days, hour, minute, after, a, b, n - 1);
      NotEarlier(days, hour, minute, after, b, a, n - 1);
    }
  }

  lemma NotEarlier(days: seq<int>, hour: int, minute: int, after: int, a: seq<int>, b: seq<int>, n: nat)
    requires IsNext(days, hour, minute, after, a) && IsNext(days, hour, minute, after, b)
    requires n < |a| == |b| && a[..n] == b[..n]
    ensures b[n] <= a[n]
  {
    assert forall k | 0 <= k < n :: a[..n][k] == b[..n][k];
    assert b[n] in b;
    assert a[n] in b ==> exists j :: 0 <= j < |b| && b[j] == a[n];
  }

  lemma PrefixIsNext(days: seq<int>, hour: int, minute: int, after: int, found: seq<int>, k: nat)
    requires IsNext(days, hour, minute, after, found) && 1 <= k <= |found|
    ensures IsNext(days, hour, minute, after, found[..k])
  {
    forall day | Allowed(days, day) && after < Instant(day, hour, minute)
      ensures Instant(day, hour, minute) in found[..k] || (forall t | t in found[..k] :: t < Instant(day, hour, minute))
    {
      if Instant(day, hour, minute) in found {
        var i :| 0 <= i < |found| && found[i] == Instant(day, hour, minute);
        assert i < k ==> found[..k][i] == found[i];
      }
    }
  }

  lemma WeekHasHit(days: seq<int>, hour: int, minute: int, after: int)
    requires ValidDays(days) && IsClock(hour, minute)
    ensures 1 <= |Hits(days, hour, minute, after, LocalDay(after), 8)|
  {
    var o := FirstHit(days, LocalDay(after));
    WeeklyHit(days, LocalDay(after), 0);
    FirstDayOnly(o, hour, minute, after);
    HitsAre(days, hour, minute, after, LocalDay(after), 8);
    assert LocalDay(after) + o in Hits(days, hour, minute, after, LocalDay(after), 8);
  }

  /** The next occurrence after a moment. */
  function FirstAfter(days: seq<int>, hour: int, minute: int, after: int): (t: int)
    requires ValidDays(days) && IsClock(hour, minute)
    ensures IsNext(days, hour, minute, after, [t])
  {
    WeekHasHit(days, hour, minute, after);
    var found := Instants(Hits(days, hour, minute, after, LocalDay(after), 8), hour, minute);
    HitsAreNext(days, hour, minute, after, 8);
    PrefixIsNext(days, hour, minute, after, found, 1);
    assert found[..1] == [found[0]];
    found[0]
  }

  lemma FirstAfterIs(days: seq<int>, hour: int, minute: int, after: int)
    requires ValidDays(days) && IsClock(hour, minute)
    ensures var t := FirstAfter(days, hour, minute, after);
            && after < t
            && forall day | Allowed(days, day) && after < Instant(day, hour, minute) :: t <= Instant(day, hour, minute)
  {
    var t := FirstAfter(days, hour, minute, after);
    assert [t][0] == t;
    forall day | Allowed(days, day) && after < Instant(day, hour, minute)
      ensures t <= Instant(day, hour, minute)
    {
      assert Instant(day, hour, minute) in [t] || (t in [t] && t < Instant(day, hour, minute));
    }
  }
}
