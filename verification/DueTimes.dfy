/** The due times of schedules over their life. */
module DueTimes {
  import opened Options
  import opened Calendar
  import opened Periods
  import opened Occurrences

  /** The weekdays and the local time a schedule runs at. */
  datatype Setting = Setting(days: seq<int>, hour: int, minute: int)

  predicate WellSet(s: Setting) {
    ValidDays(s.days) && IsClock(s.hour, s.minute)
  }

  predicate IsTime(s: Setting, x: int) {
    Allowed(s.days, LocalDay(x)) && x == Instant(LocalDay(x), s.hour, s.minute)
  }

  function Following(s: Setting, after: int): (t: int)
    requires WellSet(s)
    ensures after < t && IsTime(s, t)
    ensures forall x | IsTime(s, x) && after < x :: t <= x
  {
    var t := FirstAfter(s.days, s.hour, s.minute, after);
    FirstAfterIs(s.days, s.hour, s.minute, after);
    assert [t][0] == t;
    t
  }

  // ---- One schedule ----

  /** An activation under way: it reads the row, computes a time from what it read, and stores that. */
  datatype Call = Read(setting: Setting) | Computed(setting: Setting, asOf: int, nextRun: int)

  /**
   since is when the schedule last went live. dues are the times materialised so far and tests the
   times of test sends; both are rows of one table, unique per schedule and time.
   */
  datatype Timer = Timer(live: bool, since: int, nextRun: int, setting: Setting, dues: seq<int>, tests: seq<int>,
                         calls: map<nat, Call>)

  datatype Tick =
    | Reads(now: int, call: nat)
    | Computes(now: int, call: nat)
    | Stores(now: int, call: nat, ready: bool)
    | Stopped(now: int)
    | Edited(now: int, setting: Setting)
    | CameDue(now: int, blocked: bool)
    | Tested(now: int)

  predicate Sent(t: Timer, x: int) {
    x in t.dues || x in t.tests
  }

  /** greatest(now, max(scheduled_for) + 1 microsecond) */
  function Above(sent: seq<int>, now: int): (x: int)
    ensures now <= x && forall i | 0 <= i < |sent| :: sent[i] < x
  {
    if sent == [] then now
    else
      var rest, last := Above(sent[..|sent| - 1], now), sent[|sent| - 1] + 1;
      assert forall i | 0 <= i < |sent| - 1 :: sent[i] == sent[..|sent| - 1][i];
      if rest < last then last else rest
  }

  function TestTime(t: Timer, now: int): int {
    Above(t.dues + t.tests, now)
  }

  predicate WellFormed(t: Timer) {
    WellSet(t.setting) && forall c | c in t.calls :: WellSet(t.calls[c].setting)
  }

  /** ScheduleStore.Activate goes ahead: the schedule is not live, not archived and not blocked. */
  predicate GoesLive(t: Timer, e: Tick) {
    e.Stores? && e.call in t.calls && t.calls[e.call].Computed? && !t.live && e.ready
  }

  /** A due time whose insertion the unique constraint refuses rolls the transaction back. */
  function Advance(t: Timer, e: Tick): (r: Timer)
    requires WellFormed(t)
    ensures WellFormed(r)
  {
    match e
    case Reads(_, call) => t.(calls := t.calls[call := Read(t.setting)])
    case Computes(now, call) =>
      if call in t.calls then
        var s := t.calls[call].setting;
        t.(calls := t.calls[call := Computed(s, now, Following(s, now))])
      else t
    case Stores(now, call, _) =>
      if GoesLive(t, e) then
        t.(live := true, since := now, nextRun := t.calls[call].nextRun, calls := t.calls - {call})
      else t.(calls := t.calls - {call})
    case Stopped(_) => t.(live := false)
    case Edited(_, setting) => if t.live || !WellSet(setting) then t else t.(setting := setting)
    case CameDue(now, blocked) =>
      if !t.live || now < t.nextRun || Sent(t, t.nextRun) then t
      else if blocked then t.(live := false, dues := t.dues + [t.nextRun])
      else t.(nextRun := Following(t.setting, t.nextRun), dues := t.dues + [t.nextRun])
    case Tested(now) => t.(tests := t.tests + [TestTime(t, now)])
  }

  function AdvanceAll(t: Timer, ticks: seq<Tick>): (r: Timer)
    requires WellFormed(t)
    ensures WellFormed(r)
  {
    if ticks == [] then t else Advance(AdvanceAll(t, ticks[..|ticks| - 1]), ticks[|ticks| - 1])
  }

  predicate TicksOrdered(ticks: seq<Tick>, start: int) {
    && (forall i | 0 <= i < |ticks| :: start <= ticks[i].now)
    && (forall i, j | 0 <= i < j < |ticks| :: ticks[i].now <= ticks[j].now)
  }

  // ---- What a schedule promises ----

  /** Some allowed time since the schedule went live lies behind its next run and never came due. */
  predicate PassedOver(t: Timer, x: int) {
    t.live && IsTime(t.setting, x) && t.since < x < t.nextRun && x !in t.dues
  }

  predicate Increasing(s: seq<int>) {
    forall i, j | 0 <= i < j < |s| :: s[i] < s[j]
  }

  /**
   Due times strictly increase, the next run of a live schedule is one of its times, none of its
   times is passed over, and the next run is not refused as a duplicate for ever.
   */
  ghost predicate Kept(t: Timer) {
    && Increasing(t.dues)
    && (forall x :: !PassedOver(t, x))
    && (t.live ==> IsTime(t.setting, t.nextRun) && !Sent(t, t.nextRun))
  }

  /** What a caller can check of a stored time: it is one of the schedule's, new, and not too late. */
  predicate Fits(t: Timer, nextRun: int, now: int)
    requires WellSet(t.setting)
  {
    && IsTime(t.setting, nextRun)
    && nextRun <= Following(t.setting, now)
    && (forall x | x in t.dues :: x < nextRun)
    && (forall x | x in t.tests && IsTime(t.setting, x) :: x < nextRun)
  }

  /** A time that is stored fits, and no test is sent at an upcoming time of a live schedule. */
  predicate Careful(t: Timer, e: Tick)
    requires WellFormed(t)
  {
    && (GoesLive(t, e) ==> Fits(t, t.calls[e.call].nextRun, e.now))
    && (e.Tested? && t.live && IsTime(t.setting, TestTime(t, e.now)) ==> TestTime(t, e.now) < t.nextRun)
  }

  ghost predicate CarefulAll(t: Timer, ticks: seq<Tick>)
    requires WellFormed(t)
  {
    forall k | 0 <= k < |ticks| :: Careful(AdvanceAll(t, ticks[..k]), ticks[k])
  }

  ghost predicate TimerOk(t: Timer, clock: int) {
    && WellFormed(t) && Increasing(t.dues)
    && (forall x | x in t.dues :: x <= clock)
    && (forall c | c in t.calls && t.calls[c].Computed? ::
          t.calls[c].asOf <= clock && t.calls[c].nextRun == Following(t.calls[c].setting, t.calls[c].asOf))
    && (t.live ==>
          && IsTime(t.setting, t.nextRun)
          && (forall x :: !PassedOver(t, x))
          && (forall x | x in t.dues :: x < t.nextRun)
          && (forall x | x in t.tests && IsTime(t.setting, x) :: x < t.nextRun))
  }

  lemma OkIsKept(t: Timer, clock: int)
    requires TimerOk(t, clock)
    ensures Kept(t)
  {
  }

  /** Nothing lies between a due time and the one that follows it. */
  lemma NonePassed(t: Timer, x: int)
    requires WellFormed(t) && t.live && !PassedOver(t, x)
    ensures !PassedOver(t.(nextRun := Following(t.setting, t.nextRun), dues := t.dues + [t.nextRun]), x)
  {
    var dues := t.dues + [t.nextRun];
    assert dues[|t.dues|] == t.nextRun;
    if IsTime(t.setting, x) && t.nextRun < x {
      assert Following(t.setting, t.nextRun) <= x;
    }
  }

  lemma IncreasingAppend(s: seq<int>, n: int)
    requires Increasing(s) && forall x | x in s :: x < n
    ensures Increasing(s + [n])
  {
    assert forall i | 0 <= i < |s| :: s[i] in s;
  }

  lemma DueKeeps(t: Timer, clock: int, now: int, blocked: bool)
    requires TimerOk(t, clock) && clock <= now
    ensures TimerOk(Advance(t, CameDue(now, blocked)), now)
  {
    var r := Advance(t, CameDue(now, blocked));
    if t.live {
      IncreasingAppend(t.dues, t.nextRun);
    }
    if r != t && r.live {
      var next := Following(t.setting, t.nextRun);
      assert r == t.(nextRun := next, dues := t.dues + [t.nextRun]);
      forall x
        ensures !PassedOver(r, x)
      {
        NonePassed(t, x);
      }
    }
  }

  lemma AdvanceKeeps(t: Timer, clock: int, e: Tick)
    requires TimerOk(t, clock) && clock <= e.now && Careful(t, e)
    ensures TimerOk(Advance(t, e), e.now)
  {
    match e
    case CameDue(now, blocked) => DueKeeps(t, clock, now, blocked);
    case _ =>
      var r := Advance(t, e);
      forall x
        ensures !PassedOver(r, x)
      {
        assert !PassedOver(t, x);
      }
  }

  function Newest(ticks: seq<Tick>, start: int): int {
    if ticks == [] then start else ticks[|ticks| - 1].now
  }

  /**
   In every history of reads, computations and stores of any number of activations, of pauses,
   edits, test sends and due steps: as long as stored times fit and tests stay clear of upcoming
   times, due times strictly increase, a live schedule passes none of its times over, and its
   next run can always be materialised.
   */
  lemma {:induction false} DueTimesIncrease(setting: Setting, ticks: seq<Tick>, start: int)
    requires WellSet(setting) && TicksOrdered(ticks, start)
    requires CarefulAll(Timer(false, start, start, setting, [], [], map[]), ticks)
    ensures var t := AdvanceAll(Timer(false, start, start, setting, [], [], map[]), ticks);
            TimerOk(t, Newest(ticks, start)) && Kept(t)
  {
    var t := Timer(false, start, start, setting, [], [], map[]);
    if ticks != [] {
      var front := ticks[..|ticks| - 1];
      forall k | 0 <= k < |front|
        ensures Careful(AdvanceAll(t, front[..k]), front[k])
      {
        assert front[..k] == ticks[..k];
      }
      DueTimesIncrease(setting, front, start);
      AdvanceKeeps(AdvanceAll(t, front), Newest(front, start), ticks[|ticks| - 1]);
    }
    OkIsKept(AdvanceAll(t, ticks), Newest(ticks, start));
  }

  // ---- The condition is exact ----

  predicate OnlyDue(ticks: seq<Tick>) {
    forall i | 0 <= i < |ticks| :: ticks[i].CameDue? && !ticks[i].blocked
  }

  /** The promise is broken once enough due steps have been made. */
  ghost predicate Breaks(t: Timer, now: int)
    requires WellFormed(t)
  {
    exists ticks :: OnlyDue(ticks) && TicksOrdered(ticks, now) && !Kept(AdvanceAll(t, ticks))
  }

  lemma {:induction false} DuesKeep(t: Timer, clock: int, ticks: seq<Tick>)
    requires TimerOk(t, clock) && OnlyDue(ticks) && TicksOrdered(ticks, clock)
    ensures TimerOk(AdvanceAll(t, ticks), Newest(ticks, clock))
  {
    if ticks != [] {
      var front := ticks[..|ticks| - 1];
      DuesKeep(t, clock, front);
      DueKeeps(AdvanceAll(t, front), Newest(front, clock), ticks[|ticks| - 1].now, false);
    }
  }

  /** A test was sent at x, one of the times still ahead of the live schedule. */
  predicate TestAhead(t: Timer, x: int) {
    t.live && x in t.tests && IsTime(t.setting, t.nextRun) && IsTime(t.setting, x) && t.nextRun <= x
  }

  lemma ComesCloser(t: Timer, now: int, x: int)
    requires WellFormed(t) && TestAhead(t, x) && !Sent(t, t.nextRun) && t.nextRun <= now
    ensures var r := Advance(t, CameDue(now, false)); TestAhead(r, x) && t.nextRun < r.nextRun
  {
    assert Following(t.setting, t.nextRun) <= x;
  }

  lemma OrderedAppend(ticks: seq<Tick>, start: int, e: Tick)
    requires TicksOrdered(ticks, start) && Newest(ticks, start) <= e.now
    ensures TicksOrdered(ticks + [e], start)
  {
  }

  /** Due steps run into it. */
  lemma {:induction false} RunsIntoTest(t: Timer, now: int, ticks: seq<Tick>, x: int)
    requires WellFormed(t) && OnlyDue(ticks) && TicksOrdered(ticks, now) && TestAhead(AdvanceAll(t, ticks), x)
    ensures Breaks(t, now)
    decreases x - AdvanceAll(t, ticks).nextRun
  {
    var r := AdvanceAll(t, ticks);
    if Sent(r, r.nextRun) {
      assert !Kept(r);
    } else {
      var later := Newest(ticks, now);
      var tick := CameDue(if later < r.nextRun then r.nextRun else later, false);
      assert (ticks + [tick])[..|ticks|] == ticks;
      ComesCloser(r, tick.now, x);
      OrderedAppend(ticks, now, tick);
      RunsIntoTest(t, now, ticks + [tick], x);
    }
  }

  lemma UnfitStoreBreaks(t: Timer, clock: int, e: Tick)
    requires TimerOk(t, clock) && clock <= e.now && GoesLive(t, e) && !Careful(t, e)
    ensures Breaks(Advance(t, e), e.now)
  {
    var r := Advance(t, e);
    assert AdvanceAll(r, []) == r;
    assert OnlyDue([]) && TicksOrdered([], e.now);
    if IsTime(r.setting, r.nextRun) && !Sent(r, r.nextRun) {
      if Following(t.setting, e.now) < r.nextRun {
        assert PassedOver(r, Following(t.setting, e.now));
      } else if exists i :: 0 <= i < |r.dues| && r.nextRun <= r.dues[i] {
        var i :| 0 <= i < |r.dues| && r.nextRun <= r.dues[i];
        assert t.dues[i] in t.dues;
        FallsBack(r, e.now, i);
      } else {
        var x :| x in t.tests && IsTime(t.setting, x) && r.nextRun <= x;
        RunsIntoTest(r, e.now, [], x);
      }
    }
  }

  /** A next run before a due time breaks the order when it comes due. */
  lemma FallsBack(t: Timer, now: int, i: nat)
    requires WellFormed(t) && t.live && !Sent(t, t.nextRun) && t.nextRun <= now
    requires i < |t.dues| && t.nextRun <= t.dues[i]
    ensures Breaks(t, now)
  {
    var ticks := [CameDue(now, false)];
    assert ticks[..0] == [] && AdvanceAll(t, ticks[..0]) == t;
    var s := AdvanceAll(t, ticks);
    assert s == Advance(t, ticks[0]);
    assert s.dues == t.dues + [t.nextRun] && s.dues[i] == t.dues[i] && s.dues[|t.dues|] == t.nextRun;
  }

  /**
   Exactly when a step is careful does the schedule keep its promise through the due steps that
   follow: an unfit time stored, or a test sent at an upcoming time, breaks it in the end.
   */
  lemma CarefulIsExact(t: Timer, clock: int, e: Tick)
    requires TimerOk(t, clock) && clock <= e.now
    ensures Careful(t, e) <==> !Breaks(Advance(t, e), e.now)
  {
    var r := Advance(t, e);
    if Careful(t, e) {
      AdvanceKeeps(t, clock, e);
      forall ticks | OnlyDue(ticks) && TicksOrdered(ticks, e.now)
        ensures Kept(AdvanceAll(r, ticks))
      {
        DuesKeep(r, e.now, ticks);
        OkIsKept(AdvanceAll(r, ticks), Newest(ticks, e.now));
      }
    } else if GoesLive(t, e) {
      UnfitStoreBreaks(t, clock, e);
    } else {
      assert r.tests[|t.tests|] == TestTime(t, e.now);
      assert AdvanceAll(r, []) == r;
      RunsIntoTest(r, e.now, [], TestTime(t, e.now));
    }
  }

  /**
   When days and time are still those the activation read, its time fits exactly when it is later
   than every due time and every test sent at one of the schedule's times.
   */
  lemma UnchangedFits(t: Timer, clock: int, e: Tick)
    requires TimerOk(t, clock) && clock <= e.now && GoesLive(t, e) && t.calls[e.call].setting == t.setting
    ensures var n := t.calls[e.call].nextRun;
            Careful(t, e) <==> (forall x | x in t.dues || (x in t.tests && IsTime(t.setting, x)) :: x < n)
  {
  }

  // ---- Two inputs that break it ----

  /**
   On any Tuesday: a draft for Mondays is read, an edit to every day commits, and the Monday that
   was computed is stored. The live schedule passes over the five days from Wednesday on.
   */
  lemma EditDuringActivation(day: int, hour: int, minute: int, now: int, k: int)
    requires Weekday(day) == 2 && IsClock(hour, minute) && LocalDay(now) == day && 1 <= k <= 5
    ensures var t := Timer(false, now, now, Setting([1], hour, minute), [], [], map[]);
            var daily := Setting([0, 1, 2, 3, 4, 5, 6], hour, minute);
            var r := AdvanceAll(t, [Reads(now, 0), Computes(now, 0), Edited(now, daily), Stores(now, 0, true)]);
            PassedOver(r, Instant(day + k, hour, minute))
  {
    var monday, daily := Setting([1], hour, minute), Setting([0, 1, 2, 3, 4, 5, 6], hour, minute);
    var t := Timer(false, now, now, monday, [], [], map[]);
    StoredAfterEdit(monday, daily, now);
    var n := Following(monday, now);
    NoMondayBefore(day, hour, minute, now, n);
    TimeInWeek(daily, day, k, now);
    Later(day + k, day + 6, hour, minute);
  }

  lemma StoredAfterEdit(before: Setting, after: Setting, now: int)
    requires WellSet(before) && WellSet(after)
    ensures AdvanceAll(Timer(false, now, now, before, [], [], map[]),
                       [Reads(now, 0), Computes(now, 0), Edited(now, after), Stores(now, 0, true)])
            == Timer(true, now, Following(before, now), after, [], [], map[])
  {
    var t, n := Timer(false, now, now, before, [], [], map[]), Following(before, now);
    FourTicks(t, [Reads(now, 0), Computes(now, 0), Edited(now, after), Stores(now, 0, true)]);
    ReadAndComputed(t, now, n);
    EditedCall(t.(calls := map[0 := Computed(before, now, n)]), now, after);
    StoredCall(Timer(false, now, now, after, [], [], map[0 := Computed(before, now, n)]), now);
  }

  lemma ReadAndComputed(t: Timer, now: int, n: int)
    requires WellFormed(t) && t.calls == map[] && n == Following(t.setting, now)
    ensures Advance(Advance(t, Reads(now, 0)), Computes(now, 0)) == t.(calls := map[0 := Computed(t.setting, now, n)])
  {
    var read := Advance(t, Reads(now, 0));
    assert read == t.(calls := map[0 := Read(t.setting)]);
  }

  lemma EditedCall(t: Timer, now: int, setting: Setting)
    requires WellFormed(t) && !t.live && WellSet(setting)
    ensures Advance(t, Edited(now, setting)) == t.(setting := setting)
  {
  }

  lemma StoredCall(t: Timer, now: int)
    requires WellFormed(t) && !t.live && t.calls.Keys == {0} && t.calls[0].Computed?
    ensures Advance(t, Stores(now, 0, true))
            == t.(live := true, since := now, nextRun := t.calls[0].nextRun, calls := map[])
  {
  }

  lemma TimeInWeek(daily: Setting, day: int, k: int, now: int)
    requires daily.days == [0, 1, 2, 3, 4, 5, 6] && IsClock(daily.hour, daily.minute) && LocalDay(now) == day && 1 <= k
    ensures var x := Instant(day + k, daily.hour, daily.minute); IsTime(daily, x) && now < x
  {
    InstantIsLocal(day + k, daily.hour, daily.minute);
    FirstDayOnly(k, daily.hour, daily.minute, now);
    assert daily.days[Weekday(day + k)] == Weekday(day + k);
  }

  lemma FourTicks(t: Timer, ticks: seq<Tick>)
    requires WellFormed(t) && |ticks| == 4
    ensures AdvanceAll(t, ticks) == Advance(Advance(Advance(Advance(t, ticks[0]), ticks[1]), ticks[2]), ticks[3])
  {
    assert ticks[..3][..2] == ticks[..2] && ticks[..2][..1] == ticks[..1] && ticks[..1][..0] == [];
    assert AdvanceAll(t, ticks[..1]) == Advance(t, ticks[0]);
    assert AdvanceAll(t, ticks[..2]) == Advance(AdvanceAll(t, ticks[..1]), ticks[1]);
    assert AdvanceAll(t, ticks[..3]) == Advance(AdvanceAll(t, ticks[..2]), ticks[2]);
  }

  lemma NoMondayBefore(day: int, hour: int, minute: int, now: int, n: int)
    requires Weekday(day) == 2 && IsClock(hour, minute) && LocalDay(now) == day
    requires IsTime(Setting([1], hour, minute), n) && now < n
    ensures Instant(day + 6, hour, minute) <= n
  {
    NoneEarlier(LocalDay(n), hour, minute, now);
    assert day + 6 <= LocalDay(n);
    Later(LocalDay(n), day + 6, hour, minute);
  }

  lemma {:induction false} TicksJoin(t: Timer, a: seq<Tick>, b: seq<Tick>)
    requires WellFormed(t)
    ensures AdvanceAll(t, a + b) == AdvanceAll(AdvanceAll(t, a), b)
  {
    if b == [] {
      assert a + b == a;
    } else {
      TicksJoin(t, a, b[..|b| - 1]);
      assert (a + b)[..|a + b| - 1] == a + b[..|b| - 1];
    }
  }

  lemma BothRead(t: Timer, now: int)
    requires WellFormed(t) && t.calls == map[]
    ensures Advance(Advance(t, Reads(now, 0)), Reads(now, 1))
            == t.(calls := map[0 := Read(t.setting), 1 := Read(t.setting)])
  {
    var first := Advance(t, Reads(now, 0));
    assert first == t.(calls := map[0 := Read(t.setting)]);
    assert Advance(first, Reads(now, 1)).calls == map[0 := Read(t.setting), 1 := Read(t.setting)];
  }

  lemma BothCompute(t: Timer, now: int)
    requires WellFormed(t) && t.calls == map[0 := Read(t.setting), 1 := Read(t.setting)]
    ensures var c := Computed(t.setting, now, Following(t.setting, now));
            Advance(Advance(t, Computes(now, 0)), Computes(now, 1)) == t.(calls := map[0 := c, 1 := c])
  {
    var c, first := Computed(t.setting, now, Following(t.setting, now)), Advance(t, Computes(now, 0));
    assert first == t.(calls := map[0 := c, 1 := Read(t.setting)]);
    assert Advance(first, Computes(now, 1)).calls == map[0 := c, 1 := c];
  }

  /** The activation goes live, and its time comes due. */
  lemma FirstComesDue(t: Timer, now: int, c: Call)
    requires WellFormed(t) && !t.live && t.dues == [] && t.tests == [] && t.calls == map[0 := c, 1 := c]
    requires c.Computed? && c.setting == t.setting
    ensures Advance(Advance(t, Stores(now, 0, true)), CameDue(c.nextRun, false))
            == Timer(true, now, Following(t.setting, c.nextRun), t.setting, [c.nextRun], [], map[1 := c])
  {
    var live := Advance(t, Stores(now, 0, true));
    assert t.calls - {0} == map[1 := c];
    assert live == Timer(true, now, c.nextRun, t.setting, [], [], map[1 := c]);
    assert !Sent(live, c.nextRun);
  }

  /** A pause lets the other activation store the same time. */
  lemma SecondStored(t: Timer, now: int, c: Call)
    requires WellFormed(t) && t.calls == map[1 := c] && c.Computed?
    ensures Advance(Advance(t, Stopped(now)), Stores(now, 1, true))
            == t.(live := true, since := now, nextRun := c.nextRun, calls := map[])
  {
    var paused := Advance(t, Stopped(now));
    assert paused == t.(live := false);
    assert paused.calls - {1} == map[];
  }

  lemma TwiceBy(t: Timer, now: int, first: seq<Tick>, second: seq<Tick>)
    requires WellFormed(t) && !t.live && t.dues == [] && t.tests == [] && t.calls == map[]
    requires first == [Reads(now, 0), Reads(now, 1), Computes(now, 0), Computes(now, 1)]
    requires var n := Following(t.setting, now);
             second == [Stores(now, 0, true), CameDue(n, false), Stopped(n), Stores(n, 1, true)]
    ensures Stuck(AdvanceAll(t, first + second))
  {
    var n := Following(t.setting, now);
    var c := Computed(t.setting, now, n);
    FourTicks(t, first);
    BothRead(t, now);
    BothCompute(t.(calls := map[0 := Read(t.setting), 1 := Read(t.setting)]), now);
    var computed := AdvanceAll(t, first);
    FourTicks(computed, second);
    FirstComesDue(computed, now, c);
    SecondStored(Timer(true, now, Following(t.setting, n), t.setting, [n], [], map[1 := c]), n, c);
    assert n in [n];
    TicksJoin(t, first, second);
  }

  function TwoActivations(setting: Setting, now: int): (ticks: seq<Tick>)
    requires WellSet(setting)
    ensures TicksOrdered(ticks, now)
  {
    var n := Following(setting, now);
    [Reads(now, 0), Reads(now, 1), Computes(now, 0), Computes(now, 1),
     Stores(now, 0, true), CameDue(n, false), Stopped(n), Stores(n, 1, true)]
  }

  lemma StuckAfter(t: Timer, now: int, ticks: seq<Tick>)
    requires WellFormed(t) && !t.live && t.dues == [] && t.tests == [] && t.calls == map[]
    requires ticks == TwoActivations(t.setting, now)
    ensures Stuck(AdvanceAll(t, ticks))
  {
    assert ticks == ticks[..4] + ticks[4..];
    TwiceBy(t, now, ticks[..4], ticks[4..]);
  }

  /**
   Two activations read the schedule and compute the same time. One is stored, the time comes due,
   the schedule is paused, and the other is stored: the schedule is live with a next run it already
   had.
   */
  lemma ActivatedTwice(setting: Setting, now: int)
    requires WellSet(setting)
    ensures Stuck(AdvanceAll(Timer(false, now, now, setting, [], [], map[]), TwoActivations(setting, now)))
  {
    StuckAfter(Timer(false, now, now, setting, [], [], map[]), now, TwoActivations(setting, now));
  }

  // ---- What a stuck schedule does to the others ----

  predicate Stuck(t: Timer) {
    t.live && Sent(t, t.nextRun)
  }

  predicate IsDue(timers: map<nat, Timer>, s: nat, now: int) {
    s in timers && timers[s].live && timers[s].nextRun <= now
  }

  /** order by next_run_at, id limit 1 */
  predicate FirstDue(timers: map<nat, Timer>, s: nat, now: int) {
    && IsDue(timers, s, now)
    && forall o | o in timers && IsDue(timers, o, now) ::
         timers[s].nextRun < timers[o].nextRun || (timers[s].nextRun == timers[o].nextRun && s <= o)
  }

  /** A poll of the due worker over all schedules. */
  ghost function Poll(timers: map<nat, Timer>, now: int, blocked: bool): map<nat, Timer>
    requires forall s | s in timers :: WellFormed(timers[s])
  {
    if exists s :: FirstDue(timers, s, now) then
      var s :| FirstDue(timers, s, now);
      timers[s := Advance(timers[s], CameDue(now, blocked))]
    else timers
  }

  ghost function PollAll(timers: map<nat, Timer>, polls: seq<(int, bool)>): (r: map<nat, Timer>)
    requires forall s | s in timers :: WellFormed(timers[s])
    ensures forall s | s in r :: WellFormed(r[s])
  {
    if polls == [] then timers
    else Poll(PollAll(timers, polls[..|polls| - 1]), polls[|polls| - 1].0, polls[|polls| - 1].1)
  }

  /**
   Once a stuck schedule is the first that is due, no poll materialises anything, of this or any
   other schedule, however late it happens. Polls are taken one after another.
   */
  lemma {:induction false} StuckBlocksAll(timers: map<nat, Timer>, s: nat, now: int, polls: seq<(int, bool)>)
    requires forall o | o in timers :: WellFormed(timers[o])
    requires FirstDue(timers, s, now) && Stuck(timers[s])
    requires forall i | 0 <= i < |polls| :: now <= polls[i].0
    ensures PollAll(timers, polls) == timers
  {
    if polls != [] {
      StuckBlocksAll(timers, s, now, polls[..|polls| - 1]);
      assert FirstDue(timers, s, polls[|polls| - 1].0);
    }
  }
}
