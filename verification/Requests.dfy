/** When a request for a report run is granted, shared or refused, and what it leaves in the tables. */
module Requests {
  import opened Options
  import opened Units
  import opened Catalog
  import opened ReportTables
  import opened ReportSteps
  import opened Admission
  import opened Ranking

  predicate Live(r: Run) {
    r.status in {Queued, Claimed, Running}
  }

  // ---- Enqueue ----

  predicate WellFormed(input: EnqueueInput) {
    && 8 <= |input.idempotencyKey| <= 200
    && (input.source == Background ==> input.requestedBy == None && input.dataVersion.Some? && input.kind == Some(true))
  }

  /** The tenant is active, and an interactive request comes from a recipient who may see the report. */
  predicate Welcome(input: EnqueueInput, standing: Standing) {
    standing.tenantActive && (input.source == Dashboard ==> input.requestedBy.Some? && standing.permitted)
  }

  /** A run made by an earlier call under the same name. */
  predicate SameCall(db: Db, x: RunId, input: EnqueueInput) {
    && x in db.runs && db.runs[x].info.tenant == input.tenant && db.runs[x].info.source == input.source
    && db.runs[x].info.idempotencyKey == input.idempotencyKey
  }

  ghost predicate Conflicts(db: Db, input: EnqueueInput) {
    exists x | SameCall(db, x, input) :: !(db.runs[x].info.key == input.key && db.runs[x].info.period == input.period)
  }

  ghost predicate Repeats(db: Db, input: EnqueueInput) {
    exists x :: SameCall(db, x, input)
  }

  /** A live run of the same kind that answers the request: the same execution, or asked for within a minute. */
  predicate Answers(db: Db, x: RunId, input: EnqueueInput, now: int) {
    && x in db.runs && Live(db.runs[x])
    && var i := db.runs[x].info;
    && i.tenant == input.tenant && i.source == input.source
    && match input.source
       case Background =>
         input.dataVersion.Some? && i.executionKey ==
           Some(ExecutionKey(input.key, input.period.dateFrom, input.period.dateTo, input.dataVersion.value))
       case Dashboard =>
         i.requestedBy == input.requestedBy && i.key == input.key && i.period.dateFrom == input.period.dateFrom
         && i.period.dateTo == input.period.dateTo && now - 60 * SECOND <= i.createdAt
       case Schedule => false
  }

  ghost predicate Shares(db: Db, input: EnqueueInput, now: int) {
    exists x :: Answers(db, x, input, now)
  }

  /** The tenant has ten live background runs, or two interactive ones. */
  ghost predicate Full(db: Db, input: EnqueueInput) {
    var live := |set x | x in db.runs && Live(db.runs[x]) && db.runs[x].info.tenant == input.tenant
                         && db.runs[x].info.source == input.source|;
    match input.source
    case Background => 10 <= live
    case Dashboard => 2 <= live
    case Schedule => false
  }

  predicate Summarises(input: EnqueueInput) {
    match input.kind
    case Some(summary) => summary
    case None => input.source != Dashboard
  }

  /** Another live summary outside the schedules has the same execution key. */
  ghost predicate Doubles(db: Db, input: EnqueueInput) {
    && input.source != Schedule && Summarises(input) && input.dataVersion.Some?
    && exists x | x in db.runs && Live(db.runs[x]) :: var i := db.runs[x].info;
      i.tenant == input.tenant && i.source != Schedule && i.summary && i.executionKey ==
        Some(ExecutionKey(input.key, input.period.dateFrom, input.period.dateTo, input.dataVersion.value))
  }

  /** What an interactive request finds of its tenant's circuit: never opened, open, or over. */
  predicate NeverOpened(db: Db, input: EnqueueInput) {
    input.source == Dashboard ==> !(input.tenant in db.circuits && db.circuits[input.tenant].openUntil.Some?)
  }

  predicate Blocked(db: Db, input: EnqueueInput, now: int) {
    && input.source == Dashboard && input.tenant in db.circuits && db.circuits[input.tenant].openUntil.Some?
    && (now < db.circuits[input.tenant].openUntil.value || db.circuits[input.tenant].halfOpen.Some?)
  }

  function PriorityOf(input: EnqueueInput): int {
    if input.priority != 0 then input.priority
    else
      match input.source
      case Schedule => 100
      case Dashboard => 90
      case Background =>
        if input.key in {SalesGoodsServices, ArDebtReceipt, CashBankReceipts, CashBankPayments} then 30
        else if input.key in {StockBalance, ArCustomerMovement} then 20
        else 25
  }

  /** The row of the new run: waiting from now on, for a day. */
  predicate IsRequested(r: Run, input: EnqueueInput, expectedP90: nat, now: int) {
    && r.info.tenant == input.tenant && r.info.key == input.key && r.info.source == input.source
    && r.info.summary == Summarises(input) && r.info.priority == PriorityOf(input)
    && r.info.idempotencyKey == input.idempotencyKey && r.info.period == input.period
    && r.info.requestedBy == input.requestedBy && r.info.createdAt == now && r.info.expectedP90 == expectedP90
    && r.info.executionKey == (if input.dataVersion.None? then None else
         Some(ExecutionKey(input.key, input.period.dateFrom, input.period.dateTo, input.dataVersion.value)))
    && r.status == Queued && r.queuedAt == now && r.claimedBy == None && r.lease == None && r.attempt == 0
    && r.phase == 0 && r.expiresAt == now + 86_400 * SECOND
  }


  lemma PartsOfEnqueue(db: Db, input: EnqueueInput, standing: Standing, now: int)
    ensures var info := InfoOf(input, standing.expectedP90, now);
            && (SameRequest(db.runs, input) != {} <==> Repeats(db, input))
            && ((exists id | id in SameRequest(db.runs, input) ::
                  db.runs[id].info.key != input.key || db.runs[id].info.period != input.period) <==> Conflicts(db, input))
            && (input.source == Background && input.dataVersion.Some? ==>
                  (SameExecution(db.runs, info) != {} <==> Shares(db, input, now)))
            && (input.source == Dashboard ==> (RecentRuns(db.runs, info, now) != {} <==> Shares(db, input, now)))
            && (Full(db, input) <==>
                  (input.source == Background && 10 <= |OpenRuns(db.runs, input.tenant, Background)|)
                  || (input.source == Dashboard && 2 <= |OpenRuns(db.runs, input.tenant, Dashboard)|))
            && (SummaryConflicts(db.runs, info) != {} <==> Doubles(db, input))
  {
    var info := InfoOf(input, standing.expectedP90, now);
    forall x
      ensures SameCall(db, x, input) <==> x in SameRequest(db.runs, input)
      ensures input.source == Background && input.dataVersion.Some? ==>
                (Answers(db, x, input, now) <==> x in SameExecution(db.runs, info))
      ensures input.source == Dashboard ==> (Answers(db, x, input, now) <==> x in RecentRuns(db.runs, info, now))
    {
    }
    assert OpenRuns(db.runs, input.tenant, input.source) ==
           set x | x in db.runs && Live(db.runs[x]) && db.runs[x].info.tenant == input.tenant
                   && db.runs[x].info.source == input.source;
    if Doubles(db, input) {
      var x :| x in db.runs && Live(db.runs[x]) && var i := db.runs[x].info;
        i.tenant == input.tenant && i.source != Schedule && i.summary && i.executionKey ==
          Some(ExecutionKey(input.key, input.period.dateFrom, input.period.dateTo, input.dataVersion.value));
      assert x in SummaryConflicts(db.runs, info);
    }
    if SummaryConflicts(db.runs, info) != {} {
      var x :| x in SummaryConflicts(db.runs, info);
      assert x in db.runs && Live(db.runs[x]);
    }
  }

  /**
   A request creates a run exactly when it is well-formed and welcome, repeats no call, finds its
   circuit never opened, nothing to share, room, and no double. It is a replay when it repeats a
   call, and joins a run when it may share one.
   */
  lemma RequestMeans(db: Db, input: EnqueueInput, standing: Standing, now: int)
    ensures var outcome := Enqueue(db, input, standing, now);
            var proper := WellFormed(input) && Welcome(input, standing) && !Conflicts(db, input);
            && (outcome == Replayed <==> proper && Repeats(db, input))
            && (outcome == Joined <==>
                  proper && !Repeats(db, input) && !Blocked(db, input, now) && Shares(db, input, now))
            && (outcome.Created? <==>
                  proper && !Repeats(db, input) && NeverOpened(db, input) && !Shares(db, input, now)
                  && !Full(db, input) && !Doubles(db, input))
            && (outcome.Created? ==>
                  IsRequested(QueuedRun(outcome.info, now + 86_400 * SECOND, now), input, standing.expectedP90, now))
  {
    PartsOfEnqueue(db, input, standing, now);
  }

  /** Why a request is refused: the first of these that applies. */
  lemma RefusalMeans(db: Db, input: EnqueueInput, standing: Standing, now: int)
    ensures var outcome := Enqueue(db, input, standing, now);
            var named := 8 <= |input.idempotencyKey| <= 200;
            var proper := WellFormed(input) && Welcome(input, standing) && !Conflicts(db, input);
            var open := proper && !Repeats(db, input) && !Blocked(db, input, now) && !Shares(db, input, now);
            && (outcome == Refused(IdempotencyConflict) <==> !named || (WellFormed(input) && Conflicts(db, input)))
            && (outcome == Refused(NotFound) <==>
                  WellFormed(input) && !Conflicts(db, input) && !standing.tenantActive)
            && (outcome == Refused(Forbidden) <==>
                  (named && !WellFormed(input))
                  || (WellFormed(input) && !Conflicts(db, input) && standing.tenantActive && !Welcome(input, standing)))
            && (outcome == Refused(ConcurrencyLimit) <==> open && Full(db, input))
            && (outcome == Refused(InsertConflict) <==> open && !Full(db, input) && Doubles(db, input))
            && (outcome == Refused(CircuitOpen) <==>
                  (proper && !Repeats(db, input) && Blocked(db, input, now))
                  || (open && !Full(db, input) && !Doubles(db, input) && !NeverOpened(db, input)))
  {
    PartsOfEnqueue(db, input, standing, now);
  }

  /** A created run is one more row, and any other outcome leaves the tables as they are. */
  lemma RequestLeaves(db: Db, input: EnqueueInput, standing: Standing, id: RunId, now: int)
    requires id !in db.runs
    ensures var after := EnqueueDb(db, input, standing, id, now);
            if Enqueue(db, input, standing, now).Created? then
              && id in after.runs && IsRequested(after.runs[id], input, standing.expectedP90, now)
              && after == db.(runs := db.runs[id := after.runs[id]])
            else after == db
  {
    RequestMeans(db, input, standing, now);
  }

  // ---- Dashboard refreshes ----

  /** A live summary outside the schedules that already computes the report of the item. */
  predicate Computes(runs: map<RunId, Run>, x: RunId, tenant: TenantId, item: RefreshItem, dataVersion: nat) {
    && x in runs && Live(runs[x])
    && var i := runs[x].info;
    && i.tenant == tenant && i.source != Schedule && i.summary
    && i.executionKey == Some(ExecutionKey(item.key, item.period.dateFrom, item.period.dateTo, dataVersion))
  }

  /** Of several, the one queued first. */
  ghost predicate ComputesFirst(runs: map<RunId, Run>, x: RunId, tenant: TenantId, item: RefreshItem,
                                dataVersion: nat) {
    && Computes(runs, x, tenant, item, dataVersion)
    && forall o | Computes(runs, o, tenant, item, dataVersion) && o != x ::
         runs[x].queuedAt < runs[o].queuedAt || (runs[x].queuedAt == runs[o].queuedAt && x < o)
  }

  predicate IsRefresh(r: Run, tenant: TenantId, recipient: RecipientId, item: RefreshItem, dataVersion: nat, now: int) {
    && r.info.tenant == tenant && r.info.key == item.key && r.info.source == Dashboard && r.info.summary
    && r.info.priority == (if item.key in {SalesGoodsServices, ArDebtReceipt, CashBankReceipts, CashBankPayments} then 85
                           else if item.key in {StockBalance, ArCustomerMovement} then 83 else 84)
    && r.info.idempotencyKey == item.idempotencyKey && r.info.period == item.period
    && r.info.requestedBy == Some(recipient) && r.info.createdAt == now
    && r.info.executionKey == Some(ExecutionKey(item.key, item.period.dateFrom, item.period.dateTo, dataVersion))
    && r.status == Queued && r.queuedAt == now && r.claimedBy == None && r.lease == None && r.attempt == 0
    && r.phase == 0 && r.expiresAt == now + 86_400 * SECOND
  }

  /** The run an item is linked to: the first that computes it already, or else its own new one. */
  ghost predicate LinkedTo(before: map<RunId, Run>, after: map<RunId, Run>, l: Link, tenant: TenantId,
                           recipient: RecipientId, item: RefreshItem, dataVersion: nat, now: int) {
    && l.key == item.key
    && if exists x :: Computes(before, x, tenant, item, dataVersion)
       then ComputesFirst(before, l.run, tenant, item, dataVersion)
       else l.run == item.run && l.run in after && IsRefresh(after[l.run], tenant, recipient, item, dataVersion, now)
  }

  ghost predicate AllLinked(before: map<RunId, Run>, done: Linking, tenant: TenantId, recipient: RecipientId,
                            items: seq<RefreshItem>, dataVersion: nat, now: int) {
    && |done.links| == |items|
    && (forall k | 0 <= k < |items| ::
          LinkedTo(before, done.runs, done.links[k], tenant, recipient, items[k], dataVersion, now))
    && (forall x | x in before :: x in done.runs && done.runs[x] == before[x])
    && (forall x | x in done.runs && x !in before ::
          exists k :: 0 <= k < |items| && x == items[k].run == done.links[k].run
            && IsRefresh(done.runs[x], tenant, recipient, items[k], dataVersion, now))
  }

  lemma {:induction false} FirstOfAny(runs: map<RunId, Run>, s: set<RunId>) returns (x: RunId)
    requires s != {} && s <= runs.Keys
    ensures FirstQueued(runs, s, x)
    decreases |s|
  {
    x :| x in s;
    if s != {x} {
      var y := FirstOfAny(runs, s - {x});
      if runs[y].queuedAt < runs[x].queuedAt || (runs[y].queuedAt == runs[x].queuedAt && y < x) {
        x := y;
      }
    }
  }

  /** What an item is coalesced with does not depend on the runs just inserted for other reports. */
  lemma CoalescedMeans(before: map<RunId, Run>, runs: map<RunId, Run>, tenant: TenantId, recipient: RecipientId,
                       item: RefreshItem, dataVersion: nat, now: int)
    requires forall x | x in before :: x in runs && runs[x] == before[x]
    requires forall x | x in runs && x !in before ::
               runs[x].info.executionKey.Some? && runs[x].info.executionKey.value.key != item.key
    ensures var found := CoalescedRun(runs, RefreshInfo(tenant, recipient, item, dataVersion, now));
            if exists x :: Computes(before, x, tenant, item, dataVersion)
            then found.Some? && ComputesFirst(before, found.value, tenant, item, dataVersion) else found.None?
  {
    var info := RefreshInfo(tenant, recipient, item, dataVersion, now);
    forall x
      ensures x in SummaryConflicts(runs, info) <==> Computes(before, x, tenant, item, dataVersion)
    {
    }
    if SummaryConflicts(runs, info) != {} {
      var x := FirstOfAny(runs, SummaryConflicts(runs, info));
    }
  }

  lemma {:induction false} RefreshLinks(before: map<RunId, Run>, tenant: TenantId, recipient: RecipientId,
                                        items: seq<RefreshItem>, dataVersion: nat, now: int)
    requires DistinctKeys(items)
    requires forall k | 0 <= k < |items| :: items[k].run !in before
    requires forall j, k | 0 <= j < k < |items| :: items[j].run != items[k].run
    ensures AllLinked(before, LinkItems(before, tenant, recipient, items, dataVersion, now), tenant, recipient, items,
                      dataVersion, now)
  {
    if items != [] {
      var n := |items| - 1;
      var done := LinkItems(before, tenant, recipient, items[..n], dataVersion, now);
      RefreshLinks(before, tenant, recipient, items[..n], dataVersion, now);
      OthersComputeOther(before, done, tenant, recipient, items, dataVersion, now);
      CoalescedMeans(before, done.runs, tenant, recipient, items[n], dataVersion, now);
      LastLinked(before, done, tenant, recipient, items, dataVersion, now);
    }
  }

  /** The runs just inserted are for other reports than the last. */
  lemma OthersComputeOther(before: map<RunId, Run>, done: Linking, tenant: TenantId, recipient: RecipientId,
                           items: seq<RefreshItem>, dataVersion: nat, now: int)
    requires items != [] && DistinctKeys(items) && items[|items| - 1].run !in before
    requires forall j, k | 0 <= j < k < |items| :: items[j].run != items[k].run
    requires AllLinked(before, done, tenant, recipient, items[..|items| - 1], dataVersion, now)
    ensures items[|items| - 1].run !in done.runs
    ensures forall x | x in done.runs && x !in before ::
              done.runs[x].info.executionKey.Some? && done.runs[x].info.executionKey.value.key != items[|items| - 1].key
  {
    var n := |items| - 1;
    forall x | x in done.runs && x !in before
      ensures x != items[n].run
      ensures done.runs[x].info.executionKey.Some? && done.runs[x].info.executionKey.value.key != items[n].key
    {
      var k :| 0 <= k < n && x == items[..n][k].run
        && IsRefresh(done.runs[x], tenant, recipient, items[..n][k], dataVersion, now);
      assert items[k] == items[..n][k];
    }
  }

  lemma LastLinked(before: map<RunId, Run>, done: Linking, tenant: TenantId, recipient: RecipientId,
                   items: seq<RefreshItem>, dataVersion: nat, now: int)
    requires items != [] && items[|items| - 1].run !in done.runs
    requires AllLinked(before, done, tenant, recipient, items[..|items| - 1], dataVersion, now)
    requires var item := items[|items| - 1];
             var found := CoalescedRun(done.runs, RefreshInfo(tenant, recipient, item, dataVersion, now));
             if exists x :: Computes(before, x, tenant, item, dataVersion)
             then found.Some? && ComputesFirst(before, found.value, tenant, item, dataVersion) else found.None?
    ensures var item := items[|items| - 1];
            AllLinked(before, LinkItem(done, RefreshInfo(tenant, recipient, item, dataVersion, now), item.run, now),
                      tenant, recipient, items, dataVersion, now)
  {
    var n := |items| - 1;
    var next := LinkItem(done, RefreshInfo(tenant, recipient, items[n], dataVersion, now), items[n].run, now);
    assert next.links[..n] == done.links;
    assert LinkedTo(before, next.runs, next.links[n], tenant, recipient, items[n], dataVersion, now);
    assert Grows(done, next, tenant, recipient, items[n], dataVersion, now);
    StillLinked(before, done, next, tenant, recipient, items, dataVersion, now);
  }

  /** Either no row is new, or only that of the item, to which the last link then leads. */
  predicate Grows(done: Linking, next: Linking, tenant: TenantId, recipient: RecipientId, item: RefreshItem,
                  dataVersion: nat, now: int) {
    && |next.links| == |done.links| + 1 && next.links[..|done.links|] == done.links
    && (|| next.runs == done.runs
        || (&& item.run !in done.runs && item.run in next.runs
            && next.runs == done.runs[item.run := next.runs[item.run]]
            && next.links[|done.links|].run == item.run
            && IsRefresh(next.runs[item.run], tenant, recipient, item, dataVersion, now)))
  }

  lemma StillLinked(before: map<RunId, Run>, done: Linking, next: Linking, tenant: TenantId, recipient: RecipientId,
                    items: seq<RefreshItem>, dataVersion: nat, now: int)
    requires items != []
    requires AllLinked(before, done, tenant, recipient, items[..|items| - 1], dataVersion, now)
    requires Grows(done, next, tenant, recipient, items[|items| - 1], dataVersion, now)
    requires LinkedTo(before, next.runs, next.links[|items| - 1], tenant, recipient, items[|items| - 1], dataVersion, now)
    ensures AllLinked(before, next, tenant, recipient, items, dataVersion, now)
  {
    var n := |items| - 1;
    forall k | 0 <= k < n
      ensures LinkedTo(before, next.runs, next.links[k], tenant, recipient, items[k], dataVersion, now)
    {
      assert LinkedTo(before, done.runs, done.links[k], tenant, recipient, items[..n][k], dataVersion, now);
      assert next.links[k] == next.links[..n][k];
    }
    forall x | x in next.runs && x !in before
      ensures exists k :: 0 <= k < |items| && x == items[k].run == next.links[k].run
                && IsRefresh(next.runs[x], tenant, recipient, items[k], dataVersion, now)
    {
      StillExplained(before, done, next, tenant, recipient, items, dataVersion, now, x);
    }
  }

  lemma StillExplained(before: map<RunId, Run>, done: Linking, next: Linking, tenant: TenantId, recipient: RecipientId,
                       items: seq<RefreshItem>, dataVersion: nat, now: int, x: RunId)
    requires items != [] && x in next.runs && x !in before
    requires AllLinked(before, done, tenant, recipient, items[..|items| - 1], dataVersion, now)
    requires Grows(done, next, tenant, recipient, items[|items| - 1], dataVersion, now)
    ensures exists k :: 0 <= k < |items| && x == items[k].run == next.links[k].run
              && IsRefresh(next.runs[x], tenant, recipient, items[k], dataVersion, now)
  {
    var n := |items| - 1;
    if x in done.runs {
      var k :| 0 <= k < n && x == items[..n][k].run == done.links[k].run
        && IsRefresh(done.runs[x], tenant, recipient, items[..n][k], dataVersion, now);
      assert items[k] == items[..n][k] && next.links[k] == next.links[..n][k];
    } else {
      assert x == items[n].run == next.links[n].run;
    }
  }

  /** No more than one generation per set of reports and two per tenant are being built. */
  ghost predicate RoomFor(db: Db, tenant: TenantId, key: GenerationKey) {
    && (forall g | g in db.generations && g.status == Building :: g.key != key)
    && |set i | 0 <= i < |db.generations| && db.generations[i].status == Building
                && db.generations[i].key.tenant == tenant| < 2
  }

  /**
   A refresh starts a generation exactly when it is allowed, names reports without repetition and
   finds room. Each report is linked, in order, to the first live run that computes it already, or
   else to a new one; nothing else changes.
   */
  lemma RefreshMeans(db: Db, tenant: TenantId, recipient: RecipientId, items: seq<RefreshItem>, dataVersion: nat,
                     allowed: bool, now: int)
    requires forall k | 0 <= k < |items| :: items[k].run !in db.runs
    requires forall j, k | 0 <= j < k < |items| :: items[j].run != items[k].run
    ensures var after := CreateRefresh(db, tenant, recipient, items, dataVersion, allowed, now);
            var key := GenerationKeyOf(tenant, items, dataVersion);
            if allowed && items != [] && DistinctKeys(items) && RoomFor(db, tenant, key) then
              && |after.generations| == |db.generations| + 1 && db.generations <= after.generations
              && var g := after.generations[|db.generations|];
              && g == Generation(key, g.links, |items|, Building, 0, 0)
              && AllLinked(db.runs, Linking(after.runs, g.links), tenant, recipient, items, dataVersion, now)
              && after == db.(runs := after.runs, generations := after.generations)
            else after == db
  {
    var key := GenerationKeyOf(tenant, items, dataVersion);
    assert forall k | 0 <= k < |items| :: DrawnIds(items)[k] == items[k].run;
    assert BuildingWith(db.generations, key) == {} <==>
           forall g | g in db.generations && g.status == Building :: g.key != key by {
      forall i | 0 <= i < |db.generations| && db.generations[i].status == Building && db.generations[i].key == key
        ensures i in BuildingWith(db.generations, key)
      {
      }
    }
    assert BuildingIn(db.generations, tenant) == set i | 0 <= i < |db.generations|
      && db.generations[i].status == Building && db.generations[i].key.tenant == tenant;
    if StartsRefresh(db, tenant, items, dataVersion, allowed) {
      RefreshLinks(db.runs, tenant, recipient, items, dataVersion, now);
    }
  }
}
