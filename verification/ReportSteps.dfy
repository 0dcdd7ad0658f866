/**
 What each store transaction does to the tables, as functions from tables to tables. A call
 whose guard fails returns the tables unchanged, which is what the rolled back transaction leaves.
 The methods of ReportStore are proved to compute these functions.
 */
module ReportSteps {
  import opened Options
  import opened Units
  import opened Catalog
  import opened ReportTables

  // ---- Updates of one run ----

  /** claimed_by = worker, an active status and a lease that has not expired. */
  predicate Holds(runs: map<RunId, Run>, id: RunId, worker: WorkerId, now: int) {
    && id in runs
    && Active(runs[id])
    && runs[id].claimedBy == Some(worker)
    && runs[id].lease.Some?
    && now <= runs[id].lease.value
  }

  predicate LeaseExpired(runs: map<RunId, Run>, id: RunId, now: int) {
    id in runs && Active(runs[id]) && runs[id].lease.Some? && runs[id].lease.value < now
  }

  function Requeued(r: Run, at: int): Run {
    r.(status := Queued, queuedAt := at, claimedBy := None, lease := None, phase := 0)
  }

  function FailedRun(r: Run): Run {
    r.(status := Failed, lease := None)
  }

  function ClaimedRun(r: Run, worker: WorkerId, until: int): Run {
    r.(status := Claimed, claimedBy := Some(worker), lease := Some(until), attempt := r.attempt + 1)
  }

  function SucceededRun(r: Run, now: int): Run {
    r.(status := Succeeded, lease := None, phase := 60, expiresAt := now + DAY)
  }

  function CancelledRun(r: Run): Run {
    r.(status := Cancelled, lease := None)
  }

  function CancelQueued(runs: map<RunId, Run>, which: set<RunId>): map<RunId, Run> {
    map id | id in runs :: if id in which && runs[id].status.Queued? then CancelledRun(runs[id]) else runs[id]
  }

  // ---- Circuits ----

  predicate WindowOver(c: Circuit, now: int, length: int) {
    c.windowStart.None? || c.windowStart.value < now - length
  }

  /** Three connection failures inside ten minutes open the tenant circuit for fifteen. */
  function TenantFailure(c: Circuit, now: int): Circuit {
    var over := WindowOver(c, now, 10 * MINUTE);
    var failures := if over then 1 else c.failures + 1;
    Circuit(failures,
            if over then Some(now) else c.windowStart,
            if failures >= 3 then Some(now + 15 * MINUTE) else c.openUntil,
            if over then None else c.halfOpen)
  }

  /** Two refused connections inside two minutes open the host circuit for five. */
  function HostFailure(c: Circuit, now: int): Circuit {
    var over := WindowOver(c, now, 2 * MINUTE);
    var failures := if over then 1 else c.failures + 1;
    Circuit(failures,
            if over then Some(now) else c.windowStart,
            if failures >= 2 then Some(Max(c.openUntil.GetOr(now), now + 5 * MINUTE)) else c.openUntil,
            None)
  }

  /** An unknown remote outcome opens the tenant circuit at once. */
  function Uncertain(c: Circuit, now: int, until: int): Circuit {
    Circuit(if c.failures < 1 then 1 else c.failures,
            Some(c.windowStart.GetOr(now)),
            Some(Max(c.openUntil.GetOr(now), until)),
            None)
  }

  // ---- Dashboard generations ----

  function CountIn(links: seq<Link>, runs: map<RunId, Run>, statuses: set<Status>): nat {
    if links == [] then 0
    else CountIn(links[..|links| - 1], runs, statuses) +
         var l := links[|links| - 1];
         if l.run in runs && runs[l.run].status in statuses then 1 else 0
  }

  predicate Affected(g: Generation, run: RunId) {
    g.status.Building? && run in LinkedRuns(g.links)
  }

  function Recounted(g: Generation, runs: map<RunId, Run>): Generation {
    var done := CountIn(g.links, runs, {Succeeded});
    var lost := CountIn(g.links, runs, {Failed, Cancelled});
    g.(completed := done, failed := lost,
       status := if lost > 0 then Broken else if done == g.total then Published else Building)
  }

  function Recount(generations: seq<Generation>, runs: map<RunId, Run>, run: RunId): (r: seq<Generation>)
    ensures |r| == |generations|
  {
    seq(|generations|, i requires 0 <= i < |generations| =>
      if Affected(generations[i], run) then Recounted(generations[i], runs) else generations[i])
  }

  /** The heads after generations n-1, ..., 0 of before have become those of after. */
  function Publish(heads: map<GenerationKey, Head>, before: seq<Generation>, after: seq<Generation>,
                   n: nat): map<GenerationKey, Head>
    requires n <= |before| == |after|
  {
    if n == 0 then heads
    else
      var rest := Publish(heads, before, after, n - 1);
      if before[n - 1].status.Building? && after[n - 1].status.Published? then
        var key := after[n - 1].key;
        rest[key := Head(n - 1, if key in rest then rest[key].version + 1 else 1)]
      else rest
  }

  /** updateDashboardGenerationsForRun */
  ghost function Settle(db: Db, run: RunId): Db {
    var after := Recount(db.generations, db.runs, run);
    db.(generations := after, heads := Publish(db.heads, db.generations, after, |after|))
  }

  // ---- Closing an occurrence ----

  /** The collecting occurrence a run is linked to. */
  function OpenOccurrence(occurrences: seq<Occurrence>, run: RunId, n: nat): (r: Option<nat>)
    requires n <= |occurrences|
    ensures r.Some? ==> r.value < n && occurrences[r.value].status.Collecting?
    ensures r.Some? ==> run in LinkedRuns(occurrences[r.value].links)
    ensures r.None? ==> forall i | 0 <= i < n && occurrences[i].status.Collecting? ::
            run !in LinkedRuns(occurrences[i].links)
  {
    if n == 0 then None
    else if occurrences[n - 1].status.Collecting? && run in LinkedRuns(occurrences[n - 1].links) then Some(n - 1)
    else OpenOccurrence(occurrences, run, n - 1)
  }

  /** failScheduledOccurrenceTx */
  ghost function CloseOccurrence(db: Db, failed: RunId): Db {
    match OpenOccurrence(db.occurrences, failed, |db.occurrences|)
    case None => db
    case Some(i) =>
      var o := db.occurrences[i];
      db.(occurrences := db.occurrences[i := o.(status := Closed, lease := None)],
          runs := CancelQueued(db.runs, LinkedRuns(o.links) - {failed}))
  }

  /** What every failure path does after the run itself is FAILED. */
  ghost function AfterFailure(db: Db, id: RunId): (r: Db)
    requires id in db.runs
    ensures r.circuits == db.circuits && r.hosts == db.hosts && r.runs.Keys == db.runs.Keys
    ensures forall x | x in db.runs && !db.runs[x].status.Queued? :: r.runs[x] == db.runs[x]
  {
    Settle(if db.runs[id].info.source.Schedule? then CloseOccurrence(db, id) else db, id)
  }

  function WithFailed(db: Db, id: RunId): Db
    requires id in db.runs
  {
    db.(runs := db.runs[id := FailedRun(db.runs[id])])
  }

  function WithCircuit(db: Db, tenant: TenantId, c: Circuit): Db {
    db.(circuits := db.circuits[tenant := c])
  }

  // ---- Transactions ----

  function Cancel(db: Db, id: RunId): Db {
    if id in db.runs && db.runs[id].status.Queued? then
      db.(runs := db.runs[id := CancelledRun(db.runs[id])])
    else db
  }

  function ExtendLease(db: Db, id: RunId, worker: WorkerId, lease: int, now: int): Db {
    if Holds(db.runs, id, worker, now) then
      db.(runs := db.runs[id := db.runs[id].(lease := Some(now + lease))])
    else db
  }

  function UpdateProgress(db: Db, id: RunId, worker: WorkerId, phase: nat, now: int): Db {
    if Holds(db.runs, id, worker, now) && db.runs[id].status.Running? && db.runs[id].phase < phase then
      db.(runs := db.runs[id := db.runs[id].(phase := phase)])
    else db
  }

  function MarkRunning(db: Db, id: RunId, worker: WorkerId, lease: int, now: int): Db {
    if Holds(db.runs, id, worker, now) && db.runs[id].status.Claimed? then
      db.(runs := db.runs[id := db.runs[id].(status := Running, lease := Some(now + lease))])
    else db
  }

  function Retry(db: Db, id: RunId, worker: WorkerId, availableAt: int, now: int): Db {
    if Holds(db.runs, id, worker, now) then
      db.(runs := db.runs[id := Requeued(db.runs[id], availableAt)])
    else db
  }

  /** recordHostPreRequestFailureTx; the caller rolls back when the tenant has no connection. */
  function CountHostFailure(cfg: Config, db: Db, tenant: TenantId, now: int): Db
    requires tenant in cfg.hostOf
  {
    var h := cfg.hostOf[tenant];
    db.(hosts := db.hosts[h := HostFailure(CircuitOf(db.hosts, h), now)])
  }

  function RetryPreRequestFailure(cfg: Config, db: Db, id: RunId, worker: WorkerId, availableAt: int, now: int): Db {
    if Holds(db.runs, id, worker, now) && db.runs[id].info.tenant in cfg.hostOf then
      CountHostFailure(cfg, Retry(db, id, worker, availableAt, now), db.runs[id].info.tenant, now)
    else db
  }

  ghost function FailPreRequestFailure(cfg: Config, db: Db, id: RunId, worker: WorkerId, now: int): Db {
    if Holds(db.runs, id, worker, now) && db.runs[id].info.tenant in cfg.hostOf then
      AfterFailure(CountHostFailure(cfg, WithFailed(db, id), db.runs[id].info.tenant, now), id)
    else db
  }

  ghost function Fail(db: Db, id: RunId, worker: WorkerId, connectionFailure: bool, now: int): Db {
    if Holds(db.runs, id, worker, now) then
      var t := db.runs[id].info.tenant;
      var counted := if connectionFailure then WithCircuit(db, t, TenantFailure(CircuitOf(db.circuits, t), now))
        else db;
      AfterFailure(WithFailed(counted, id), id)
    else db
  }

  ghost function FailRemoteUnknown(db: Db, id: RunId, worker: WorkerId, now: int, openUntil: int): Db {
    if now < openUntil && Holds(db.runs, id, worker, now) then
      var t := db.runs[id].info.tenant;
      AfterFailure(WithFailed(WithCircuit(db, t, Uncertain(CircuitOf(db.circuits, t), now, openUntil)), id), id)
    else db
  }

  ghost function Complete(cfg: Config, db: Db, id: RunId, worker: WorkerId, now: int): Db {
    if Holds(db.runs, id, worker, now) && db.runs[id].status.Running? then
      var t := db.runs[id].info.tenant;
      var saved := db.(runs := db.runs[id := SucceededRun(db.runs[id], now)],
                       circuits := db.circuits[t := Circuit(0, None, None, None)]);
      Settle(if t in cfg.hostOf && cfg.hostOf[t] in db.hosts
             then saved.(hosts := saved.hosts[cfg.hostOf[t] := Circuit(0, None, None, None)]) else saved,
             id)
    else db
  }

  /** One row of the recovery loop. */
  ghost function RecoverOne(db: Db, id: RunId, now: int): Db {
    if !LeaseExpired(db.runs, id, now) then db
    else if db.runs[id].status.Claimed? then
      db.(runs := db.runs[id := Requeued(db.runs[id], Min(db.runs[id].queuedAt, now))])
    else
      var t := db.runs[id].info.tenant;
      AfterFailure(WithFailed(WithCircuit(db, t, Uncertain(CircuitOf(db.circuits, t), now, now + 10 * MINUTE)), id), id)
  }

  lemma RecoverSpares(db: Db, other: RunId, now: int, id: RunId)
    requires id != other && id in db.runs && Active(db.runs[id])
    ensures id in RecoverOne(db, other, now).runs && RecoverOne(db, other, now).runs[id] == db.runs[id]
  {
  }

  ghost function RecoverAll(db: Db, ids: seq<RunId>, now: int): Db {
    if ids == [] then db
    else RecoverOne(RecoverAll(db, ids[..|ids| - 1], now), ids[|ids| - 1], now)
  }

  // ---- Claim ----

  function ActiveRuns(runs: map<RunId, Run>): set<RunId> {
    set id | id in runs && Active(runs[id])
  }

  function ActiveInteractive(runs: map<RunId, Run>): set<RunId> {
    set id | id in runs && Active(runs[id]) && !runs[id].info.source.Schedule?
  }

  function ActiveOnHost(cfg: Config, runs: map<RunId, Run>, host: HostId): set<RunId> {
    set id | id in runs && Active(runs[id]) && runs[id].info.tenant in cfg.hostOf
      && cfg.hostOf[runs[id].info.tenant] == host
  }

  function ActiveOfTenant(runs: map<RunId, Run>, tenant: TenantId): set<RunId> {
    set id | id in runs && Active(runs[id]) && runs[id].info.tenant == tenant
  }

  function InteractiveCap(cfg: Config): nat {
    if cfg.globalCap < 2 then 1 else cfg.globalCap - 1
  }

  /** The seconds a heavy interactive run keeps clear of a scheduled report on its host. */
  function GuardSeconds(expectedP90: nat): int {
    Max(300, Min(900, expectedP90 / 1000 + 60))
  }

  /** An active schedule's tenant and its next due time. */
  datatype Due = Due(tenant: TenantId, at: int)

  predicate HeavyBlocked(cfg: Config, r: RunInfo, due: seq<Due>, now: int) {
    && !r.source.Schedule?
    && (r.key.StockBalance? || r.key.ArCustomerMovement?)
    && exists d | d in due ::
      && d.tenant in cfg.hostOf && r.tenant in cfg.hostOf && cfg.hostOf[d.tenant] == cfg.hostOf[r.tenant]
      && now <= d.at <= now + GuardSeconds(r.expectedP90) * SECOND
  }

  /** The where clause of the claim query. */
  predicate Eligible(cfg: Config, db: Db, id: RunId, due: seq<Due>, now: int) {
    && id in db.runs
    && var r := db.runs[id];
    && r.status.Queued? && r.queuedAt <= now
    && !OpenAt(CircuitOf(db.circuits, r.info.tenant), now)
    && |ActiveRuns(db.runs)| < cfg.globalCap
    && (r.info.source.Schedule? || |ActiveInteractive(db.runs)| < InteractiveCap(cfg))
    && (forall a | a in ActiveOfTenant(db.runs, r.info.tenant) :: a == id)
    && (if r.info.tenant in cfg.hostOf
        then && |ActiveOnHost(cfg, db.runs, cfg.hostOf[r.info.tenant])| < cfg.hostCap
             && !OpenAt(CircuitOf(db.hosts, cfg.hostOf[r.info.tenant]), now)
        else 0 < cfg.hostCap)
    && !HeavyBlocked(cfg, r.info, due, now)
  }

  /** A run gains one point of priority per ten minutes of waiting, up to 99. */
  function AgedPriority(priority: int, queuedAt: int, now: int): int {
    Max(priority, Min(99, priority + (now - queuedAt) / (10 * MINUTE)))
  }

  /** The order by clause of the claim query; a tenant never claimed before comes first. */
  predicate ClaimedBefore(db: Db, now: int, a: RunId, b: RunId)
    requires a in db.runs && b in db.runs
  {
    var ra, rb := db.runs[a], db.runs[b];
    var pa, pb := AgedPriority(ra.info.priority, ra.queuedAt, now), AgedPriority(rb.info.priority, rb.queuedAt, now);
    var la, lb := LastClaim(db, ra.info.tenant), LastClaim(db, rb.info.tenant);
    if pa != pb then pa > pb
    else if la != lb then la.None? || (lb.Some? && la.value < lb.value)
    else if ra.queuedAt != rb.queuedAt then ra.queuedAt < rb.queuedAt
    else a < b
  }

  function LastClaim(db: Db, tenant: TenantId): Option<int> {
    if tenant in db.lastClaimed then Some(db.lastClaimed[tenant]) else None
  }

  /** The row a claim takes; SKIP LOCKED may make it any eligible one. */
  ghost function Claim(cfg: Config, db: Db, id: RunId, worker: WorkerId, lease: int, due: seq<Due>, now: int): Db {
    if Eligible(cfg, db, id, due, now) then
      db.(runs := db.runs[id := ClaimedRun(db.runs[id], worker, now + lease)],
          lastClaimed := db.lastClaimed[db.runs[id].info.tenant := now])
    else db
  }

  // ---- Materialisation and archive ----

  function ScheduledRun(tenant: TenantId, key: ReportKey, period: Period, idempotencyKey: string, expiresAt: int,
                        now: int): Run {
    Run(RunInfo(tenant, key, Source.Schedule, true, 100, idempotencyKey, period, None, None, now, 0),
        Queued, now, None, None, 0, 0, expiresAt)
  }

  /** The identifiers drawn for new rows do not occur yet and are distinct. */
  predicate Fresh(db: Db, ids: seq<RunId>) {
    && (forall i | 0 <= i < |ids| :: ids[i] !in db.runs)
    && (forall i, j | 0 <= i < j < |ids| :: ids[i] != ids[j])
  }

  /** unique (schedule_id, scheduled_for) */
  predicate Taken(db: Db, schedule: ScheduleId, scheduledFor: int) {
    exists o | o in db.occurrences :: o.schedule == schedule && o.scheduledFor == scheduledFor
  }

  datatype DueReport = DueReport(key: ReportKey, period: Period, run: RunId, idempotencyKey: string, expiresAt: int)

  /** The transaction of MaterializeDue and MaterializeTest for a ready schedule. */
  ghost function Materialize(db: Db, tenant: TenantId, schedule: ScheduleId, scheduledFor: int, reports: seq<DueReport>,
                             nextAttempt: int, now: int): Db
  {
    if Fresh(db, RunIds(reports)) && !Taken(db, schedule, scheduledFor) && DistinctReports(reports) then
      var o := Occurrence(tenant, schedule, scheduledFor, Links(reports), Collecting, None, None, nextAttempt);
      db.(occurrences := db.occurrences + [o], runs := db.runs + NewRuns(tenant, reports, now))
    else db
  }

  /** primary key (notification_run_id, report_key) */
  predicate DistinctReports(reports: seq<DueReport>) {
    forall i, j | 0 <= i < j < |reports| :: reports[i].key != reports[j].key
  }

  function RunIds(reports: seq<DueReport>): (ids: seq<RunId>)
    ensures |ids| == |reports|
  {
    seq(|reports|, i requires 0 <= i < |reports| => reports[i].run)
  }

  function Links(reports: seq<DueReport>): (links: seq<Link>)
    ensures |links| == |reports|
  {
    seq(|reports|, i requires 0 <= i < |reports| => Link(reports[i].key, reports[i].run))
  }

  function NewRuns(tenant: TenantId, reports: seq<DueReport>, now: int): map<RunId, Run> {
    if reports == [] then map[]
    else
      var r := reports[|reports| - 1];
      NewRuns(tenant, reports[..|reports| - 1],
              now)[r.run := ScheduledRun(tenant, r.key, r.period, r.idempotencyKey, r.expiresAt, now)]
  }

  /** A due schedule that is not ready leaves only a failed occurrence. */
  function MaterializeBlocked(db: Db, tenant: TenantId, schedule: ScheduleId, scheduledFor: int, worker: WorkerId,
                              now: int): Db {
    if Taken(db, schedule, scheduledFor) then db
    else db.(occurrences := db.occurrences
             + [Occurrence(tenant, schedule, scheduledFor, [], Closed, Some(worker), None, now)])
  }

  /** The part of a tenant's archival that concerns the report queue. */
  ghost function ArchiveQueue(db: Db, tenant: TenantId): Db {
    db.(runs := CancelQueued(db.runs, set id | id in db.runs && db.runs[id].info.tenant == tenant))
  }
}
