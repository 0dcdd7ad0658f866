/**
 The report protocol as a transition system. Any caller may make any call with any arguments at
 any time; only the order of the serialised transactions and their clock readings matter.

 Apply is the one step function. The calls are grouped by what they may do to the tables: worker
 calls that move one run, failures that close an occurrence, insertions, and calls on notification
 runs. Each group is shown to keep the invariants by itself, and ApplyKeeps puts them together.
 */
module ReportActions {
  import opened Options
  import opened Units
  import opened Catalog
  import opened ReportTables
  import opened ReportSteps
  import opened NotificationSteps
  import opened Admission
  import opened ReportInvariants
  import opened Ranking

  datatype Action =
    | DoEnqueue(input: EnqueueInput, standing: Standing, newRun: RunId)
    | DoCancel(run: RunId)
    | DoClaim(run: RunId, worker: WorkerId, length: int, due: seq<Due>)
    | DoRecover(expired: seq<RunId>)
    | DoExtend(run: RunId, worker: WorkerId, length: int)
    | DoProgress(run: RunId, worker: WorkerId, phase: nat)
    | DoMarkRunning(run: RunId, worker: WorkerId, length: int)
    | DoRetry(run: RunId, worker: WorkerId, availableAt: int)
    | DoRetryPreRequest(run: RunId, worker: WorkerId, availableAt: int)
    | DoFailPreRequest(run: RunId, worker: WorkerId)
    | DoFail(run: RunId, worker: WorkerId, connectionFailure: bool)
    | DoFailUnknown(run: RunId, worker: WorkerId, openUntil: int)
    | DoComplete(run: RunId, worker: WorkerId)
    | DoRefresh(tenant: TenantId, recipient: RecipientId, items: seq<RefreshItem>, dataVersion: nat, allowed: bool)
    | DoMaterialize(tenant: TenantId, schedule: ScheduleId, scheduledFor: int, reports: seq<DueReport>,
                    nextAttempt: int)
    | DoBlock(tenant: TenantId, schedule: ScheduleId, scheduledFor: int, worker: WorkerId)
    | DoArchive(tenant: TenantId)
    | DoNoteClaim(occurrence: nat, worker: WorkerId, length: int)
    | DoNoteDefer(occurrence: nat, worker: WorkerId, availableAt: int)
    | DoNoteFail(occurrence: nat, worker: WorkerId)
    | DoNotePublish(occurrence: nat, worker: WorkerId, published: nat)
    | DoFinalize(occurrence: nat, status: OccurrenceStatus)

  datatype Step = At(now: int, action: Action)

  ghost function Apply(cfg: Config, db: Db, s: Step): Db {
    match s.action
    case DoEnqueue(input, standing, id) => EnqueueDb(db, input, standing, id, s.now)
    case DoCancel(id) => Cancel(db, id)
    case DoClaim(id, w, length, due) => Claim(cfg, db, id, w, length, due, s.now)
    case DoRecover(ids) => RecoverAll(db, ids, s.now)
    case DoExtend(id, w, length) => ExtendLease(db, id, w, length, s.now)
    case DoProgress(id, w, phase) => UpdateProgress(db, id, w, phase, s.now)
    case DoMarkRunning(id, w, length) => MarkRunning(db, id, w, length, s.now)
    case DoRetry(id, w, at) => Retry(db, id, w, at, s.now)
    case DoRetryPreRequest(id, w, at) => RetryPreRequestFailure(cfg, db, id, w, at, s.now)
    case DoFailPreRequest(id, w) => FailPreRequestFailure(cfg, db, id, w, s.now)
    case DoFail(id, w, connection) => Fail(db, id, w, connection, s.now)
    case DoFailUnknown(id, w, until) => FailRemoteUnknown(db, id, w, s.now, until)
    case DoComplete(id, w) => Complete(cfg, db, id, w, s.now)
    case DoRefresh(t, r, items, version, allowed) => CreateRefresh(db, t, r, items, version, allowed, s.now)
    case DoMaterialize(t, schedule, at, reports, next) => Materialize(db, t, schedule, at, reports, next, s.now)
    case DoBlock(t, schedule, at, w) => MaterializeBlocked(db, t, schedule, at, w, s.now)
    case DoArchive(t) => ArchiveQueue(db, t)
    case DoNoteClaim(i, w, length) => NoteClaim(db, i, w, length, s.now)
    case DoNoteDefer(i, w, at) => NoteDefer(db, i, w, at)
    case DoNoteFail(i, w) => NoteFail(db, i, w)
    case DoNotePublish(i, w, n) => NotePublish(db, i, w, n, s.now)
    case DoFinalize(i, status) => Finalize(db, i, status)
  }

  ghost function Exec(cfg: Config, db: Db, steps: seq<Step>): Db {
    if steps == [] then db
    else Apply(cfg, Exec(cfg, db, steps[..|steps| - 1]), steps[|steps| - 1])
  }

  /** The clock does not run backwards. */
  predicate Clocked(steps: seq<Step>, start: int) {
    && (forall i | 0 <= i < |steps| :: start <= steps[i].now)
    && (forall i, j | 0 <= i < j < |steps| :: steps[i].now <= steps[j].now)
  }

  // ---- What one step may change ----

  ghost predicate RunsEvolve(a: map<RunId, Run>, b: map<RunId, Run>) {
    forall id | id in a :: id in b && b[id].info == a[id].info && a[id].attempt <= b[id].attempt
      && (Terminal(a[id]) ==> b[id] == a[id])
  }

  ghost predicate Evolves(a: Db, b: Db) {
    && RunsEvolve(a.runs, b.runs)
    && OccurrencesStep(a.occurrences, b.occurrences)
    && GenerationsStep(a.generations, b.generations)
  }

  lemma EvolvesTrans(a: Db, b: Db, c: Db)
    requires Evolves(a, b) && Evolves(b, c)
    ensures Evolves(a, c)
  {
    forall i | 0 <= i < |a.generations|
      ensures GenerationStep(a.generations[i], c.generations[i])
    {
      assert GenerationStep(a.generations[i], b.generations[i]) && GenerationStep(b.generations[i], c.generations[i]);
    }
    forall i | 0 <= i < |a.occurrences|
      ensures OccurrenceStep(a.occurrences[i], c.occurrences[i])
    {
      assert OccurrenceStep(a.occurrences[i], b.occurrences[i]) && OccurrenceStep(b.occurrences[i], c.occurrences[i]);
    }
  }

  /** Steps other than claims leave no run active that was not active before. */
  ghost predicate Keeps(cfg: Config, a: Db, b: Db) {
    Inv(cfg, b) && Quiet(a.runs, b.runs) && Evolves(a, b)
  }

  lemma MovesEvolve(cfg: Config, a: Db, b: Db)
    requires Inv(cfg, b) && Moves(a, b)
    ensures Keeps(cfg, a, b)
  {
  }

  // ---- Single run calls ----

  /** The tables after a call that rewrites the row of one run. */
  ghost predicate RowStep(a: Db, b: Db, id: RunId) {
    b == a || (id in a.runs && id in b.runs && RunStep(a.runs[id], b.runs[id]) && b.runs == a.runs[id := b.runs[id]]
               && b == a.(runs := b.runs, hosts := b.hosts))
  }

  predicate OneRow(a: Action) {
    a.DoCancel? || a.DoExtend? || a.DoProgress? || a.DoMarkRunning? || a.DoRetry? || a.DoRetryPreRequest?
  }

  lemma CallsAreRowSteps(cfg: Config, db: Db, s: Step)
    requires OneRow(s.action)
    ensures RowStep(db, Apply(cfg, db, s), s.action.run)
  {
    if s.action.DoExtend? || s.action.DoProgress? || s.action.DoMarkRunning? {
      HeldCallsAreRowSteps(cfg, db, s);
    } else {
      match s.action
      case DoCancel(id) => assert Apply(cfg, db, s) == Cancel(db, id);
      case DoRetry(id, w, at) => assert Apply(cfg, db, s) == Retry(db, id, w, at, s.now);
      case DoRetryPreRequest(id, w, at) =>
        assert Apply(cfg, db, s) == RetryPreRequestFailure(cfg, db, id, w, at, s.now);
    }
  }

  lemma HeldCallsAreRowSteps(cfg: Config, db: Db, s: Step)
    requires s.action.DoExtend? || s.action.DoProgress? || s.action.DoMarkRunning?
    ensures RowStep(db, Apply(cfg, db, s), s.action.run)
  {
    match s.action
    case DoExtend(id, w, length) => assert Apply(cfg, db, s) == ExtendLease(db, id, w, length, s.now);
    case DoProgress(id, w, phase) => assert Apply(cfg, db, s) == UpdateProgress(db, id, w, phase, s.now);
    case DoMarkRunning(id, w, length) => assert Apply(cfg, db, s) == MarkRunning(db, id, w, length, s.now);
  }

  lemma CallsKeep(cfg: Config, db: Db, s: Step)
    requires Inv(cfg, db) && OneRow(s.action)
    ensures Inv(cfg, Apply(cfg, db, s)) && Moves(db, Apply(cfg, db, s))
  {
    var id, after := s.action.run, Apply(cfg, db, s);
    CallsAreRowSteps(cfg, db, s);
    if after != db {
      UpdateKeeps(cfg, db, after, id, after.runs[id]);
    }
  }

  lemma FailureKeeps(cfg: Config, db: Db, id: RunId, counted: Db)
    requires Inv(cfg, db) && id in db.runs && Active(db.runs[id])
    requires counted.runs == db.runs && counted.occurrences == db.occurrences && counted.generations == db.generations
             && counted.heads == db.heads
    ensures var after := AfterFailure(WithFailed(counted, id), id); Inv(cfg, after) && Moves(db, after)
  {
    var failed := WithFailed(counted, id);
    UpdateKeeps(cfg, db, failed, id, FailedRun(db.runs[id]));
    AfterFailureKeeps(cfg, failed, id);
    MovesTrans(db, failed, AfterFailure(failed, id));
  }

  /** The call is refused, or it counts the failure, fails the run and does what follows a failure. */
  ghost predicate FailsAs(db: Db, after: Db, counted: Db, id: RunId, worker: WorkerId, now: int) {
    && counted == db.(circuits := counted.circuits, hosts := counted.hosts)
    && (after == db || (Holds(db.runs, id, worker, now) && after == AfterFailure(WithFailed(counted, id), id)))
  }

  lemma FailIsFailure(cfg: Config, db: Db, s: Step) returns (counted: Db)
    requires Fails(s.action)
    ensures FailsAs(db, Apply(cfg, db, s), counted, s.action.run, s.action.worker, s.now)
  {
    match s.action
    case DoFail(id, w, connection) =>
      counted := FailCounts(db, id, w, connection, s.now);
      assert Apply(cfg, db, s) == Fail(db, id, w, connection, s.now);
    case DoFailUnknown(id, w, until) =>
      counted := UnknownCounts(db, id, w, s.now, until);
      assert Apply(cfg, db, s) == FailRemoteUnknown(db, id, w, s.now, until);
    case DoFailPreRequest(id, w) =>
      counted := PreRequestCounts(cfg, db, id, w, s.now);
      assert Apply(cfg, db, s) == FailPreRequestFailure(cfg, db, id, w, s.now);
  }

  lemma FailCounts(db: Db, id: RunId, worker: WorkerId, connection: bool, now: int) returns (counted: Db)
    ensures FailsAs(db, Fail(db, id, worker, connection, now), counted, id, worker, now)
  {
    counted := db;
    if Holds(db.runs, id, worker, now) && connection {
      var t := db.runs[id].info.tenant;
      counted := WithCircuit(db, t, TenantFailure(CircuitOf(db.circuits, t), now));
    }
  }

  lemma UnknownCounts(db: Db, id: RunId, worker: WorkerId, now: int, openUntil: int) returns (counted: Db)
    ensures FailsAs(db, FailRemoteUnknown(db, id, worker, now, openUntil), counted, id, worker, now)
  {
    counted := db;
    if Holds(db.runs, id, worker, now) {
      var t := db.runs[id].info.tenant;
      counted := WithCircuit(db, t, Uncertain(CircuitOf(db.circuits, t), now, openUntil));
    }
  }

  lemma PreRequestCounts(cfg: Config, db: Db, id: RunId, worker: WorkerId, now: int) returns (counted: Db)
    ensures FailsAs(db, FailPreRequestFailure(cfg, db, id, worker, now), counted, id, worker, now)
  {
    counted := db;
    if Holds(db.runs, id, worker, now) && db.runs[id].info.tenant in cfg.hostOf {
      var t := db.runs[id].info.tenant;
      counted := CountHostFailure(cfg, db, t, now);
      assert CountHostFailure(cfg, WithFailed(db, id), t, now) == WithFailed(counted, id);
    }
  }

  lemma FailUnknownKeeps(cfg: Config, db: Db, id: RunId, worker: WorkerId, now: int, openUntil: int)
    requires Inv(cfg, db)
    ensures var after := FailRemoteUnknown(db, id, worker, now, openUntil); Inv(cfg, after) && Moves(db, after)
  {
    if Holds(db.runs, id, worker, now) && now < openUntil {
      var t := db.runs[id].info.tenant;
      FailureKeeps(cfg, db, id, WithCircuit(db, t, Uncertain(CircuitOf(db.circuits, t), now, openUntil)));
    }
  }

  lemma CompleteKeeps(cfg: Config, db: Db, id: RunId, worker: WorkerId, now: int)
    requires Inv(cfg, db)
    ensures var after := Complete(cfg, db, id, worker, now); Inv(cfg, after) && Moves(db, after)
  {
    if Holds(db.runs, id, worker, now) && db.runs[id].status.Running? {
      var t := db.runs[id].info.tenant;
      var saved := db.(runs := db.runs[id := SucceededRun(db.runs[id], now)],
                       circuits := db.circuits[t := Circuit(0, None, None, None)]);
      var reset := if t in cfg.hostOf && cfg.hostOf[t] in db.hosts
                   then saved.(hosts := saved.hosts[cfg.hostOf[t] := Circuit(0, None, None, None)]) else saved;
      UpdateKeeps(cfg, db, reset, id, SucceededRun(db.runs[id], now));
      SettleKeeps(cfg, reset, id);
      MovesTrans(db, reset, Settle(reset, id));
    }
  }

  lemma RecoverOneKeeps(cfg: Config, db: Db, id: RunId, now: int)
    requires Inv(cfg, db)
    ensures Inv(cfg, RecoverOne(db, id, now)) && Moves(db, RecoverOne(db, id, now))
  {
    if LeaseExpired(db.runs, id, now) {
      var t := db.runs[id].info.tenant;
      if db.runs[id].status.Claimed? {
        UpdateKeeps(cfg, db, RecoverOne(db, id, now), id, Requeued(db.runs[id], Min(db.runs[id].queuedAt, now)));
      } else {
        FailureKeeps(cfg, db, id, WithCircuit(db, t, Uncertain(CircuitOf(db.circuits, t), now, now + 10 * MINUTE)));
      }
    }
  }

  lemma {:induction false} RecoverAllKeeps(cfg: Config, db: Db, ids: seq<RunId>, now: int)
    requires Inv(cfg, db)
    ensures Inv(cfg, RecoverAll(db, ids, now)) && Moves(db, RecoverAll(db, ids, now))
  {
    if ids != [] {
      var before := RecoverAll(db, ids[..|ids| - 1], now);
      RecoverAllKeeps(cfg, db, ids[..|ids| - 1], now);
      RecoverOneKeeps(cfg, before, ids[|ids| - 1], now);
      MovesTrans(db, before, RecoverAll(db, ids, now));
    }
  }

  lemma ArchiveKeeps(cfg: Config, db: Db, tenant: TenantId)
    requires Inv(cfg, db)
    ensures Inv(cfg, ArchiveQueue(db, tenant)) && Moves(db, ArchiveQueue(db, tenant))
  {
    QuietCancel(db.runs, set id | id in db.runs && db.runs[id].info.tenant == tenant);
    MoveKeeps(cfg, db, ArchiveQueue(db, tenant));
  }

  /** Steps of single occurrences keep everything. */
  lemma NoteKeeps(cfg: Config, db: Db, after: Db)
    requires Inv(cfg, db) && OnlyOccurrences(db, after)
    ensures Inv(cfg, after) && Moves(db, after)
  {
    MoveKeeps(cfg, db, after);
  }

  // ---- Insertions ----

  /** New waiting runs disturb nothing. */
  lemma InsertKeeps(cfg: Config, db: Db, runs: map<RunId, Run>)
    requires Inv(cfg, db) && Quiet(db.runs, runs) && KeysOk(runs)
    requires forall id | id in db.runs :: runs[id] == db.runs[id]
    ensures Keeps(cfg, db, db.(runs := runs))
  {
    QuietKeepsRuns(cfg, db.runs, runs);
    StepKeepsOccurrences(db.runs, runs, db.occurrences, db.occurrences);
    RunsKeepGenerations(db.runs, runs, db.generations, db.heads);
  }

  lemma EnqueueKeeps(cfg: Config, db: Db, input: EnqueueInput, standing: Standing, id: RunId, now: int)
    requires Inv(cfg, db)
    ensures Keeps(cfg, db, EnqueueDb(db, input, standing, id, now))
  {
    var after := EnqueueDb(db, input, standing, id, now);
    if after == db {
    } else {
      InsertKeeps(cfg, db, after.runs);
    }
  }

  lemma {:induction false} NewRunsAre(tenant: TenantId, reports: seq<DueReport>, now: int)
    requires forall i, j | 0 <= i < j < |reports| :: reports[i].run != reports[j].run
    ensures forall id | id in NewRuns(tenant, reports, now) :: exists i :: 0 <= i < |reports| && reports[i].run == id
    ensures forall i | 0 <= i < |reports| :: reports[i].run in NewRuns(tenant, reports, now)
              && NewRuns(tenant, reports, now)[reports[i].run] ==
                 ScheduledRun(tenant, reports[i].key, reports[i].period, reports[i].idempotencyKey,
                              reports[i].expiresAt, now)
  {
    if reports != [] {
      var front := reports[..|reports| - 1];
      NewRunsAre(tenant, front, now);
      forall id | id in NewRuns(tenant, reports, now)
        ensures exists i :: 0 <= i < |reports| && reports[i].run == id
      {
        if id in NewRuns(tenant, front, now) {
          var i :| 0 <= i < |front| && front[i].run == id;
          assert reports[i].run == id;
        } else {
          assert reports[|reports| - 1].run == id;
        }
      }
      forall i | 0 <= i < |front|
        ensures reports[i] == front[i] && reports[i].run != reports[|reports| - 1].run
      {
      }
    }
  }

  lemma AppendOccurrence(runs: map<RunId, Run>, occurrences: seq<Occurrence>, o: Occurrence)
    requires OccurrencesInv(runs, occurrences) && LinksOk(o.links, runs, o.tenant) && Scheduled(o.links, runs)
    requires forall p | p in occurrences :: LinkedRuns(p.links) !! LinkedRuns(o.links)
    ensures OccurrencesInv(runs, occurrences + [o]) && OccurrencesStep(occurrences, occurrences + [o])
  {
    var after := occurrences + [o];
    forall i, j, r | 0 <= i < |after| && 0 <= j < |after| && r in LinkedRuns(after[i].links)
      && r in LinkedRuns(after[j].links)
      ensures i == j
    {
      if i < |occurrences| {
        assert after[i] in occurrences;
      }
      if j < |occurrences| {
        assert after[j] in occurrences;
      }
    }
  }

  lemma MaterializeKeeps(cfg: Config, db: Db, tenant: TenantId, schedule: ScheduleId, scheduledFor: int,
                         reports: seq<DueReport>,
                         nextAttempt: int, now: int)
    requires Inv(cfg, db)
    ensures Keeps(cfg, db, Materialize(db, tenant, schedule, scheduledFor, reports, nextAttempt, now))
  {
    if Fresh(db, RunIds(reports)) && !Taken(db, schedule, scheduledFor) && DistinctReports(reports) {
      var o := Occurrence(tenant, schedule, scheduledFor, Links(reports), Collecting, None, None, nextAttempt);
      var runs := db.runs + NewRuns(tenant, reports, now);
      MaterializedRuns(db, tenant, reports, now);
      InsertKeeps(cfg, db, runs);
      forall p | p in db.occurrences
        ensures LinkedRuns(p.links) !! LinkedRuns(o.links)
      {
        OldLinks(db, p, o.links);
      }
      AppendOccurrence(runs, db.occurrences, o);
    }
  }

  lemma OldLinks(db: Db, p: Occurrence, links: seq<Link>)
    requires OccurrencesInv(db.runs, db.occurrences) && p in db.occurrences
    requires forall l | l in links :: l.run !in db.runs
    ensures LinkedRuns(p.links) !! LinkedRuns(links)
  {
    assert LinksOk(p.links, db.runs, p.tenant);
  }

  lemma MaterializedRuns(db: Db, tenant: TenantId, reports: seq<DueReport>, now: int)
    requires Fresh(db, RunIds(reports)) && KeysOk(db.runs)
    ensures var runs := db.runs + NewRuns(tenant, reports, now);
            && Quiet(db.runs, runs) && KeysOk(runs) && (forall id | id in db.runs :: runs[id] == db.runs[id])
            && LinksOk(Links(reports), runs, tenant) && Scheduled(Links(reports), runs)
    ensures forall l | l in Links(reports) :: l.run !in db.runs
  {
    assert forall i | 0 <= i < |reports| :: RunIds(reports)[i] == reports[i].run;
    NewRunsAre(tenant, reports, now);
    forall id | id in NewRuns(tenant, reports, now)
      ensures id !in db.runs && NewRuns(tenant, reports, now)[id].status.Queued?
              && NewRuns(tenant, reports, now)[id].attempt == 0
      ensures NewRuns(tenant, reports, now)[id].info.executionKey.None?
    {
      var i :| 0 <= i < |reports| && reports[i].run == id;
    }
    forall l | l in Links(reports)
      ensures l.run in NewRuns(tenant, reports, now) && l.run !in db.runs
      ensures NewRuns(tenant, reports, now)[l.run].info.tenant == tenant
              && NewRuns(tenant, reports, now)[l.run].info.key == l.key
      ensures NewRuns(tenant, reports, now)[l.run].info.source.Schedule?
    {
      var i :| 0 <= i < |reports| && Links(reports)[i] == l;
      assert reports[i].run == l.run;
    }
  }

  lemma BlockKeeps(cfg: Config, db: Db, tenant: TenantId, schedule: ScheduleId, scheduledFor: int, worker: WorkerId,
                   now: int)
    requires Inv(cfg, db)
    ensures Keeps(cfg, db, MaterializeBlocked(db, tenant, schedule, scheduledFor, worker, now))
  {
    if !Taken(db, schedule, scheduledFor) {
      AppendOccurrence(db.runs, db.occurrences,
                       Occurrence(tenant, schedule, scheduledFor, [], Closed, Some(worker), None, now));
    }
  }

  // ---- Dashboard refreshes ----

  ghost predicate Linked(runs: map<RunId, Run>, tenant: TenantId, items: seq<RefreshItem>, done: Linking) {
    && Quiet(runs, done.runs) && KeysOk(done.runs) && (forall id | id in runs :: done.runs[id] == runs[id])
    && (forall id | id in done.runs && id !in runs :: exists i :: 0 <= i < |items| && items[i].run == id)
    && LinksOk(done.links, done.runs, tenant) && |done.links| == |items|
  }

  lemma {:induction false} LinkItemsOk(runs: map<RunId, Run>, tenant: TenantId, recipient: RecipientId,
                                       items: seq<RefreshItem>,
                                       dataVersion: nat, now: int)
    requires KeysOk(runs)
    requires forall i | 0 <= i < |items| :: items[i].run !in runs
    requires forall i, j | 0 <= i < j < |items| :: items[i].run != items[j].run
    ensures Linked(runs, tenant, items, LinkItems(runs, tenant, recipient, items, dataVersion, now))
  {
    if items != [] {
      var front, item := items[..|items| - 1], items[|items| - 1];
      LinkItemsOk(runs, tenant, recipient, front, dataVersion, now);
      LinkItemOk(runs, tenant, items, LinkItems(runs, tenant, recipient, front, dataVersion, now),
                 RefreshInfo(tenant, recipient, item, dataVersion, now), now);
    }
  }

  lemma LinkItemOk(runs: map<RunId, Run>, tenant: TenantId, items: seq<RefreshItem>, done: Linking, info: RunInfo,
                   now: int)
    requires items != [] && Linked(runs, tenant, items[..|items| - 1], done)
    requires items[|items| - 1].run !in runs
    requires forall i, j | 0 <= i < j < |items| :: items[i].run != items[j].run
    requires info.tenant == tenant && info.executionKey.Some? && info.executionKey.value.key == info.key
    ensures Linked(runs, tenant, items, LinkItem(done, info, items[|items| - 1].run, now))
  {
    var front, id := items[..|items| - 1], items[|items| - 1].run;
    assert forall i | 0 <= i < |front| :: items[i] == front[i];
    assert id !in done.runs;
    forall x | x in done.runs && x !in runs
      ensures exists i :: 0 <= i < |items| && items[i].run == x
    {
      var i :| 0 <= i < |front| && front[i].run == x;
      assert items[i].run == x;
    }
    match CoalescedRun(done.runs, info)
    case Some(open) =>
      CoalescedLink(done, info, open);
    case None =>
      var next := done.runs[id := QueuedRun(info, now + DAY, now)];
      LinksStayOk(done.links, done.runs, next, tenant);
      assert items[|items| - 1].run == id;
  }

  lemma CoalescedLink(done: Linking, info: RunInfo, open: RunId)
    requires KeysOk(done.runs) && LinksOk(done.links, done.runs, info.tenant)
             && open in SummaryConflicts(done.runs, info)
    requires info.executionKey.Some? && info.executionKey.value.key == info.key
    ensures LinksOk(done.links + [Link(info.key, open)], done.runs, info.tenant)
  {
  }

  lemma AppendGeneration(runs: map<RunId, Run>, generations: seq<Generation>, heads: map<GenerationKey, Head>,
                         g: Generation)
    requires GenerationsInv(runs, generations, heads) && GenerationOk(g, runs) && g.status.Building?
    requires BuildingWith(generations, g.key) == {} && |BuildingIn(generations, g.key.tenant)| < 2
    ensures GenerationsInv(runs, generations + [g], heads) && GenerationsStep(generations, generations + [g])
  {
    var after := generations + [g];
    forall k: GenerationKey
      ensures PublishedBelow(after, k, |after|) == PublishedBelow(generations, k, |generations|)
    {
      PublishedPrefix(generations, after, k, |generations|);
    }
    AppendKeepsLimits(generations, g);
  }

  lemma {:induction false} PublishedPrefix(a: seq<Generation>, b: seq<Generation>, key: GenerationKey, n: nat)
    requires n <= |a| <= |b| && b[..|a|] == a
    ensures PublishedBelow(a, key, n) == PublishedBelow(b, key, n)
  {
    if n != 0 {
      PublishedPrefix(a, b, key, n - 1);
      assert b[n - 1] == b[..|a|][n - 1];
    }
  }

  lemma AppendKeepsLimits(generations: seq<Generation>, g: Generation)
    requires BuildingLimits(generations) && g.status.Building?
    requires BuildingWith(generations, g.key) == {} && |BuildingIn(generations, g.key.tenant)| < 2
    ensures BuildingLimits(generations + [g])
  {
    var after := generations + [g];
    forall i | 0 <= i < |generations| && generations[i].status.Building?
      ensures generations[i].key != g.key
    {
      assert i in BuildingWith(generations, generations[i].key);
    }
    forall t
      ensures |BuildingIn(after, t)| <= 2
    {
      AppendBuilding(generations, g, t);
    }
  }

  lemma AppendBuilding(generations: seq<Generation>, g: Generation, t: TenantId)
    requires g.status.Building?
    ensures BuildingIn(generations + [g], t) == BuildingIn(generations, t) + if t == g.key.tenant then {|generations|}
            else {}
    ensures |generations| !in BuildingIn(generations, t)
  {
  }

  lemma RefreshKeeps(cfg: Config, db: Db, tenant: TenantId, recipient: RecipientId, items: seq<RefreshItem>,
                     dataVersion: nat,
                     allowed: bool, now: int)
    requires Inv(cfg, db)
    ensures Keeps(cfg, db, CreateRefresh(db, tenant, recipient, items, dataVersion, allowed, now))
  {
    if StartsRefresh(db, tenant, items, dataVersion, allowed) {
      var linked := LinkItems(db.runs, tenant, recipient, items, dataVersion, now);
      assert forall i | 0 <= i < |items| :: DrawnIds(items)[i] == items[i].run;
      LinkItemsOk(db.runs, tenant, recipient, items, dataVersion, now);
      InsertKeeps(cfg, db, linked.runs);
      AppendGeneration(linked.runs, db.generations, db.heads,
                       Generation(GenerationKeyOf(tenant, items, dataVersion), linked.links, |items|, Building, 0, 0));
    }
  }

  // ---- Every step ----

  /** Every call keeps the invariants; all but a successful claim leave the set of active runs within the old one. */
  lemma ApplyKeeps(cfg: Config, db: Db, s: Step)
    requires Inv(cfg, db)
    ensures Inv(cfg, Apply(cfg, db, s)) && Evolves(db, Apply(cfg, db, s))
    ensures s.action.DoClaim? || Quiet(db.runs, Apply(cfg, db, s).runs)
  {
    match s.action
    case DoClaim(id, w, length, due) =>
      if Eligible(cfg, db, id, due, s.now) {
        ClaimKeeps(cfg, db, id, w, length, due, s.now);
      }
    case _ =>
      OthersKeep(cfg, db, s);
  }

  lemma ClaimKeeps(cfg: Config, db: Db, id: RunId, worker: WorkerId, lease: int, due: seq<Due>, now: int)
    requires Inv(cfg, db) && Eligible(cfg, db, id, due, now)
    ensures var after := Claim(cfg, db, id, worker, lease, due, now); Inv(cfg, after) && Evolves(db, after)
  {
    var after := Claim(cfg, db, id, worker, lease, due, now);
    ClaimKeepsRuns(cfg, db, id, worker, lease, due, now);
    StepKeepsOccurrences(db.runs, after.runs, db.occurrences, db.occurrences);
    RunsKeepGenerations(db.runs, after.runs, db.generations, db.heads);
  }

  predicate Inserts(a: Action) {
    a.DoEnqueue? || a.DoRefresh? || a.DoMaterialize? || a.DoBlock?
  }

  /** The tables that insertions touch. */
  ghost predicate Adds(a: Db, b: Db) {
    b == a.(runs := b.runs, occurrences := b.occurrences, generations := b.generations)
  }

  lemma InsertsAdd(cfg: Config, db: Db, s: Step)
    requires Inserts(s.action)
    ensures var after := Apply(cfg, db, s);
            && Adds(db, after)
            && (s.action.DoEnqueue? || s.action.DoRefresh? ==> after.occurrences == db.occurrences)
            && (!s.action.DoRefresh? ==> after.generations == db.generations)
            && (s.action.DoBlock? ==> after.runs == db.runs)
  {
    if s.action.DoEnqueue? || s.action.DoRefresh? {
      RequestsAdd(cfg, db, s);
    } else {
      match s.action
      case DoMaterialize(t, schedule, at, reports, next) =>
        assert Apply(cfg, db, s) == Materialize(db, t, schedule, at, reports, next, s.now);
      case DoBlock(t, schedule, at, w) =>
        assert Apply(cfg, db, s) == MaterializeBlocked(db, t, schedule, at, w, s.now);
    }
  }

  lemma RequestsAdd(cfg: Config, db: Db, s: Step)
    requires s.action.DoEnqueue? || s.action.DoRefresh?
    ensures var after := Apply(cfg, db, s);
            after == db.(runs := after.runs, generations := after.generations)
            && (s.action.DoEnqueue? ==> after.generations == db.generations)
  {
    match s.action
    case DoEnqueue(input, standing, id) =>
      assert Apply(cfg, db, s) == EnqueueDb(db, input, standing, id, s.now);
    case DoRefresh(t, r, items, version, allowed) =>
      assert Apply(cfg, db, s) == CreateRefresh(db, t, r, items, version, allowed, s.now);
  }

  predicate Fails(a: Action) {
    a.DoFailPreRequest? || a.DoFail? || a.DoFailUnknown?
  }

  predicate Notes(a: Action) {
    a.DoNoteClaim? || a.DoNoteDefer? || a.DoNoteFail? || a.DoNotePublish? || a.DoFinalize?
  }

  lemma OthersKeep(cfg: Config, db: Db, s: Step)
    requires Inv(cfg, db) && !s.action.DoClaim?
    ensures Keeps(cfg, db, Apply(cfg, db, s))
  {
    if Inserts(s.action) {
      InsertsKeep(cfg, db, s);
    } else {
      UpdatesKeep(cfg, db, s);
      MovesEvolve(cfg, db, Apply(cfg, db, s));
    }
  }

  lemma InsertsKeep(cfg: Config, db: Db, s: Step)
    requires Inv(cfg, db) && Inserts(s.action)
    ensures Keeps(cfg, db, Apply(cfg, db, s))
  {
    match s.action
    case DoEnqueue(input, standing, id) =>
      assert Apply(cfg, db, s) == EnqueueDb(db, input, standing, id, s.now);
      EnqueueKeeps(cfg, db, input, standing, id, s.now);
    case DoRefresh(t, r, items, version, allowed) =>
      assert Apply(cfg, db, s) == CreateRefresh(db, t, r, items, version, allowed, s.now);
      RefreshKeeps(cfg, db, t, r, items, version, allowed, s.now);
    case DoMaterialize(t, schedule, at, reports, next) =>
      assert Apply(cfg, db, s) == Materialize(db, t, schedule, at, reports, next, s.now);
      MaterializeKeeps(cfg, db, t, schedule, at, reports, next, s.now);
    case DoBlock(t, schedule, at, w) =>
      assert Apply(cfg, db, s) == MaterializeBlocked(db, t, schedule, at, w, s.now);
      BlockKeeps(cfg, db, t, schedule, at, w, s.now);
  }

  lemma UpdatesKeep(cfg: Config, db: Db, s: Step)
    requires Inv(cfg, db) && !s.action.DoClaim? && !Inserts(s.action)
    ensures Inv(cfg, Apply(cfg, db, s)) && Moves(db, Apply(cfg, db, s))
  {
    if Notes(s.action) {
      NotesKeep(cfg, db, s);
    } else if Fails(s.action) {
      FailsKeep(cfg, db, s);
    } else {
      match s.action
      case DoRecover(ids) => RecoverAllKeeps(cfg, db, ids, s.now);
      case DoComplete(id, w) => CompleteKeeps(cfg, db, id, w, s.now);
      case DoArchive(t) => ArchiveKeeps(cfg, db, t);
      case _ => CallsKeep(cfg, db, s);
    }
  }

  lemma FailsKeep(cfg: Config, db: Db, s: Step)
    requires Inv(cfg, db) && Fails(s.action)
    ensures Inv(cfg, Apply(cfg, db, s)) && Moves(db, Apply(cfg, db, s))
  {
    var counted := FailIsFailure(cfg, db, s);
    if Apply(cfg, db, s) != db {
      FailureKeeps(cfg, db, s.action.run, counted);
    }
  }

  lemma NotesTouchOccurrences(cfg: Config, db: Db, s: Step)
    requires Notes(s.action)
    ensures OnlyOccurrences(db, Apply(cfg, db, s))
  {
    match s.action
    case DoNoteClaim(i, w, length) => assert Apply(cfg, db, s) == NoteClaim(db, i, w, length, s.now);
    case DoNoteDefer(i, w, at) => assert Apply(cfg, db, s) == NoteDefer(db, i, w, at);
    case DoNoteFail(i, w) => assert Apply(cfg, db, s) == NoteFail(db, i, w);
    case DoNotePublish(i, w, n) => assert Apply(cfg, db, s) == NotePublish(db, i, w, n, s.now);
    case DoFinalize(i, status) => assert Apply(cfg, db, s) == Finalize(db, i, status);
  }

  lemma NotesKeep(cfg: Config, db: Db, s: Step)
    requires Inv(cfg, db) && Notes(s.action)
    ensures Inv(cfg, Apply(cfg, db, s)) && Moves(db, Apply(cfg, db, s))
  {
    NotesTouchOccurrences(cfg, db, s);
    NoteKeeps(cfg, db, Apply(cfg, db, s));
  }
}
