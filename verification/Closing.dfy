/**
 Closing a failed occurrence is complete. The code only cancels the queued siblings of a failed
 run; that no sibling is left running follows from the one active run per tenant.
 */
module Closing {
  import opened Options
  import opened Units
  import opened Catalog
  import opened ReportTables
  import opened ReportSteps
  import opened NotificationSteps
  import opened Admission
  import opened ReportInvariants
  import opened ReportActions
  import opened ReportTheorems
  import opened Cooldown

  ghost predicate ClosedWithAllRuns(db: Db, i: nat) {
    && i < |db.occurrences| && db.occurrences[i].status.Closed?
    && forall r | r in LinkedRuns(db.occurrences[i].links) :: r in db.runs && Terminal(db.runs[r])
  }

  /** Occurrence i is collecting and the active run id is one of its reports. */
  ghost predicate Awaits(db: Db, i: nat, id: RunId) {
    && i < |db.occurrences| && db.occurrences[i].status.Collecting? && id in LinkedRuns(db.occurrences[i].links)
    && id in db.runs && Active(db.runs[id])
  }

  lemma SiblingsWait(cfg: Config, db: Db, i: nat, id: RunId)
    requires Inv(cfg, db) && Awaits(db, i, id)
    ensures forall r | r in LinkedRuns(db.occurrences[i].links) :: r in db.runs && (r == id || !Active(db.runs[r]))
    ensures db.runs[id].info.source.Schedule?
  {
    var o := db.occurrences[i];
    assert o in db.occurrences && LinksOk(o.links, db.runs, o.tenant) && Scheduled(o.links, db.runs);
  }

  lemma FailureCloses(cfg: Config, db: Db, counted: Db, i: nat, id: RunId)
    requires Inv(cfg, db) && Awaits(db, i, id)
    requires counted.runs == db.runs && counted.occurrences == db.occurrences
    ensures ClosedWithAllRuns(AfterFailure(WithFailed(counted, id), id), i)
  {
    assert OpenOccurrence(db.occurrences, id, |db.occurrences|) == Some(i);
    SiblingsWait(cfg, db, i, id);
  }

  lemma ClosedStays(cfg: Config, db: Db, more: seq<Step>, i: nat)
    requires Inv(cfg, db) && ClosedWithAllRuns(db, i)
    ensures ClosedWithAllRuns(Exec(cfg, db, more), i)
  {
    ExecKeeps(cfg, db, more);
    assert OccurrenceStep(db.occurrences[i], Exec(cfg, db, more).occurrences[i]);
  }

  // ---- The calls that can fail an active run ----

  lemma AfterFailureSpares(db: Db, id: RunId, other: RunId)
    requires id in db.runs && other in db.runs && !db.runs[other].status.Queued?
    ensures AfterFailure(db, id).runs[other] == db.runs[other]
  {
  }

  lemma CallCloses(cfg: Config, db: Db, s: Step, i: nat, id: RunId)
    requires Inv(cfg, db) && Awaits(db, i, id) && Fails(s.action)
    ensures var after := Apply(cfg, db, s);
            id in after.runs && (after.runs[id] == db.runs[id] || ClosedWithAllRuns(after, i))
  {
    var counted := FailIsFailure(cfg, db, s);
    if Apply(cfg, db, s) != db {
      FailureOf(cfg, db, counted, s.action.run, i, id);
    }
  }

  lemma FailureOf(cfg: Config, db: Db, counted: Db, x: RunId, i: nat, id: RunId)
    requires Inv(cfg, db) && Awaits(db, i, id) && x in db.runs
    requires counted.runs == db.runs && counted.occurrences == db.occurrences
    ensures var after := AfterFailure(WithFailed(counted, x), x);
            id in after.runs && (after.runs[id] == db.runs[id] || ClosedWithAllRuns(after, i))
  {
    if x == id {
      FailureCloses(cfg, db, counted, i, id);
    } else {
      AfterFailureSpares(WithFailed(counted, x), x, id);
    }
  }

  lemma OccurrenceSpared(db: Db, x: RunId, i: nat)
    requires x in db.runs && i < |db.occurrences| && x !in LinkedRuns(db.occurrences[i].links)
    ensures i < |AfterFailure(db, x).occurrences| && AfterFailure(db, x).occurrences[i] == db.occurrences[i]
  {
  }

  /** Failing another run closes another occurrence. */
  lemma OtherFailureSpares(cfg: Config, db: Db, counted: Db, x: RunId, i: nat, id: RunId)
    requires Inv(cfg, db) && Awaits(db, i, id) && x in db.runs && Active(db.runs[x]) && x != id
    requires counted.runs == db.runs && counted.occurrences == db.occurrences
    ensures Awaits(AfterFailure(WithFailed(counted, x), x), i, id)
  {
    SiblingsWait(cfg, db, i, id);
    assert x !in LinkedRuns(db.occurrences[i].links);
    AfterFailureSpares(WithFailed(counted, x), x, id);
    OccurrenceSpared(WithFailed(counted, x), x, i);
  }

  predicate OutOfRace(runs: map<RunId, Run>, id: RunId) {
    id in runs && (runs[id].status.Queued? || runs[id].status.Cancelled?)
  }

  lemma RecoverOneCloses(cfg: Config, db: Db, x: RunId, now: int, i: nat, id: RunId)
    requires Inv(cfg, db) && Awaits(db, i, id)
    ensures var after := RecoverOne(db, x, now);
            Awaits(after, i, id) || OutOfRace(after.runs, id) || ClosedWithAllRuns(after, i)
  {
    if LeaseExpired(db.runs, x, now) && db.runs[x].status.Running? {
      var t := db.runs[x].info.tenant;
      var counted := WithCircuit(db, t, Uncertain(CircuitOf(db.circuits, t), now, now + 10 * MINUTE));
      if x == id {
        FailureCloses(cfg, db, counted, i, id);
      } else {
        OtherFailureSpares(cfg, db, counted, x, i, id);
      }
    }
  }

  /** What follows a failure cancels queued runs and touches no other. */
  lemma FailureKeepsOutOfRace(db: Db, x: RunId, id: RunId)
    requires x in db.runs && OutOfRace(db.runs, id)
    ensures OutOfRace(AfterFailure(db, x).runs, id)
  {
  }

  lemma StaysOutOfRace(db: Db, x: RunId, now: int, id: RunId)
    requires OutOfRace(db.runs, id)
    ensures OutOfRace(RecoverOne(db, x, now).runs, id)
  {
    if LeaseExpired(db.runs, x, now) && db.runs[x].status.Running? {
      var t := db.runs[x].info.tenant;
      var counted := WithCircuit(db, t, Uncertain(CircuitOf(db.circuits, t), now, now + 10 * MINUTE));
      FailureKeepsOutOfRace(WithFailed(counted, x), x, id);
    }
  }

  /** The run still waits for its end, went back to the queue, or its occurrence is closed. */
  ghost predicate Undecided(db: Db, i: nat, id: RunId) {
    Awaits(db, i, id) || OutOfRace(db.runs, id) || ClosedWithAllRuns(db, i)
  }

  lemma RecoverOneUndecided(cfg: Config, db: Db, x: RunId, now: int, i: nat, id: RunId)
    requires Inv(cfg, db) && Undecided(db, i, id)
    ensures Undecided(RecoverOne(db, x, now), i, id)
  {
    if Awaits(db, i, id) {
      RecoverOneCloses(cfg, db, x, now, i, id);
    } else if OutOfRace(db.runs, id) {
      StaysOutOfRace(db, x, now, id);
    } else {
      RecoverOneKeeps(cfg, db, x, now);
      assert OccurrenceStep(db.occurrences[i], RecoverOne(db, x, now).occurrences[i]);
    }
  }

  lemma {:induction false} BatchCloses(cfg: Config, db: Db, ids: seq<RunId>, now: int, i: nat, id: RunId)
    requires Inv(cfg, db) && Awaits(db, i, id)
    ensures Undecided(RecoverAll(db, ids, now), i, id)
  {
    if ids != [] {
      var front := ids[..|ids| - 1];
      BatchCloses(cfg, db, front, now, i, id);
      RecoverAllKeeps(cfg, db, front, now);
      RecoverOneUndecided(cfg, RecoverAll(db, front, now), ids[|ids| - 1], now, i, id);
    }
  }

  // ---- No other call fails a run ----

  lemma OthersFailNothing(cfg: Config, db: Db, s: Step, id: RunId)
    requires Inv(cfg, db) && id in db.runs && Active(db.runs[id]) && !Fails(s.action) && !s.action.DoRecover?
    ensures var after := Apply(cfg, db, s); id in after.runs && !after.runs[id].status.Failed?
  {
    if Inserts(s.action) {
      ApplyKeeps(cfg, db, s);
      InsertsLeaveRuns(cfg, db, s, id);
    } else if Notes(s.action) {
      NotesTouchOccurrences(cfg, db, s);
    } else {
      PlainCall(cfg, db, s, id);
    }
  }

  /** The calls that change one run row, or cancel waiting ones. */
  predicate Plain(a: Action) {
    !Inserts(a) && !Notes(a) && !Fails(a) && !a.DoRecover?
  }

  /** One run row is rewritten; only a retry puts a run back, and only a waiting run is claimed or cancelled. */
  ghost predicate Rewrites(a: map<RunId, Run>, b: map<RunId, Run>, id: RunId, retry: bool) {
    b == a || (id in a && id in b && b == a[id := b[id]] &&
               var was, now := a[id].status, b[id].status;
               && !now.Failed?
               && (now.Queued? ==> retry)
               && (now.Claimed? ==> was.Queued? || was.Claimed?)
               && (now.Cancelled? ==> was.Queued?))
  }

  predicate IsRetry(a: Action) {
    a.DoRetry? || a.DoRetryPreRequest?
  }

  lemma PlainRewrites(cfg: Config, db: Db, s: Step)
    requires Plain(s.action) && !s.action.DoArchive?
    ensures Rewrites(db.runs, Apply(cfg, db, s).runs, s.action.run, IsRetry(s.action))
  {
    match s.action
    case DoClaim(x, w, length, due) => assert Apply(cfg, db, s) == Claim(cfg, db, x, w, length, due, s.now);
    case DoComplete(x, w) => assert Apply(cfg, db, s) == Complete(cfg, db, x, w, s.now);
    case DoCancel(x) => assert Apply(cfg, db, s) == Cancel(db, x);
    case _ => HeldRewrites(cfg, db, s);
  }

  lemma HeldRewrites(cfg: Config, db: Db, s: Step)
    requires s.action.DoExtend? || s.action.DoProgress? || s.action.DoMarkRunning? || IsRetry(s.action)
    ensures Rewrites(db.runs, Apply(cfg, db, s).runs, s.action.run, IsRetry(s.action))
  {
    match s.action
    case DoRetryPreRequest(x, w, at) => assert Apply(cfg, db, s) == RetryPreRequestFailure(cfg, db, x, w, at, s.now);
    case DoRetry(x, w, at) => assert Apply(cfg, db, s) == Retry(db, x, w, at, s.now);
    case DoExtend(x, w, length) => assert Apply(cfg, db, s) == ExtendLease(db, x, w, length, s.now);
    case DoProgress(x, w, phase) => assert Apply(cfg, db, s) == UpdateProgress(db, x, w, phase, s.now);
    case DoMarkRunning(x, w, length) => assert Apply(cfg, db, s) == MarkRunning(db, x, w, length, s.now);
  }

  /** What a plain call can make of an active or finished run. */
  lemma PlainCall(cfg: Config, db: Db, s: Step, id: RunId)
    requires Plain(s.action) && id in db.runs && !db.runs[id].status.Queued?
    ensures var after := Apply(cfg, db, s).runs;
            && id in after
            && (after[id] == db.runs[id]
                || (!after[id].status.Failed? && !after[id].status.Cancelled?
                    && (after[id].status.Queued? ==> IsRetry(s.action))
                    && (after[id].status.Claimed? ==> db.runs[id].status.Claimed?)))
  {
    if s.action.DoArchive? {
      assert Apply(cfg, db, s) == ArchiveQueue(db, s.action.tenant);
    } else {
      PlainRewrites(cfg, db, s);
    }
  }

  lemma InsertsLeaveRuns(cfg: Config, db: Db, s: Step, id: RunId)
    requires Inv(cfg, db) && Inserts(s.action) && id in db.runs
    ensures var after := Apply(cfg, db, s); id in after.runs && after.runs[id] == db.runs[id]
  {
    if s.action.DoEnqueue? || s.action.DoRefresh? {
      RequestsLeaveRuns(cfg, db, s, id);
    } else if s.action.DoBlock? {
      InsertsAdd(cfg, db, s);
    } else {
      var DoMaterialize(t, schedule, at, reports, next) := s.action;
      assert Apply(cfg, db, s) == Materialize(db, t, schedule, at, reports, next, s.now);
      MaterializeLeaves(db, t, schedule, at, reports, next, s.now);
    }
  }

  lemma RequestsLeaveRuns(cfg: Config, db: Db, s: Step, id: RunId)
    requires KeysOk(db.runs) && (s.action.DoEnqueue? || s.action.DoRefresh?) && id in db.runs
    ensures var after := Apply(cfg, db, s); id in after.runs && after.runs[id] == db.runs[id]
  {
    match s.action
    case DoEnqueue(input, standing, x) => EnqueueLeaves(db, input, standing, x, s.now);
    case DoRefresh(t, r, items, version, allowed) => RefreshLeaves(db, t, r, items, version, allowed, s.now);
  }

  lemma EnqueueLeaves(db: Db, input: EnqueueInput, standing: Standing, x: RunId, now: int)
    ensures var after := EnqueueDb(db, input, standing, x, now);
            forall id | id in db.runs :: id in after.runs && after.runs[id] == db.runs[id]
  {
  }

  lemma RefreshLeaves(db: Db, tenant: TenantId, recipient: RecipientId, items: seq<RefreshItem>, dataVersion: nat,
                      allowed: bool, now: int)
    requires KeysOk(db.runs)
    ensures var after := CreateRefresh(db, tenant, recipient, items, dataVersion, allowed, now);
            forall id | id in db.runs :: id in after.runs && after.runs[id] == db.runs[id]
  {
    if StartsRefresh(db, tenant, items, dataVersion, allowed) {
      assert forall k | 0 <= k < |items| :: DrawnIds(items)[k] == items[k].run;
      LinkItemsOk(db.runs, tenant, recipient, items, dataVersion, now);
    }
  }

  lemma MaterializeLeaves(db: Db, tenant: TenantId, schedule: ScheduleId, scheduledFor: int, reports: seq<DueReport>,
                          nextAttempt: int, now: int)
    requires KeysOk(db.runs)
    ensures var after := Materialize(db, tenant, schedule, scheduledFor, reports, nextAttempt, now);
            forall id | id in db.runs :: id in after.runs && after.runs[id] == db.runs[id]
  {
    if Fresh(db, RunIds(reports)) {
      MaterializedRuns(db, tenant, reports, now);
    }
  }

  /**
   Whatever step turns an active run of a collecting occurrence FAILED, the occurrence is closed
   in that very step with every linked run terminal, and stays so through all later steps.
   */
  lemma FailedRunClosesOccurrence(cfg: Config, history: seq<Step>, s: Step, more: seq<Step>, i: nat, id: RunId)
    requires Awaits(Reached(cfg, history), i, id)
    requires var after := Apply(cfg, Reached(cfg, history), s); id in after.runs && after.runs[id].status.Failed?
    ensures ClosedWithAllRuns(Apply(cfg, Reached(cfg, history), s), i)
    ensures ClosedWithAllRuns(Exec(cfg, Apply(cfg, Reached(cfg, history), s), more), i)
  {
    var db := Reached(cfg, history);
    ReachedOk(cfg, history);
    ApplyKeeps(cfg, db, s);
    if Fails(s.action) {
      CallCloses(cfg, db, s, i, id);
    } else if s.action.DoRecover? {
      assert Apply(cfg, db, s) == RecoverAll(db, s.action.expired, s.now);
      BatchCloses(cfg, db, s.action.expired, s.now, i, id);
    } else {
      OthersFailNothing(cfg, db, s, id);
    }
    ClosedStays(cfg, Apply(cfg, db, s), more, i);
  }
}
