/**
 Bounds on the waiting queue: background runs per tenant, and one open summary run per key.
 */
module QueueLimits {
  import opened Options
  import opened Units
  import opened Catalog
  import opened ReportTables
  import opened ReportSteps
  import opened Admission
  import opened ReportInvariants
  import opened ReportActions
  import opened ReportTheorems
  import opened Closing
  import opened Ranking

  /** Runs coalesced by execution key: summaries that are not scheduled. */
  predicate Coalescible(r: Run) {
    !r.info.source.Schedule? && r.info.summary && r.info.executionKey.Some?
  }

  ghost predicate OneOpenSummary(runs: map<RunId, Run>) {
    forall a, b | a in runs && b in runs && Coalescible(runs[a]) && Coalescible(runs[b])
                  && Open(runs[a]) && Open(runs[b]) && runs[a].info.tenant == runs[b].info.tenant
                  && runs[a].info.executionKey == runs[b].info.executionKey :: a == b
  }

  ghost predicate BackgroundBounded(runs: map<RunId, Run>) {
    forall t :: |OpenRuns(runs, t, Background)| <= 10
  }

  ghost predicate Limits(runs: map<RunId, Run>) {
    OneOpenSummary(runs) && BackgroundBounded(runs)
  }

  /** Nothing new, and nothing finished is opened again. */
  ghost predicate OpensNothing(a: map<RunId, Run>, b: map<RunId, Run>) {
    forall id | id in b :: id in a && b[id].info == a[id].info && (Open(b[id]) ==> Open(a[id]))
  }

  lemma OpensNothingKeeps(a: map<RunId, Run>, b: map<RunId, Run>)
    requires Limits(a) && OpensNothing(a, b)
    ensures Limits(b)
  {
    forall t
      ensures |OpenRuns(b, t, Background)| <= 10
    {
      SubsetSize(OpenRuns(b, t, Background), OpenRuns(a, t, Background));
    }
  }

  lemma StepsOpenNothing(cfg: Config, db: Db, s: Step)
    requires Inv(cfg, db) && !Inserts(s.action)
    ensures OpensNothing(db.runs, Apply(cfg, db, s).runs)
  {
    if s.action.DoClaim? {
      ClaimOpensNothing(cfg, db, s);
    } else {
      UpdatesKeep(cfg, db, s);
      MoveOpensNothing(db.runs, Apply(cfg, db, s).runs);
    }
  }

  lemma ClaimOpensNothing(cfg: Config, db: Db, s: Step)
    requires s.action.DoClaim?
    ensures OpensNothing(db.runs, Apply(cfg, db, s).runs)
  {
  }

  lemma MoveOpensNothing(a: map<RunId, Run>, b: map<RunId, Run>)
    requires Quiet(a, b) && a.Keys == b.Keys
    ensures OpensNothing(a, b)
  {
    assert forall id | id in b :: id in a && RunStep(a[id], b[id]);
  }

  lemma OpenWithInsert(runs: map<RunId, Run>, id: RunId, r: Run, t: TenantId)
    requires id !in runs && r.status.Queued?
    ensures |OpenRuns(runs[id := r], t, Background)|
            == |OpenRuns(runs, t, Background)| + if r.info.source.Background? && r.info.tenant == t then 1 else 0
  {
    var before, after := OpenRuns(runs, t, Background), OpenRuns(runs[id := r], t, Background);
    assert id !in before;
    if r.info.source.Background? && r.info.tenant == t {
      assert after == before + {id};
    } else {
      assert after == before;
    }
  }

  lemma BackgroundWithin(runs: map<RunId, Run>, id: RunId, r: Run)
    requires BackgroundBounded(runs) && id !in runs && r.status.Queued?
    requires r.info.source.Background? ==> |OpenRuns(runs, r.info.tenant, Background)| < 10
    ensures BackgroundBounded(runs[id := r])
  {
    var after := runs[id := r];
    forall t
      ensures |OpenRuns(after, t, Background)| <= 10
    {
      OpenWithInsert(runs, id, r, t);
    }
  }

  /** One waiting run is added where neither limit is reached. */
  lemma InsertWithin(runs: map<RunId, Run>, id: RunId, r: Run)
    requires Limits(runs) && id !in runs && r.status.Queued?
    requires r.info.source.Background? ==> |OpenRuns(runs, r.info.tenant, Background)| < 10
    requires SummaryConflicts(runs, r.info) == {}
    ensures Limits(runs[id := r])
  {
    var after := runs[id := r];
    BackgroundWithin(runs, id, r);
    forall a | a in runs && Coalescible(runs[a]) && Open(runs[a]) && Coalescible(r)
      ensures runs[a].info.tenant != r.info.tenant || runs[a].info.executionKey != r.info.executionKey
    {
      assert a !in SummaryConflicts(runs, r.info);
    }
  }

  lemma EnqueueWithin(db: Db, input: EnqueueInput, standing: Standing, id: RunId, now: int)
    requires Limits(db.runs)
    ensures Limits(EnqueueDb(db, input, standing, id, now).runs)
  {
    var outcome := Enqueue(db, input, standing, now);
    if outcome.Created? && id !in db.runs {
      InsertWithin(db.runs, id, QueuedRun(outcome.info, now + DAY, now));
    }
  }

  predicate QueuedBefore(runs: map<RunId, Run>, a: RunId, b: RunId) {
    a in runs && b in runs && (runs[a].queuedAt < runs[b].queuedAt || (runs[a].queuedAt == runs[b].queuedAt && a < b))
  }

  /** A refresh item starts a run only when there is none to share. */
  lemma NoneToShare(runs: map<RunId, Run>, info: RunInfo)
    requires CoalescedRun(runs, info).None?
    ensures SummaryConflicts(runs, info) == {}
  {
    var open := SummaryConflicts(runs, info);
    if open != {} {
      var first := FirstExists(open, (a, b) => QueuedBefore(runs, a, b));
      forall o | o in open && o != first
        ensures runs[first].queuedAt < runs[o].queuedAt || (runs[first].queuedAt == runs[o].queuedAt && first < o)
      {
        assert o !in Ahead(open, (a, b) => QueuedBefore(runs, a, b), first);
      }
      assert FirstQueued(runs, open, first);
    }
  }

  lemma {:induction false} LinkItemsWithin(runs: map<RunId, Run>, tenant: TenantId, recipient: RecipientId,
                                           items: seq<RefreshItem>,
                                           dataVersion: nat, now: int)
    requires Limits(runs) && KeysOk(runs)
    requires forall i | 0 <= i < |items| :: items[i].run !in runs
    requires forall i, j | 0 <= i < j < |items| :: items[i].run != items[j].run
    ensures Limits(LinkItems(runs, tenant, recipient, items, dataVersion, now).runs)
  {
    if items != [] {
      var front, item := items[..|items| - 1], items[|items| - 1];
      var done := LinkItems(runs, tenant, recipient, front, dataVersion, now);
      var info := RefreshInfo(tenant, recipient, item, dataVersion, now);
      LinkItemsWithin(runs, tenant, recipient, front, dataVersion, now);
      LinkItemsOk(runs, tenant, recipient, front, dataVersion, now);
      assert item.run !in done.runs;
      if CoalescedRun(done.runs, info).None? {
        NoneToShare(done.runs, info);
        InsertWithin(done.runs, item.run, QueuedRun(info, now + DAY, now));
      }
    }
  }

  lemma RefreshWithin(db: Db, tenant: TenantId, recipient: RecipientId, items: seq<RefreshItem>, dataVersion: nat,
                      allowed: bool, now: int)
    requires Limits(db.runs) && KeysOk(db.runs)
    ensures Limits(CreateRefresh(db, tenant, recipient, items, dataVersion, allowed, now).runs)
  {
    if StartsRefresh(db, tenant, items, dataVersion, allowed) {
      assert forall i | 0 <= i < |items| :: DrawnIds(items)[i] == items[i].run;
      LinkItemsWithin(db.runs, tenant, recipient, items, dataVersion, now);
    }
  }

  /** Scheduled runs fall under neither limit. */
  lemma ScheduledWithin(a: map<RunId, Run>, b: map<RunId, Run>)
    requires Limits(a) && forall id | id in b :: (id in a && b[id] == a[id]) || b[id].info.source.Schedule?
    ensures Limits(b)
  {
    forall t
      ensures |OpenRuns(b, t, Background)| <= 10
    {
      SubsetSize(OpenRuns(b, t, Background), OpenRuns(a, t, Background));
    }
  }

  lemma MaterializeWithin(db: Db, tenant: TenantId, schedule: ScheduleId, scheduledFor: int, reports: seq<DueReport>,
                          nextAttempt: int, now: int)
    requires Limits(db.runs)
    ensures Limits(Materialize(db, tenant, schedule, scheduledFor, reports, nextAttempt, now).runs)
  {
    if Fresh(db, RunIds(reports)) {
      assert forall i | 0 <= i < |reports| :: RunIds(reports)[i] == reports[i].run;
      NewRunsAre(tenant, reports, now);
      ScheduledWithin(db.runs, db.runs + NewRuns(tenant, reports, now));
    }
  }

  lemma StepWithin(cfg: Config, db: Db, s: Step)
    requires Inv(cfg, db) && Limits(db.runs)
    ensures Limits(Apply(cfg, db, s).runs)
  {
    if s.action.DoEnqueue? || s.action.DoRefresh? {
      RequestWithin(cfg, db, s);
    } else if s.action.DoMaterialize? || s.action.DoBlock? {
      DueStepWithin(cfg, db, s);
    } else {
      StepsOpenNothing(cfg, db, s);
      OpensNothingKeeps(db.runs, Apply(cfg, db, s).runs);
    }
  }

  lemma RequestWithin(cfg: Config, db: Db, s: Step)
    requires KeysOk(db.runs) && Limits(db.runs) && (s.action.DoEnqueue? || s.action.DoRefresh?)
    ensures Limits(Apply(cfg, db, s).runs)
  {
    match s.action
    case DoEnqueue(input, standing, id) =>
      assert Apply(cfg, db, s) == EnqueueDb(db, input, standing, id, s.now);
      EnqueueWithin(db, input, standing, id, s.now);
    case DoRefresh(t, r, items, version, allowed) =>
      assert Apply(cfg, db, s) == CreateRefresh(db, t, r, items, version, allowed, s.now);
      RefreshWithin(db, t, r, items, version, allowed, s.now);
  }

  lemma DueStepWithin(cfg: Config, db: Db, s: Step)
    requires Limits(db.runs) && (s.action.DoMaterialize? || s.action.DoBlock?)
    ensures Limits(Apply(cfg, db, s).runs)
  {
    match s.action
    case DoMaterialize(t, schedule, at, reports, next) =>
      assert Apply(cfg, db, s) == Materialize(db, t, schedule, at, reports, next, s.now);
      MaterializeWithin(db, t, schedule, at, reports, next, s.now);
    case DoBlock(t, schedule, at, w) =>
      assert Apply(cfg, db, s).runs == db.runs;
  }

  lemma {:induction false} LimitsHold(cfg: Config, history: seq<Step>)
    ensures Limits(Reached(cfg, history).runs)
  {
    if history == [] {
      assert forall t :: OpenRuns(EMPTY.runs, t, Background) == {};
    } else {
      var front := history[..|history| - 1];
      LimitsHold(cfg, front);
      ReachedOk(cfg, front);
      StepWithin(cfg, Reached(cfg, front), history[|history| - 1]);
    }
  }

  /**
   In every reachable state a tenant has at most ten open background runs, and two open summary
   runs of one tenant never have the same execution key: the same data is not queried twice.
   */
  lemma QueueIsBounded(cfg: Config, history: seq<Step>, tenant: TenantId, a: RunId, b: RunId)
    ensures |OpenRuns(Reached(cfg, history).runs, tenant, Background)| <= 10
    ensures var runs := Reached(cfg, history).runs;
            (a in runs && b in runs && a != b && Open(runs[a]) && Open(runs[b])
             && Coalescible(runs[a]) && Coalescible(runs[b])
             && runs[a].info.tenant == runs[b].info.tenant) ==> runs[a].info.executionKey != runs[b].info.executionKey
  {
    LimitsHold(cfg, history);
  }
}
