/** Runs whose outcome nobody will learn: the lease ran out, or the worker gave up on them. */
module Expiry {
  import opened Options
  import opened Units
  import opened Catalog
  import opened ReportTables
  import opened ReportSteps
  import opened NotificationSteps
  import opened Admission
  import opened ReportInvariants
  import opened ReportActions
  import opened ReportTheorems
  import opened Closing
  import opened Lanes

  // ---- From lease expiry on ----

  /** The run failed, or was RUNNING when its lease ran out before t. */
  predicate Spent(db: Db, id: RunId, t: int) {
    && id in db.runs
    && var r := db.runs[id];
    && (r.status.Failed? || (r.status.Running? && r.lease.Some? && r.lease.value < t))
  }

  lemma RecoverOneLeavesSpent(db: Db, x: RunId, now: int, id: RunId, t: int)
    requires Spent(db, id, t)
    ensures Spent(RecoverOne(db, x, now), id, t)
  {
    if LeaseExpired(db.runs, x, now) && db.runs[x].status.Running? {
      var tenant := db.runs[x].info.tenant;
      var counted := WithCircuit(db, tenant, Uncertain(CircuitOf(db.circuits, tenant), now, now + 10 * MINUTE));
      AfterFailureSpares(WithFailed(counted, x), x, id);
    }
  }

  lemma {:induction false} RecoverAllLeavesSpent(db: Db, ids: seq<RunId>, now: int, id: RunId, t: int)
    requires Spent(db, id, t)
    ensures Spent(RecoverAll(db, ids, now), id, t)
  {
    if ids != [] {
      var front := ids[..|ids| - 1];
      RecoverAllLeavesSpent(db, front, now, id, t);
      RecoverOneLeavesSpent(RecoverAll(db, front, now), ids[|ids| - 1], now, id, t);
    }
  }

  lemma FailureLeavesSpent(cfg: Config, db: Db, s: Step, id: RunId, t: int)
    requires Fails(s.action) && Spent(db, id, t) && t <= s.now
    ensures Spent(Apply(cfg, db, s), id, t)
  {
    var counted := FailIsFailure(cfg, db, s);
    if Apply(cfg, db, s) != db {
      AfterFailureSpares(WithFailed(counted, s.action.run), s.action.run, id);
    }
  }

  /** Calls that need the lease, a queued run, or another run leave the row alone. */
  lemma PlainLeavesSpent(cfg: Config, db: Db, s: Step, id: RunId, t: int)
    requires Plain(s.action) && Spent(db, id, t) && t <= s.now
    ensures id in Apply(cfg, db, s).runs && Apply(cfg, db, s).runs[id] == db.runs[id]
  {
    if s.action.DoArchive? {
      assert Apply(cfg, db, s) == ArchiveQueue(db, s.action.tenant);
    } else {
      PlainRewrites(cfg, db, s);
      if s.action.run == id {
        SpentIsRefused(cfg, db, s, t);
      }
    }
  }

  lemma SpentIsRefused(cfg: Config, db: Db, s: Step, t: int)
    requires Plain(s.action) && !s.action.DoArchive? && Spent(db, s.action.run, t) && t <= s.now
    ensures Apply(cfg, db, s) == db
  {
    match s.action
    case DoClaim(x, w, length, due) => assert Apply(cfg, db, s) == Claim(cfg, db, x, w, length, due, s.now);
    case DoComplete(x, w) => assert Apply(cfg, db, s) == Complete(cfg, db, x, w, s.now);
    case DoRetryPreRequest(x, w, at) => assert Apply(cfg, db, s) == RetryPreRequestFailure(cfg, db, x, w, at, s.now);
    case _ =>
  }

  lemma StepLeavesSpent(cfg: Config, db: Db, s: Step, id: RunId, t: int)
    requires Inv(cfg, db) && Spent(db, id, t) && t <= s.now
    ensures Spent(Apply(cfg, db, s), id, t)
    ensures !Claims(cfg, db, s, id) && !Marks(cfg, db, s, id)
  {
    if Inserts(s.action) {
      InsertsLeaveRuns(cfg, db, s, id);
    } else if Notes(s.action) {
      NotesTouchOccurrences(cfg, db, s);
    } else if Fails(s.action) {
      FailureLeavesSpent(cfg, db, s, id, t);
    } else if s.action.DoRecover? {
      assert Apply(cfg, db, s) == RecoverAll(db, s.action.expired, s.now);
      RecoverAllLeavesSpent(db, s.action.expired, s.now, id, t);
    } else {
      PlainLeavesSpent(cfg, db, s, id, t);
      if !s.action.DoArchive? && s.action.run == id {
        SpentIsRefused(cfg, db, s, t);
      }
    }
  }

  lemma {:induction false} SpentForGood(cfg: Config, db: Db, steps: seq<Step>, id: RunId, t: int)
    requires Inv(cfg, db) && Spent(db, id, t)
    requires forall i | 0 <= i < |steps| :: t <= steps[i].now
    ensures Spent(Exec(cfg, db, steps), id, t)
    ensures ClaimCount(cfg, db, steps, id) == 0 && MarkCount(cfg, db, steps, id) == 0
  {
    if steps != [] {
      var front := steps[..|steps| - 1];
      SpentForGood(cfg, db, front, id, t);
      ExecKeeps(cfg, db, front);
      StepLeavesSpent(cfg, Exec(cfg, db, front), steps[|steps| - 1], id, t);
    }
  }

  /**
   A run found RUNNING in any history after its lease has run out, whether or not a recovery has
   selected it yet, is from then on RUNNING or FAILED: whatever calls follow, it is never queued,
   claimed or started again.
   */
  lemma ExpiredNeverRunsAgain(cfg: Config, history: seq<Step>, more: seq<Step>, id: RunId, t: int)
    requires var db := Reached(cfg, history);
             id in db.runs && db.runs[id].status.Running? && LeaseExpired(db.runs, id, t) && Clocked(more, t)
    ensures var db, later := Reached(cfg, history), Exec(cfg, Reached(cfg, history), more);
            && id in later.runs && (later.runs[id].status.Running? || later.runs[id].status.Failed?)
            && ClaimCount(cfg, db, more, id) == 0 && MarkCount(cfg, db, more, id) == 0
  {
    ReachedOk(cfg, history);
    SpentForGood(cfg, Reached(cfg, history), more, id, t);
  }

  // ---- After an unknown outcome ----

  predicate Executes(w: World, l: LaneId, id: RunId) {
    LaneOf(w, l).Holding? && LaneOf(w, l).executing && LaneOf(w, l).run == id
  }

  /** The run was started, and unless it has finished no lane is executing it. */
  ghost predicate Abandoned(w: World, id: RunId) {
    && id in w.db.runs && Settled(w.db.runs[id])
    && (Terminal(w.db.runs[id]) || forall l :: !Executes(w, l, id))
  }

  /** The event claims the run. */
  ghost predicate Takes(cfg: Config, workerOf: map<LaneId, WorkerId>, w: World, e: Event, id: RunId) {
    && CallOf(w, workerOf, e).Some?
    && Claims(cfg, w.db, At(e.now, CallOf(w, workerOf, e).value), id)
  }

  lemma StartedIsRefused(cfg: Config, db: Db, s: Step, id: RunId)
    requires id in db.runs && Settled(db.runs[id])
    ensures !Claims(cfg, db, s, id) && !Marks(cfg, db, s, id)
  {
    if s.action.DoClaim? && s.action.run == id {
      assert !Eligible(cfg, db, id, s.action.due, s.now);
    }
  }

  lemma CallLeavesAbandoned(cfg: Config, workerOf: map<LaneId, WorkerId>, w: World, e: Event, id: RunId)
    requires WorldInv(cfg, w) && Abandoned(w, id) && !Terminal(w.db.runs[id])
    requires CallOf(w, workerOf, e).Some?
    ensures id in DbAfter(cfg, workerOf, w, e).runs && Settled(DbAfter(cfg, workerOf, w, e).runs[id])
  {
    var s := At(e.now, CallOf(w, workerOf, e).value);
    if IsRetry(s.action) {
      assert e.move.Finish? && s.action.run == LaneOf(w, e.move.lane).run;
      assert !Executes(w, e.move.lane, id);
      if Apply(cfg, w.db, s) != w.db {
        RetryMoves(cfg, w.db, s);
      }
    } else {
      LeavesSettled(cfg, w.db, s, id);
    }
  }

  /** Only an effective MarkRunning makes a lane execute a run. */
  lemma NoNewExecutor(cfg: Config, workerOf: map<LaneId, WorkerId>, w: World, e: Event, id: RunId, l: LaneId)
    requires !Starts(cfg, workerOf, w, e, id)
    requires Executes(Next(cfg, workerOf, w, e), l, id)
    ensures Executes(w, l, id)
  {
  }

  lemma NextLeavesAbandoned(cfg: Config, workerOf: map<LaneId, WorkerId>, w: World, e: Event, id: RunId)
    requires WorldInv(cfg, w) && Abandoned(w, id)
    ensures Abandoned(Next(cfg, workerOf, w, e), id)
    ensures !Starts(cfg, workerOf, w, e, id) && !Takes(cfg, workerOf, w, e, id)
  {
    NextKeeps(cfg, workerOf, w, e);
    if CallOf(w, workerOf, e).Some? {
      var s := At(e.now, CallOf(w, workerOf, e).value);
      StartedIsRefused(cfg, w.db, s, id);
      if !Terminal(w.db.runs[id]) {
        CallLeavesAbandoned(cfg, workerOf, w, e, id);
      }
    }
    forall l | Executes(Next(cfg, workerOf, w, e), l, id) && !Terminal(w.db.runs[id])
      ensures Executes(w, l, id)
    {
      NoNewExecutor(cfg, workerOf, w, e, id, l);
    }
  }

  lemma {:induction false} AbandonedForGood(cfg: Config, workerOf: map<LaneId, WorkerId>, w: World, events: seq<Event>,
                                            id: RunId)
    requires WorldInv(cfg, w) && Abandoned(w, id)
    ensures Abandoned(Play(cfg, workerOf, w, events), id)
    ensures StartCount(cfg, workerOf, w, events, id) == 0
  {
    if events != [] {
      var front := events[..|events| - 1];
      AbandonedForGood(cfg, workerOf, w, front, id);
      PlayKeeps(cfg, workerOf, w, front);
      NextLeavesAbandoned(cfg, workerOf, Play(cfg, workerOf, w, front), events[|events| - 1], id);
    }
  }

  /** A lane that was executing a run ends with an unknown remote outcome. */
  ghost predicate LosesTrack(workerOf: map<LaneId, WorkerId>, w: World, e: Event, id: RunId) {
    && e.move.Finish? && e.move.result.Failure? && e.move.result.remoteUnknown
    && e.move.lane in workerOf && Executes(w, e.move.lane, id)
  }

  lemma LosingTrackAbandons(cfg: Config, workerOf: map<LaneId, WorkerId>, w: World, e: Event, id: RunId)
    requires WorldInv(cfg, w) && LosesTrack(workerOf, w, e, id)
    ensures Abandoned(Next(cfg, workerOf, w, e), id)
  {
    var l := e.move.lane;
    assert LaneOk(w, w.lanes[l]);
    var s := At(e.now, CallOf(w, workerOf, e).value);
    LeavesSettled(cfg, w.db, s, id);
    NextKeeps(cfg, workerOf, w, e);
    forall x | x != l && Executes(w, x, id)
      ensures Terminal(w.db.runs[id])
    {
      assert Apart(w, w.lanes[x], w.lanes[l]);
    }
    forall x | Executes(Next(cfg, workerOf, w, e), x, id)
      ensures x != l && Executes(w, x, id)
    {
    }
  }

  /**
   A run whose outcome a lane reported as unknown is never queued, claimed or started again,
   however the lanes go on. That holds whether the store accepted the report and failed the run,
   or refused it because the lease had run out and left the run RUNNING.
   */
  lemma UnknownNeverRunsAgain(cfg: Config, workerOf: map<LaneId, WorkerId>, events: seq<Event>, e: Event,
                              more: seq<Event>, next: Event, id: RunId)
    requires LosesTrack(workerOf, Play(cfg, workerOf, START, events), e, id)
    ensures var after := Next(cfg, workerOf, Play(cfg, workerOf, START, events), e);
            var later := Play(cfg, workerOf, after, more);
            && id in later.db.runs && Settled(later.db.runs[id])
            && StartCount(cfg, workerOf, after, more, id) == 0
            && !Takes(cfg, workerOf, later, next, id)
  {
    var w := Play(cfg, workerOf, START, events);
    StartOk(cfg);
    PlayKeeps(cfg, workerOf, START, events);
    LosingTrackAbandons(cfg, workerOf, w, e, id);
    NextKeeps(cfg, workerOf, w, e);
    var after := Next(cfg, workerOf, w, e);
    AbandonedForGood(cfg, workerOf, after, more, id);
    PlayKeeps(cfg, workerOf, after, more);
    NextLeavesAbandoned(cfg, workerOf, Play(cfg, workerOf, after, more), next, id);
  }
}
