/**
 What a worker's lane leaves in the tables: how a run ends for each outcome of its queries, and what
 taking, starting and keeping a run does.
 */
module Outcomes {
  import opened Options
  import opened Units
  import opened Catalog
  import opened ReportTables
  import opened ReportSteps
  import opened ReportInvariants
  import opened ReportActions
  import opened ReportTheorems
  import opened Readiness
  import opened Lanes

  /** Some sequence of events leads from the empty tables to this world. */
  ghost predicate Occurs(cfg: Config, workerOf: map<LaneId, WorkerId>, w: World) {
    exists events :: w == Play(cfg, workerOf, START, events)
  }

  /** The worker is named on the active run, whose lease has not run out. */
  predicate Owns(db: Db, id: RunId, worker: WorkerId, now: int) {
    && id in db.runs && db.runs[id].status in {Claimed, Running} && db.runs[id].claimedBy == Some(worker)
    && db.runs[id].lease.Some? && now <= db.runs[id].lease.value
  }

  /** The lane is running the queries of a run that its worker owns. */
  predicate Executes(w: World, workerOf: map<LaneId, WorkerId>, l: LaneId, now: int) {
    && l in workerOf && l in w.lanes && w.lanes[l].Holding? && w.lanes[l].executing
    && Owns(w.db, w.lanes[l].run, workerOf[l], now)
  }

  ghost function Finished(cfg: Config, workerOf: map<LaneId, WorkerId>, w: World, l: LaneId, result: Result,
                          now: int): World {
    Next(cfg, workerOf, w, Event(now, Finish(l, result)))
  }

  lemma ExecutesRunning(cfg: Config, workerOf: map<LaneId, WorkerId>, w: World, l: LaneId, now: int)
    requires Occurs(cfg, workerOf, w) && Executes(w, workerOf, l, now)
    ensures var lane := w.lanes[l];
            && w.db.runs[lane.run].status.Running? && Holds(w.db.runs, lane.run, workerOf[l], now)
            && lane.source == w.db.runs[lane.run].info.source && 1 <= lane.attempt
  {
    var events :| w == Play(cfg, workerOf, START, events);
    StartOk(cfg);
    PlayKeeps(cfg, workerOf, START, events);
    assert LaneOk(w, w.lanes[l]);
  }

  lemma FinishCalls(cfg: Config, workerOf: map<LaneId, WorkerId>, w: World, l: LaneId, result: Result, now: int)
    requires Executes(w, workerOf, l, now)
    ensures var after := Finished(cfg, workerOf, w, l, result, now);
            && LaneOf(after, l) == Idle
            && after.db == Apply(cfg, w.db, At(now, Decision(w.lanes[l], workerOf[l], result, now)))
  {
  }

  /** Queries that succeed leave the run SUCCEEDED for a day, and close the circuits of its tenant and host. */
  lemma DoneSucceeds(cfg: Config, workerOf: map<LaneId, WorkerId>, w: World, l: LaneId, now: int)
    requires Occurs(cfg, workerOf, w) && Executes(w, workerOf, l, now)
    ensures var id, after := w.lanes[l].run, Finished(cfg, workerOf, w, l, Done, now);
            var t := w.db.runs[id].info.tenant;
            && id in after.db.runs && after.db.runs[id].status == Succeeded
            && after.db.runs[id].expiresAt == now + 86_400 * SECOND
            && t in after.db.circuits && after.db.circuits[t] == Circuit(0, None, None, None)
            && (t in cfg.hostOf && cfg.hostOf[t] in after.db.hosts ==>
                  after.db.hosts[cfg.hostOf[t]] == Circuit(0, None, None, None))
            && LaneOf(after, l) == Idle
  {
    ExecutesRunning(cfg, workerOf, w, l, now);
    FinishCalls(cfg, workerOf, w, l, Done, now);
    assert Finished(cfg, workerOf, w, l, Done, now).db == Complete(cfg, w.db, w.lanes[l].run, workerOf[l], now);
  }

  /** An unknown outcome leaves the run FAILED and the circuit of its tenant open for ten minutes. */
  lemma UnknownFails(cfg: Config, workerOf: map<LaneId, WorkerId>, w: World, l: LaneId, code: Code,
                     retryable: bool, preRequest: bool, now: int)
    requires Occurs(cfg, workerOf, w) && Executes(w, workerOf, l, now)
    ensures var id := w.lanes[l].run;
            var after := Finished(cfg, workerOf, w, l, Failure(code, retryable, true, preRequest), now);
            var t := w.db.runs[id].info.tenant;
            && id in after.db.runs && after.db.runs[id].status == Failed
            && t in after.db.circuits && after.db.circuits[t].openUntil.Some?
            && now + 600 * SECOND <= after.db.circuits[t].openUntil.value
            && LaneOf(after, l) == Idle
  {
    ExecutesRunning(cfg, workerOf, w, l, now);
    FinishCalls(cfg, workerOf, w, l, Failure(code, retryable, true, preRequest), now);
    var s := At(now, DoFailUnknown(w.lanes[l].run, workerOf[l], now + 600 * SECOND));
    assert Apply(cfg, w.db, s) == FailRemoteUnknown(w.db, s.action.run, workerOf[l], now, s.action.openUntil);
    UnknownLeaves(w.db, s.action.run, workerOf[l], now, s.action.openUntil);
  }

  lemma UnknownLeaves(db: Db, id: RunId, worker: WorkerId, now: int, until: int)
    requires Holds(db.runs, id, worker, now) && now < until
    ensures var after, t := FailRemoteUnknown(db, id, worker, now, until), db.runs[id].info.tenant;
            && id in after.runs && after.runs[id].status == Failed
            && t in after.circuits && after.circuits[t].openUntil.Some? && until <= after.circuits[t].openUntil.value
  {
  }

  /** The run as it waits for its next attempt. */
  function Waiting(r: Run, from: int): Run {
    r.(status := Queued, queuedAt := from, claimedBy := None, lease := None, phase := 0)
  }

  /** One failure more inside the window, or the first of a new one. */
  function NextFailures(c: Circuit, now: int, window: int): nat {
    if c.windowStart.Some? && now - window <= c.windowStart.value then c.failures + 1 else 1
  }

  /** The host of the tenant counts the failure; without a host the call leaves everything as it is. */
  ghost predicate HostCounts(cfg: Config, db: Db, id: RunId, now: int, after: Db)
    requires id in db.runs
  {
    var t := db.runs[id].info.tenant;
    && after.circuits == db.circuits && id in after.runs
    && if t in cfg.hostOf
       then cfg.hostOf[t] in after.hosts && after.hosts[cfg.hostOf[t]].failures ==
              NextFailures(CircuitOf(db.hosts, cfg.hostOf[t]), now, 120 * SECOND)
       else after == db
  }

  /**
   A failure before the request leaves an interactive run in its first attempt waiting for thirty
   seconds, and any other FAILED; either way the host counts it. When the tenant has no host the
   call is rolled back, and the run stays RUNNING until its lease has run out.
   */
  lemma PreRequestFailure(cfg: Config, workerOf: map<LaneId, WorkerId>, w: World, l: LaneId, code: Code,
                          retryable: bool, now: int)
    requires Occurs(cfg, workerOf, w) && Executes(w, workerOf, l, now)
    ensures var lane, after := w.lanes[l], Finished(cfg, workerOf, w, l, Failure(code, retryable, false, true), now);
            var id, t := lane.run, w.db.runs[lane.run].info.tenant;
            && LaneOf(after, l) == Idle && HostCounts(cfg, w.db, id, now, after.db)
            && (t in cfg.hostOf ==>
                  if w.db.runs[id].info.source == Dashboard && lane.attempt < 2
                  then after.db.runs[id] == Waiting(w.db.runs[id], now + 30 * SECOND)
                  else after.db.runs[id].status == Failed)
  {
    var lane, worker := w.lanes[l], workerOf[l];
    ExecutesRunning(cfg, workerOf, w, l, now);
    FinishCalls(cfg, workerOf, w, l, Failure(code, retryable, false, true), now);
    if lane.source.Dashboard? && lane.attempt < 2 {
      var s := At(now, DoRetryPreRequest(lane.run, worker, now + 30 * SECOND));
      assert Apply(cfg, w.db, s) == RetryPreRequestFailure(cfg, w.db, lane.run, worker, now + 30 * SECOND, now);
      PreRequestRetried(cfg, w.db, lane.run, worker, now + 30 * SECOND, now);
    } else {
      var s := At(now, DoFailPreRequest(lane.run, worker));
      assert Apply(cfg, w.db, s) == FailPreRequestFailure(cfg, w.db, lane.run, worker, now);
      PreRequestFails(cfg, w.db, lane.run, worker, now);
    }
  }

  lemma PreRequestRetried(cfg: Config, db: Db, id: RunId, worker: WorkerId, at: int, now: int)
    requires Holds(db.runs, id, worker, now)
    ensures var after := RetryPreRequestFailure(cfg, db, id, worker, at, now);
            && HostCounts(cfg, db, id, now, after)
            && (db.runs[id].info.tenant in cfg.hostOf ==> after.runs[id] == Waiting(db.runs[id], at))
  {
  }

  lemma PreRequestFails(cfg: Config, db: Db, id: RunId, worker: WorkerId, now: int)
    requires Holds(db.runs, id, worker, now)
    ensures var after := FailPreRequestFailure(cfg, db, id, worker, now);
            && HostCounts(cfg, db, id, now, after)
            && (db.runs[id].info.tenant in cfg.hostOf ==> after.runs[id].status == Failed)
  {
  }

  /** The failures that are tried again: not a timeout, not in the background, and at most twice. */
  predicate TriedAgain(lane: Lane, r: Run, code: Code, retryable: bool)
    requires lane.Holding?
  {
    retryable && code != SmlTimeout && r.info.source != Background && lane.attempt < 3
  }

  /** A failure that is tried again leaves the run waiting: thirty seconds at first, then sixty. */
  lemma RetryableFailure(cfg: Config, workerOf: map<LaneId, WorkerId>, w: World, l: LaneId, code: Code,
                         retryable: bool, now: int)
    requires Occurs(cfg, workerOf, w) && Executes(w, workerOf, l, now)
    requires TriedAgain(w.lanes[l], w.db.runs[w.lanes[l].run], code, retryable)
    ensures var lane, after := w.lanes[l], Finished(cfg, workerOf, w, l, Failure(code, retryable, false, false), now);
            && LaneOf(after, l) == Idle
            && after.db == w.db.(runs := w.db.runs[lane.run := Waiting(w.db.runs[lane.run],
                                                        now + (if lane.attempt == 1 then 30 else 60) * SECOND)])
  {
    var lane := w.lanes[l];
    ExecutesRunning(cfg, workerOf, w, l, now);
    FinishCalls(cfg, workerOf, w, l, Failure(code, retryable, false, false), now);
    RetryDelay(lane, workerOf[l], code, retryable, now);
    var s := At(now, DoRetry(lane.run, workerOf[l], now + (if lane.attempt == 1 then 30 else 60) * SECOND));
    assert Apply(cfg, w.db, s) == Retry(w.db, lane.run, workerOf[l], s.action.availableAt, now);
  }

  lemma RetryDelay(lane: Lane, worker: WorkerId, code: Code, retryable: bool, now: int)
    requires lane.Holding? && 1 <= lane.attempt < 3 && !lane.source.Background?
    requires retryable && code != SmlTimeout
    ensures Decision(lane, worker, Failure(code, retryable, false, false), now)
            == DoRetry(lane.run, worker, now + (if lane.attempt == 1 then 30 else 60) * SECOND)
  {
    assert Power(0) == 1 && Power(1) == 2;
  }

  lemma FailLeaves(db: Db, id: RunId, worker: WorkerId, connectionFailure: bool, now: int)
    requires Holds(db.runs, id, worker, now)
    ensures var after, t := Fail(db, id, worker, connectionFailure, now), db.runs[id].info.tenant;
            && id in after.runs && after.runs[id].status == Failed
            && if connectionFailure
               then t in after.circuits && after.circuits[t].failures ==
                    NextFailures(CircuitOf(db.circuits, t), now, 600 * SECOND)
               else after.circuits == db.circuits
  {
  }

  /** Every other failure leaves the run FAILED, and a connection failure counts for the tenant. */
  lemma FinalFailure(cfg: Config, workerOf: map<LaneId, WorkerId>, w: World, l: LaneId, code: Code,
                     retryable: bool, now: int)
    requires Occurs(cfg, workerOf, w) && Executes(w, workerOf, l, now)
    requires !TriedAgain(w.lanes[l], w.db.runs[w.lanes[l].run], code, retryable)
    ensures var id, after := w.lanes[l].run, Finished(cfg, workerOf, w, l, Failure(code, retryable, false, false), now);
            var t := w.db.runs[id].info.tenant;
            && LaneOf(after, l) == Idle && id in after.db.runs && after.db.runs[id].status == Failed
            && (if code == OtherCode then after.db.circuits == w.db.circuits
                else t in after.db.circuits && after.db.circuits[t].failures ==
                     NextFailures(CircuitOf(w.db.circuits, t), now, 600 * SECOND))
  {
    var lane, worker := w.lanes[l], workerOf[l];
    ExecutesRunning(cfg, workerOf, w, l, now);
    FinishCalls(cfg, workerOf, w, l, Failure(code, retryable, false, false), now);
    FinalDecision(lane, w.db.runs[lane.run], worker, code, retryable, now);
    var s := At(now, DoFail(lane.run, worker, code != OtherCode));
    assert Apply(cfg, w.db, s) == Fail(w.db, lane.run, worker, code != OtherCode, now);
    FailLeaves(w.db, lane.run, worker, code != OtherCode, now);
  }

  lemma FinalDecision(lane: Lane, r: Run, worker: WorkerId, code: Code, retryable: bool, now: int)
    requires lane.Holding? && lane.source == r.info.source && !TriedAgain(lane, r, code, retryable)
    ensures Decision(lane, worker, Failure(code, retryable, false, false), now)
            == DoFail(lane.run, worker, code != OtherCode)
  {
  }

  // ---- Before the queries end ----

  /** An idle lane takes a run exactly when the run is ready, and holds it for three minutes. */
  lemma TakeMeans(cfg: Config, workerOf: map<LaneId, WorkerId>, w: World, l: LaneId, id: RunId, due: seq<Due>, now: int)
    requires l in workerOf && LaneOf(w, l) == Idle
    ensures var after := Next(cfg, workerOf, w, Event(now, Take(l, id, due)));
            if Ready(cfg, w.db, id, due, now) then
              && Owns(after.db, id, workerOf[l], now) && after.db.runs[id].status == Claimed
              && after.db.runs[id].lease == Some(now + 180 * SECOND)
              && LaneOf(after, l) == Holding(id, w.db.runs[id].attempt + 1, w.db.runs[id].info.source, false)
            else after == w
  {
    EligibleIsReady(cfg, w.db, id, due, now);
    var e := Event(now, Take(l, id, due));
    assert DbAfter(cfg, workerOf, w, e) == Claim(cfg, w.db, id, workerOf[l], 3 * MINUTE, due, now);
  }

  /** A lane starts the run it holds exactly when its worker owns the run and it is CLAIMED; else it lets go. */
  lemma StartMeans(cfg: Config, workerOf: map<LaneId, WorkerId>, w: World, l: LaneId, now: int)
    requires l in workerOf && LaneOf(w, l).Holding? && !LaneOf(w, l).executing
    ensures var after, id := Next(cfg, workerOf, w, Event(now, Start(l))), LaneOf(w, l).run;
            if Owns(w.db, id, workerOf[l], now) && w.db.runs[id].status == Claimed then
              && after.db.runs[id] == w.db.runs[id].(status := Running, lease := Some(now + 180 * SECOND))
              && Executes(after, workerOf, l, now)
            else after.db == w.db && LaneOf(after, l) == Idle
  {
    var e := Event(now, Start(l));
    assert DbAfter(cfg, workerOf, w, e) == MarkRunning(w.db, LaneOf(w, l).run, workerOf[l], 3 * MINUTE, now);
  }

  /** A heartbeat gives the run three more minutes exactly while its worker owns it. */
  lemma BeatMeans(cfg: Config, workerOf: map<LaneId, WorkerId>, w: World, l: LaneId, now: int)
    requires l in workerOf && LaneOf(w, l).Holding? && LaneOf(w, l).executing
    ensures var after, id := Next(cfg, workerOf, w, Event(now, Beat(l))), LaneOf(w, l).run;
            && after.lanes == w.lanes
            && if Owns(w.db, id, workerOf[l], now) then
                 after.db == w.db.(runs := w.db.runs[id := w.db.runs[id].(lease := Some(now + 180 * SECOND))])
               else after.db == w.db
  {
    var e := Event(now, Beat(l));
    assert DbAfter(cfg, workerOf, w, e) == ExtendLease(w.db, LaneOf(w, l).run, workerOf[l], 3 * MINUTE, now);
  }

  /** The phase a lane reports is recorded exactly when it is a later one and its worker owns the running run. */
  lemma PhaseMeans(cfg: Config, workerOf: map<LaneId, WorkerId>, w: World, l: LaneId, phase: nat, now: int)
    requires l in workerOf && LaneOf(w, l).Holding? && LaneOf(w, l).executing
    ensures var after, id := Next(cfg, workerOf, w, Event(now, Progress(l, phase))), LaneOf(w, l).run;
            && after.lanes == w.lanes
            && if Owns(w.db, id, workerOf[l], now) && w.db.runs[id].status == Running && w.db.runs[id].phase < phase then
                 after.db == w.db.(runs := w.db.runs[id := w.db.runs[id].(phase := phase)])
               else after.db == w.db
  {
    var e := Event(now, Progress(l, phase));
    assert DbAfter(cfg, workerOf, w, e) == UpdateProgress(w.db, LaneOf(w, l).run, workerOf[l], phase, now);
  }
}
