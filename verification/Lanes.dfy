/**
 Report workers on top of the store: lanes that share names, may lose their lease and stop, and
 decide by the attempt number they read when they claimed.
 */
module Lanes {
  import opened Options
  import opened Units
  import opened Catalog
  import opened ReportTables
  import opened ReportSteps
  import opened NotificationSteps
  import opened Admission
  import opened ReportInvariants
  import opened ReportActions
  import opened ReportTheorems
  import opened Cooldown
  import opened Closing
  import opened Ranking

  type LaneId = nat

  datatype Lane = Idle | Holding(run: RunId, attempt: nat, source: Source, executing: bool)

  /** What happened to a run so far: successful MarkRunning calls, and attempts that ended in a retry. */
  datatype Past = Past(starts: nat, retried: set<nat>)

  datatype World = World(db: Db, lanes: map<LaneId, Lane>, past: map<RunId, Past>)

  datatype Code = SmlTimeout | SmlUnreachable | SmlQueryFailed | SmlConnectionLoadFailed | SmlResponseReadFailed
    | OtherCode

  predicate IsCircuitFailure(code: Code) {
    !code.OtherCode?
  }

  datatype Result = Done | Failure(code: Code, retryable: bool, remoteUnknown: bool, preRequest: bool)

  datatype Move =
    | Take(lane: LaneId, run: RunId, due: seq<Due>)
    | Start(lane: LaneId)
    | Beat(lane: LaneId)
    | Progress(lane: LaneId, phase: nat)
    | Finish(lane: LaneId, result: Result)
    | Stop(lane: LaneId)
    | Elsewhere(action: Action)

  datatype Event = Event(now: int, move: Move)

  /** The calls only report workers make. */
  predicate Reserved(a: Action) {
    a.DoClaim? || a.DoExtend? || a.DoProgress? || a.DoMarkRunning? || a.DoRetry? || a.DoRetryPreRequest?
    || Fails(a) || a.DoComplete?
  }

  /** ProcessOne's decision once the queries are over. */
  function Decision(lane: Lane, worker: WorkerId, result: Result, now: int): Action
    requires lane.Holding?
  {
    match result
    case Done => DoComplete(lane.run, worker)
    case Failure(code, retryable, remoteUnknown, preRequest) =>
      if remoteUnknown then DoFailUnknown(lane.run, worker, now + 10 * MINUTE)
      else if preRequest then
        if lane.source.Dashboard? && lane.attempt < 2 then DoRetryPreRequest(lane.run, worker, now + 30 * SECOND)
        else DoFailPreRequest(lane.run, worker)
      else if retryable && !code.SmlTimeout? && !lane.source.Background? && lane.attempt < 3 then
        DoRetry(lane.run, worker, now + 30 * SECOND * Power(if lane.attempt == 0 then 0 else lane.attempt - 1))
      else DoFail(lane.run, worker, IsCircuitFailure(code))
  }

  function LaneOf(w: World, l: LaneId): Lane {
    if l in w.lanes then w.lanes[l] else Idle
  }

  function PastOf(w: World, id: RunId): Past {
    if id in w.past then w.past[id] else Past(0, {})
  }

  /** The store call an event makes; a heartbeat runs only while the queries do. */
  function CallOf(w: World, workerOf: map<LaneId, WorkerId>, e: Event): Option<Action> {
    match e.move
    case Take(l, run, due) =>
      if l in workerOf && LaneOf(w, l).Idle? then Some(DoClaim(run, workerOf[l], 3 * MINUTE, due)) else None
    case Start(l) =>
      var lane := LaneOf(w, l);
      if l in workerOf && lane.Holding? && !lane.executing then Some(DoMarkRunning(lane.run, workerOf[l], 3 * MINUTE))
      else None
    case Beat(l) =>
      var lane := LaneOf(w, l);
      if l in workerOf && lane.Holding? && lane.executing then Some(DoExtend(lane.run, workerOf[l], 3 * MINUTE))
      else None
    case Progress(l, phase) =>
      var lane := LaneOf(w, l);
      if l in workerOf && lane.Holding? && lane.executing then Some(DoProgress(lane.run, workerOf[l], phase)) else None
    case Finish(l, result) =>
      var lane := LaneOf(w, l);
      if l in workerOf && lane.Holding? && lane.executing then Some(Decision(lane, workerOf[l], result, e.now))
      else None
    case Stop(_) => None
    case Elsewhere(a) => if Reserved(a) then None else Some(a)
  }

  ghost function DbAfter(cfg: Config, workerOf: map<LaneId, WorkerId>, w: World, e: Event): Db {
    match CallOf(w, workerOf, e)
    case Some(a) => Apply(cfg, w.db, At(e.now, a))
    case None => w.db
  }

  function Released(w: World, l: LaneId): World {
    w.(lanes := w.lanes[l := Idle])
  }

  /** The lane has claimed the run and remembers its attempt. */
  function Taken(w: World, db: Db, l: LaneId, run: RunId): World
    requires run in db.runs
  {
    w.(db := db, lanes := w.lanes[l := Holding(run, db.runs[run].attempt, db.runs[run].info.source, false)])
  }

  function Started(w: World, db: Db, l: LaneId): World
    requires LaneOf(w, l).Holding?
  {
    var lane, past := LaneOf(w, l), PastOf(w, LaneOf(w, l).run);
    World(db, w.lanes[l := lane.(executing := true)], w.past[lane.run := past.(starts := past.starts + 1)])
  }

  /** The lane has put its run back. */
  function Retried(w: World, db: Db, l: LaneId): World
    requires LaneOf(w, l).Holding?
  {
    var lane, past := LaneOf(w, l), PastOf(w, LaneOf(w, l).run);
    World(db, w.lanes[l := Idle], w.past[lane.run := past.(retried := past.retried + {lane.attempt})])
  }

  ghost function Next(cfg: Config, workerOf: map<LaneId, WorkerId>, w: World, e: Event): World {
    var db := DbAfter(cfg, workerOf, w, e);
    match CallOf(w, workerOf, e)
    case None =>
      if e.move.Stop? then Released(w, e.move.lane) else w
    case Some(a) =>
      match e.move
      case Take(l, run, _) => if db == w.db then w else Taken(w, db, l, run)
      case Start(l) => if db == w.db then Released(w, l) else Started(w, db, l)
      case Finish(l, _) => if IsRetry(a) && db != w.db then Retried(w, db, l) else Released(w.(db := db), l)
      case _ => w.(db := db)
  }

  ghost function Play(cfg: Config, workerOf: map<LaneId, WorkerId>, w: World, events: seq<Event>): World {
    if events == [] then w
    else Next(cfg, workerOf, Play(cfg, workerOf, w, events[..|events| - 1]), events[|events| - 1])
  }

  const START: World := World(EMPTY, map[], map[])

  // ---- Invariants ----

  predicate Settled(r: Run) {
    r.status.Running? || Terminal(r)
  }

  ghost predicate LaneOk(w: World, lane: Lane) {
    lane.Holding? ==>
      && lane.run in w.db.runs
      && var r := w.db.runs[lane.run];
      && lane.source == r.info.source && 1 <= lane.attempt <= r.attempt && lane.attempt !in PastOf(w, lane.run).retried
      && (lane.executing ==> Settled(r))
  }

  ghost predicate Apart(w: World, a: Lane, b: Lane) {
    a.Holding? && b.Holding? && a.run == b.run ==>
      && a.attempt != b.attempt
      && (a.executing && b.executing ==> a.run in w.db.runs && Terminal(w.db.runs[a.run]))
  }

  ghost predicate PastOk(w: World, id: RunId) {
    && var past := PastOf(w, id);
    && past.retried <= {1, 2}
    && (id !in w.db.runs ==> past == Past(0, {}))
    && (id in w.db.runs ==>
          && (forall a | a in past.retried :: a <= w.db.runs[id].attempt)
          && (w.db.runs[id].info.source.Background? ==> past.retried == {})
          && past.starts <= |past.retried| + One(Settled(w.db.runs[id])))
  }

  ghost predicate LanesInv(w: World) {
    && (forall l | l in w.lanes :: LaneOk(w, w.lanes[l]))
    && (forall a, b | a in w.lanes && b in w.lanes && a != b :: Apart(w, w.lanes[a], w.lanes[b]))
    && (forall id :: PastOk(w, id))
  }

  /** Runs keep their place: started runs are not requeued, and attempts do not fall. */
  ghost predicate Advances(a: Db, b: Db) {
    forall id | id in a.runs ::
      && id in b.runs && b.runs[id].info == a.runs[id].info && a.runs[id].attempt <= b.runs[id].attempt
      && (Settled(a.runs[id]) ==> Settled(b.runs[id]))
      && (Terminal(a.runs[id]) ==> Terminal(b.runs[id]))
  }

  lemma AdvanceKeepsLanes(w: World, db: Db)
    requires LanesInv(w) && Advances(w.db, db)
    ensures LanesInv(w.(db := db))
  {
    var after := w.(db := db);
    forall l | l in after.lanes
      ensures LaneOk(after, after.lanes[l])
    {
      assert LaneOk(w, w.lanes[l]);
    }
    forall a, b | a in after.lanes && b in after.lanes && a != b
      ensures Apart(after, after.lanes[a], after.lanes[b])
    {
      assert Apart(w, w.lanes[a], w.lanes[b]);
    }
    forall id
      ensures PastOk(after, id)
    {
      assert PastOk(w, id);
    }
  }

  lemma ReleaseKeepsLanes(w: World, l: LaneId)
    requires LanesInv(w)
    ensures LanesInv(Released(w, l))
  {
    var after := Released(w, l);
    forall x | x in after.lanes
      ensures LaneOk(after, after.lanes[x])
    {
      if x != l {
        assert LaneOk(w, w.lanes[x]);
      }
    }
    forall a, b | a in after.lanes && b in after.lanes && a != b
      ensures Apart(after, after.lanes[a], after.lanes[b])
    {
      if a != l && b != l {
        assert Apart(w, w.lanes[a], w.lanes[b]);
      }
    }
    forall id
      ensures PastOk(after, id)
    {
      assert PastOk(w, id);
    }
  }

  // ---- Every call but a retry advances the runs ----

  lemma FailureLeavesSettled(db: Db, counted: Db, x: RunId, id: RunId)
    requires x in db.runs && id in db.runs && Settled(db.runs[id]) && counted.runs == db.runs
    ensures var after := AfterFailure(WithFailed(counted, x), x); id in after.runs && Settled(after.runs[id])
  {
    AfterFailureSpares(WithFailed(counted, x), x, id);
  }

  lemma CallLeavesSettled(cfg: Config, db: Db, s: Step, id: RunId)
    requires Fails(s.action) && id in db.runs && Settled(db.runs[id])
    ensures var after := Apply(cfg, db, s); id in after.runs && Settled(after.runs[id])
  {
    var counted := FailIsFailure(cfg, db, s);
    if Apply(cfg, db, s) != db {
      FailureLeavesSettled(db, counted, s.action.run, id);
    }
  }

  lemma RecoverOneLeavesSettled(db: Db, x: RunId, now: int, id: RunId)
    requires id in db.runs && Settled(db.runs[id])
    ensures id in RecoverOne(db, x, now).runs && Settled(RecoverOne(db, x, now).runs[id])
  {
    if LeaseExpired(db.runs, x, now) && db.runs[x].status.Running? {
      var t := db.runs[x].info.tenant;
      FailureLeavesSettled(db, WithCircuit(db, t, Uncertain(CircuitOf(db.circuits, t), now, now + 10 * MINUTE)), x, id);
    }
  }

  lemma {:induction false} RecoverAllLeavesSettled(db: Db, ids: seq<RunId>, now: int, id: RunId)
    requires id in db.runs && Settled(db.runs[id])
    ensures id in RecoverAll(db, ids, now).runs && Settled(RecoverAll(db, ids, now).runs[id])
  {
    if ids != [] {
      var front := ids[..|ids| - 1];
      RecoverAllLeavesSettled(db, front, now, id);
      RecoverOneLeavesSettled(RecoverAll(db, front, now), ids[|ids| - 1], now, id);
    }
  }

  lemma LeavesSettled(cfg: Config, db: Db, s: Step, id: RunId)
    requires Inv(cfg, db) && !IsRetry(s.action) && id in db.runs && Settled(db.runs[id])
    ensures var after := Apply(cfg, db, s); id in after.runs && Settled(after.runs[id])
  {
    if Inserts(s.action) {
      InsertsLeaveRuns(cfg, db, s, id);
    } else if Notes(s.action) {
      NotesTouchOccurrences(cfg, db, s);
    } else if Fails(s.action) {
      CallLeavesSettled(cfg, db, s, id);
    } else if s.action.DoRecover? {
      assert Apply(cfg, db, s) == RecoverAll(db, s.action.expired, s.now);
      RecoverAllLeavesSettled(db, s.action.expired, s.now, id);
    } else {
      PlainCall(cfg, db, s, id);
    }
  }

  lemma CallAdvances(cfg: Config, db: Db, s: Step)
    requires Inv(cfg, db) && !IsRetry(s.action)
    ensures Advances(db, Apply(cfg, db, s))
  {
    ApplyKeeps(cfg, db, s);
    forall id | id in db.runs && Settled(db.runs[id])
      ensures Settled(Apply(cfg, db, s).runs[id])
    {
      LeavesSettled(cfg, db, s, id);
    }
  }

  // ---- Claims, starts and retries ----

  lemma TakeKeeps(w: World, db: Db, l: LaneId, run: RunId)
    requires LanesInv(w) && Advances(w.db, db) && LaneOf(w, l).Idle?
    requires run in w.db.runs && db.runs[run].attempt == w.db.runs[run].attempt + 1
    ensures LanesInv(Taken(w, db, l, run))
  {
    var mid, after := w.(db := db), Taken(w, db, l, run);
    var lane := after.lanes[l];
    AdvanceKeepsLanes(w, db);
    assert PastOk(w, run);
    forall x | x in after.lanes
      ensures LaneOk(after, after.lanes[x])
      ensures x != l ==> Apart(after, after.lanes[x], lane) && Apart(after, lane, after.lanes[x])
    {
      if x != l {
        assert LaneOk(w, w.lanes[x]) && LaneOk(mid, mid.lanes[x]);
      }
    }
    forall a, b | a in after.lanes && b in after.lanes && a != b
      ensures Apart(after, after.lanes[a], after.lanes[b])
    {
      if a != l && b != l {
        assert Apart(mid, mid.lanes[a], mid.lanes[b]);
      }
    }
    forall id
      ensures PastOk(after, id)
    {
      assert PastOk(mid, id);
    }
  }

  /** A claimed run is started by a lane that holds it. */
  ghost predicate CanStart(w: World, db: Db, l: LaneId) {
    && LanesInv(w) && Advances(w.db, db) && LaneOf(w, l).Holding? && !LaneOf(w, l).executing
    && var run := LaneOf(w, l).run;
    && run in w.db.runs && w.db.runs[run].status.Claimed? && db.runs[run].status.Running?
  }

  lemma StartedLane(w: World, db: Db, l: LaneId, x: LaneId)
    requires CanStart(w, db, l) && x in w.lanes
    ensures var after := Started(w, db, l);
            && LaneOk(after, after.lanes[x])
            && (x != l ==> Apart(after, after.lanes[x], after.lanes[l]) && Apart(after, after.lanes[l], after.lanes[x]))
  {
    assert LaneOk(w, w.lanes[x]) && LaneOk(w, w.lanes[l]);
    assert x != l ==> Apart(w, w.lanes[x], w.lanes[l]);
  }

  lemma StartedPast(w: World, db: Db, l: LaneId, id: RunId)
    requires CanStart(w, db, l)
    ensures PastOk(Started(w, db, l), id)
  {
    assert PastOk(w, id) && LaneOk(w, w.lanes[l]);
  }

  lemma StartKeeps(w: World, db: Db, l: LaneId)
    requires CanStart(w, db, l)
    ensures LanesInv(Started(w, db, l))
  {
    var after := Started(w, db, l);
    forall x | x in after.lanes
      ensures LaneOk(after, after.lanes[x])
      ensures x != l ==> Apart(after, after.lanes[x], after.lanes[l]) && Apart(after, after.lanes[l], after.lanes[x])
    {
      StartedLane(w, db, l, x);
    }
    forall a, b | a in after.lanes && b in after.lanes && a != b && a != l && b != l
      ensures Apart(after, after.lanes[a], after.lanes[b])
    {
      assert Apart(w, w.lanes[a], w.lanes[b]);
    }
    forall id
      ensures PastOk(after, id)
    {
      StartedPast(w, db, l, id);
    }
  }

  /** A running run goes back to the queue by the lane that executes it. */
  ghost predicate CanRetry(w: World, db: Db, l: LaneId) {
    && LanesInv(w) && LaneOf(w, l).Holding? && LaneOf(w, l).executing
    && LaneOf(w, l).attempt < 3 && !LaneOf(w, l).source.Background?
    && var run := LaneOf(w, l).run;
    && run in w.db.runs && w.db.runs[run].status.Running?
    && db.runs.Keys == w.db.runs.Keys && db.runs[run].status.Queued?
    && (forall id | id in w.db.runs ::
          db.runs[id].info == w.db.runs[id].info && db.runs[id].attempt == w.db.runs[id].attempt)
    && (forall id | id in w.db.runs && id != run :: db.runs[id] == w.db.runs[id])
  }

  lemma RetriedLane(w: World, db: Db, l: LaneId, x: LaneId)
    requires CanRetry(w, db, l) && x in w.lanes && x != l
    ensures LaneOk(Retried(w, db, l), w.lanes[x])
  {
    assert LaneOk(w, w.lanes[x]) && LaneOk(w, w.lanes[l]) && Apart(w, w.lanes[x], w.lanes[l]);
  }

  lemma RetriedApart(w: World, db: Db, l: LaneId, a: LaneId, b: LaneId)
    requires CanRetry(w, db, l) && a in w.lanes && b in w.lanes && a != b && a != l && b != l
    ensures Apart(Retried(w, db, l), w.lanes[a], w.lanes[b])
  {
    assert Apart(w, w.lanes[a], w.lanes[b]) && Apart(w, w.lanes[a], w.lanes[l]);
  }

  lemma RetriedPast(w: World, db: Db, l: LaneId, id: RunId)
    requires CanRetry(w, db, l)
    ensures PastOk(Retried(w, db, l), id)
  {
    var lane := w.lanes[l];
    assert PastOk(w, id) && LaneOk(w, lane);
    RetriedAdds(PastOf(w, lane.run), lane.attempt);
  }

  lemma RetryKeeps(w: World, db: Db, l: LaneId)
    requires CanRetry(w, db, l)
    ensures LanesInv(Retried(w, db, l))
  {
    var after := Retried(w, db, l);
    forall x | x in after.lanes
      ensures LaneOk(after, after.lanes[x])
    {
      if x != l {
        RetriedLane(w, db, l, x);
      }
    }
    forall a, b | a in after.lanes && b in after.lanes && a != b
      ensures Apart(after, after.lanes[a], after.lanes[b])
    {
      if a != l && b != l {
        RetriedApart(w, db, l, a, b);
      }
    }
    forall id
      ensures PastOk(after, id)
    {
      RetriedPast(w, db, l, id);
    }
  }

  lemma RetriedAdds(past: Past, attempt: nat)
    requires attempt !in past.retried
    ensures |past.retried + {attempt}| == |past.retried| + 1
  {
  }

  // ---- Every event ----

  ghost predicate WorldInv(cfg: Config, w: World) {
    Inv(cfg, w.db) && LanesInv(w)
  }

  lemma RetryMoves(cfg: Config, db: Db, s: Step)
    requires IsRetry(s.action) && Apply(cfg, db, s) != db
    ensures Holds(db.runs, s.action.run, s.action.worker, s.now)
    ensures Apply(cfg, db, s).runs == db.runs[s.action.run := Requeued(db.runs[s.action.run], s.action.availableAt)]
  {
  }

  lemma RetryCanRetry(cfg: Config, w: World, l: LaneId, s: Step, db: Db)
    requires LanesInv(w) && LaneOf(w, l).Holding? && LaneOf(w, l).executing
    requires LaneOf(w, l).attempt < 3 && !LaneOf(w, l).source.Background?
    requires IsRetry(s.action) && s.action.run == LaneOf(w, l).run && db == Apply(cfg, w.db, s) && db != w.db
    ensures CanRetry(w, db, l)
  {
    assert LaneOk(w, w.lanes[l]);
    RetryMoves(cfg, w.db, s);
  }

  lemma FinishKeeps(cfg: Config, workerOf: map<LaneId, WorkerId>, w: World, e: Event)
    requires WorldInv(cfg, w) && e.move.Finish? && CallOf(w, workerOf, e).Some?
    ensures LanesInv(Next(cfg, workerOf, w, e))
  {
    var l := e.move.lane;
    var lane, a, db := LaneOf(w, l), CallOf(w, workerOf, e).value, DbAfter(cfg, workerOf, w, e);
    assert db == Apply(cfg, w.db, At(e.now, a)) && a == Decision(lane, workerOf[l], e.move.result, e.now);
    if IsRetry(a) && db != w.db {
      RetryCanRetry(cfg, w, l, At(e.now, a), db);
      RetryKeeps(w, db, l);
    } else {
      EndKeeps(cfg, w, l, At(e.now, a), db);
    }
  }

  /** The lane lets go of a run that it has not put back. */
  lemma EndKeeps(cfg: Config, w: World, l: LaneId, s: Step, db: Db)
    requires WorldInv(cfg, w) && db == Apply(cfg, w.db, s) && (!IsRetry(s.action) || db == w.db)
    ensures LanesInv(Released(w.(db := db), l))
  {
    if !IsRetry(s.action) {
      CallAdvances(cfg, w.db, s);
      AdvanceKeepsLanes(w, db);
    }
    ReleaseKeepsLanes(w.(db := db), l);
  }

  lemma MarkAdvances(cfg: Config, db: Db, id: RunId, worker: WorkerId, now: int)
    requires Inv(cfg, db)
    ensures Advances(db, MarkRunning(db, id, worker, 3 * MINUTE, now))
  {
    var s := At(now, DoMarkRunning(id, worker, 3 * MINUTE));
    assert Apply(cfg, db, s) == MarkRunning(db, id, worker, 3 * MINUTE, now);
    CallAdvances(cfg, db, s);
  }

  lemma MarkCanStart(cfg: Config, w: World, l: LaneId, worker: WorkerId, now: int)
    requires WorldInv(cfg, w) && LaneOf(w, l).Holding? && !LaneOf(w, l).executing
    ensures var db := MarkRunning(w.db, LaneOf(w, l).run, worker, 3 * MINUTE, now); db == w.db || CanStart(w, db, l)
  {
    MarkAdvances(cfg, w.db, LaneOf(w, l).run, worker, now);
  }

  lemma StartEventKeeps(cfg: Config, workerOf: map<LaneId, WorkerId>, w: World, e: Event)
    requires WorldInv(cfg, w) && e.move.Start? && CallOf(w, workerOf, e).Some?
    ensures LanesInv(Next(cfg, workerOf, w, e))
  {
    var l := e.move.lane;
    var db := MarkRunning(w.db, LaneOf(w, l).run, workerOf[l], 3 * MINUTE, e.now);
    assert DbAfter(cfg, workerOf, w, e) == db;
    if db == w.db {
      ReleaseKeepsLanes(w, l);
    } else {
      MarkCanStart(cfg, w, l, workerOf[l], e.now);
      StartKeeps(w, db, l);
    }
  }

  lemma TakeEventKeeps(cfg: Config, workerOf: map<LaneId, WorkerId>, w: World, e: Event)
    requires WorldInv(cfg, w) && e.move.Take? && CallOf(w, workerOf, e).Some?
    ensures LanesInv(Next(cfg, workerOf, w, e))
  {
    var db := DbAfter(cfg, workerOf, w, e);
    if db != w.db {
      CallAdvances(cfg, w.db, At(e.now, CallOf(w, workerOf, e).value));
      TakeKeeps(w, db, e.move.lane, e.move.run);
    }
  }

  lemma NextHasDb(cfg: Config, workerOf: map<LaneId, WorkerId>, w: World, e: Event)
    ensures Next(cfg, workerOf, w, e).db == DbAfter(cfg, workerOf, w, e)
  {
  }

  lemma DbAfterKeeps(cfg: Config, workerOf: map<LaneId, WorkerId>, w: World, e: Event)
    requires Inv(cfg, w.db)
    ensures Inv(cfg, DbAfter(cfg, workerOf, w, e)) && Evolves(w.db, DbAfter(cfg, workerOf, w, e))
  {
    match CallOf(w, workerOf, e)
    case None => EvolvesRefl(w.db);
    case Some(a) => ApplyKeeps(cfg, w.db, At(e.now, a));
  }

  lemma OtherEventKeeps(cfg: Config, workerOf: map<LaneId, WorkerId>, w: World, e: Event)
    requires WorldInv(cfg, w) && CallOf(w, workerOf, e).Some?
    requires e.move.Beat? || e.move.Progress? || e.move.Elsewhere?
    ensures LanesInv(Next(cfg, workerOf, w, e))
  {
    CallAdvances(cfg, w.db, At(e.now, CallOf(w, workerOf, e).value));
    AdvanceKeepsLanes(w, DbAfter(cfg, workerOf, w, e));
  }

  lemma NextKeeps(cfg: Config, workerOf: map<LaneId, WorkerId>, w: World, e: Event)
    requires WorldInv(cfg, w)
    ensures WorldInv(cfg, Next(cfg, workerOf, w, e)) && Evolves(w.db, Next(cfg, workerOf, w, e).db)
  {
    DbAfterKeeps(cfg, workerOf, w, e);
    NextHasDb(cfg, workerOf, w, e);
    if CallOf(w, workerOf, e).None? {
      if e.move.Stop? {
        ReleaseKeepsLanes(w, e.move.lane);
      }
    } else {
      match e.move
      case Take(_, _, _) => TakeEventKeeps(cfg, workerOf, w, e);
      case Start(_) => StartEventKeeps(cfg, workerOf, w, e);
      case Finish(_, _) => FinishKeeps(cfg, workerOf, w, e);
      case _ => OtherEventKeeps(cfg, workerOf, w, e);
    }
  }

  lemma StartOk(cfg: Config)
    ensures WorldInv(cfg, START)
  {
    EmptyOk(cfg);
  }

  lemma {:induction false} PlayKeeps(cfg: Config, workerOf: map<LaneId, WorkerId>, w: World, events: seq<Event>)
    requires WorldInv(cfg, w)
    ensures WorldInv(cfg, Play(cfg, workerOf, w, events)) && Evolves(w.db, Play(cfg, workerOf, w, events).db)
  {
    if events == [] {
      EvolvesRefl(w.db);
    } else {
      var front := events[..|events| - 1];
      var before := Play(cfg, workerOf, w, front);
      PlayKeeps(cfg, workerOf, w, front);
      NextKeeps(cfg, workerOf, before, events[|events| - 1]);
      EvolvesTrans(w.db, before.db, Play(cfg, workerOf, w, events).db);
    }
  }

  // ---- Bounded execution ----

  /** The event is a MarkRunning of the run that takes effect. */
  ghost predicate Starts(cfg: Config, workerOf: map<LaneId, WorkerId>, w: World, e: Event, id: RunId) {
    && CallOf(w, workerOf, e).Some?
    && Marks(cfg, w.db, At(e.now, CallOf(w, workerOf, e).value), id)
  }

  ghost function StartCount(cfg: Config, workerOf: map<LaneId, WorkerId>, w: World, events: seq<Event>,
                            id: RunId): nat {
    if events == [] then 0
    else var front := events[..|events| - 1];
         StartCount(cfg, workerOf, w, front, id)
           + One(Starts(cfg, workerOf, Play(cfg, workerOf, w, front), events[|events| - 1], id))
  }

  lemma StartsRecorded(cfg: Config, workerOf: map<LaneId, WorkerId>, w: World, e: Event, id: RunId)
    ensures PastOf(Next(cfg, workerOf, w, e), id).starts == PastOf(w, id).starts + One(Starts(cfg, workerOf, w, e, id))
  {
  }

  lemma {:induction false} AllStartsRecorded(cfg: Config, workerOf: map<LaneId, WorkerId>, events: seq<Event>,
                                             id: RunId)
    ensures PastOf(Play(cfg, workerOf, START, events), id).starts == StartCount(cfg, workerOf, START, events, id)
  {
    if events != [] {
      var front := events[..|events| - 1];
      AllStartsRecorded(cfg, workerOf, front, id);
      StartsRecorded(cfg, workerOf, Play(cfg, workerOf, START, front), events[|events| - 1], id);
    }
  }

  lemma AtMostTwo(s: set<nat>)
    requires s <= {1, 2}
    ensures |s| <= 2
  {
    SubsetSize(s, {1, 2});
  }

  /**
   However the lanes are interleaved, stopped and restarted, a run is started at most three
   times, and at most once when it is a background run.
   */
  lemma BoundedExecution(cfg: Config, workerOf: map<LaneId, WorkerId>, events: seq<Event>, id: RunId)
    ensures StartCount(cfg, workerOf, START, events, id) <= 3
    ensures var db := Play(cfg, workerOf, START, events).db;
            id in db.runs && db.runs[id].info.source.Background? ==> StartCount(cfg, workerOf, START, events, id) <= 1
  {
    var w := Play(cfg, workerOf, START, events);
    StartOk(cfg);
    PlayKeeps(cfg, workerOf, START, events);
    AllStartsRecorded(cfg, workerOf, events, id);
    assert PastOk(w, id);
    AtMostTwo(PastOf(w, id).retried);
  }

  lemma TerminalIdle(cfg: Config, db: Db, s: Step, id: RunId)
    requires id in db.runs && Terminal(db.runs[id])
    ensures !Claims(cfg, db, s, id) && !Marks(cfg, db, s, id)
  {
    if s.action.DoClaim? && s.action.run == id {
      assert !Eligible(cfg, db, id, s.action.due, s.now);
    }
  }

  /** A run that has failed is never claimed or started again. */
  lemma FailedNeverRuns(cfg: Config, workerOf: map<LaneId, WorkerId>, w: World, events: seq<Event>, e: Event, id: RunId)
    requires WorldInv(cfg, w) && id in w.db.runs && Terminal(w.db.runs[id])
    ensures var later := Play(cfg, workerOf, w, events);
            && id in later.db.runs && later.db.runs[id] == w.db.runs[id]
            && !Starts(cfg, workerOf, later, e, id)
            && (CallOf(later, workerOf, e).Some? ==>
                !Claims(cfg, later.db, At(e.now, CallOf(later, workerOf, e).value), id))
  {
    PlayKeeps(cfg, workerOf, w, events);
    var later := Play(cfg, workerOf, w, events);
    if CallOf(later, workerOf, e).Some? {
      TerminalIdle(cfg, later.db, At(e.now, CallOf(later, workerOf, e).value), id);
    }
  }

  /** A run found RUNNING with an expired lease is failed by the recovery loop, never requeued. */
  lemma ExpiredRunningFails(cfg: Config, db: Db, ids: seq<RunId>, now: int, id: RunId)
    requires Inv(cfg, db) && LeaseExpired(db.runs, id, now) && db.runs[id].status.Running? && id in ids
    ensures id in RecoverAll(db, ids, now).runs && RecoverAll(db, ids, now).runs[id].status.Failed?
  {
    RecoverAllKeeps(cfg, db, ids, now);
    RecoverAllLeavesSettled(db, ids, now, id);
    BatchCools(cfg, db, ids, now, id);
    var after := RecoverAll(db, ids, now);
    assert forall x | x in after.runs && Active(after.runs[x]) ::
      x in ActiveOfTenant(after.runs, after.runs[x].info.tenant);
    BatchFailsOnly(db, ids, now, id);
  }

  lemma {:induction false} BatchFailsOnly(db: Db, ids: seq<RunId>, now: int, id: RunId)
    requires id in db.runs && (db.runs[id].status.Running? || db.runs[id].status.Failed?)
    ensures id in RecoverAll(db, ids, now).runs
    ensures RecoverAll(db, ids, now).runs[id].status.Running? || RecoverAll(db, ids, now).runs[id].status.Failed?
  {
    if ids != [] {
      var front := ids[..|ids| - 1];
      BatchFailsOnly(db, front, now, id);
      RecoverOneFailsOnly(RecoverAll(db, front, now), ids[|ids| - 1], now, id);
    }
  }

  lemma RecoverOneFailsOnly(db: Db, x: RunId, now: int, id: RunId)
    requires id in db.runs && (db.runs[id].status.Running? || db.runs[id].status.Failed?)
    ensures id in RecoverOne(db, x, now).runs
    ensures RecoverOne(db, x, now).runs[id].status.Running? || RecoverOne(db, x, now).runs[id].status.Failed?
  {
    if LeaseExpired(db.runs, x, now) && db.runs[x].status.Running? {
      var t := db.runs[x].info.tenant;
      AfterFailureSpares(WithFailed(WithCircuit(db, t, Uncertain(CircuitOf(db.circuits, t), now, now + 10 * MINUTE)),
                                    x), x, id);
    }
  }
}
