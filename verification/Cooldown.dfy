/**
 The tenant cooldown over whole histories: only an active run of the tenant could clear the circuit
 early, and after a run with an unknown outcome there is none.
 */
module Cooldown {
  import opened Options
  import opened Units
  import opened Catalog
  import opened ReportTables
  import opened ReportSteps
  import opened NotificationSteps
  import opened Admission
  import opened ReportInvariants
  import opened ReportActions
  import opened ReportTheorems

  ghost predicate Cooling(db: Db, tenant: TenantId, until: int) {
    && ActiveOfTenant(db.runs, tenant) == {}
    && var c := CircuitOf(db.circuits, tenant); c.openUntil.Some? && until <= c.openUntil.value
  }

  lemma AfterFailureCircuits(db: Db, id: RunId)
    requires id in db.runs
    ensures AfterFailure(db, id).circuits == db.circuits
  {
  }

  lemma QuietStaysIdle(a: map<RunId, Run>, b: map<RunId, Run>, tenant: TenantId)
    requires Quiet(a, b) && ActiveOfTenant(a, tenant) == {}
    ensures ActiveOfTenant(b, tenant) == {}
  {
    forall id | id in b && Active(b[id]) && b[id].info.tenant == tenant
      ensures id in ActiveOfTenant(a, tenant)
    {
    }
  }

  lemma NotActiveHere(db: Db, tenant: TenantId, until: int, id: RunId)
    requires Cooling(db, tenant, until) && id in db.runs && Active(db.runs[id])
    ensures db.runs[id].info.tenant != tenant
  {
    assert db.runs[id].info.tenant == tenant ==> id in ActiveOfTenant(db.runs, tenant);
  }

  ghost predicate OpenSome(db: Db, tenant: TenantId) {
    CircuitOf(db.circuits, tenant).openUntil.Some?
  }

  lemma RecoverOneCircuits(db: Db, id: RunId, now: int, tenant: TenantId)
    ensures CircuitOf(RecoverOne(db, id, now).circuits, tenant) == CircuitOf(db.circuits, tenant)
            || (LeaseExpired(db.runs, id, now) && db.runs[id].info.tenant == tenant)
    ensures OpenSome(db, tenant) ==> OpenSome(RecoverOne(db, id, now), tenant)
  {
    if LeaseExpired(db.runs, id, now) && db.runs[id].status.Running? {
      var t := db.runs[id].info.tenant;
      AfterFailureCircuits(WithFailed(WithCircuit(db, t, Uncertain(CircuitOf(db.circuits, t), now, now + 10 * MINUTE)),
                                      id), id);
    }
  }

  lemma FailCircuits(db: Db, id: RunId, worker: WorkerId, connectionFailure: bool, now: int, tenant: TenantId)
    ensures CircuitOf(Fail(db, id, worker, connectionFailure, now).circuits, tenant) == CircuitOf(db.circuits, tenant)
            || (Holds(db.runs, id, worker, now) && db.runs[id].info.tenant == tenant)
    ensures OpenSome(db, tenant) ==> OpenSome(Fail(db, id, worker, connectionFailure, now), tenant)
  {
    if Holds(db.runs, id, worker, now) {
      var t := db.runs[id].info.tenant;
      var counted := if connectionFailure then WithCircuit(db, t, TenantFailure(CircuitOf(db.circuits, t), now))
        else db;
      AfterFailureCircuits(WithFailed(counted, id), id);
    }
  }

  lemma UnknownCircuits(db: Db, id: RunId, worker: WorkerId, now: int, openUntil: int, tenant: TenantId)
    ensures CircuitOf(FailRemoteUnknown(db, id, worker, now, openUntil).circuits, tenant)
            == CircuitOf(db.circuits, tenant) || (Holds(db.runs, id, worker, now) && db.runs[id].info.tenant == tenant)
    ensures OpenSome(db, tenant) ==> OpenSome(FailRemoteUnknown(db, id, worker, now, openUntil), tenant)
  {
    if now < openUntil && Holds(db.runs, id, worker, now) {
      var t := db.runs[id].info.tenant;
      AfterFailureCircuits(WithFailed(WithCircuit(db, t, Uncertain(CircuitOf(db.circuits, t), now, openUntil)), id),
                           id);
    }
  }

  lemma PreRequestCircuits(cfg: Config, db: Db, id: RunId, worker: WorkerId, now: int, tenant: TenantId)
    ensures CircuitOf(FailPreRequestFailure(cfg, db, id, worker, now).circuits, tenant)
            == CircuitOf(db.circuits, tenant) || (Holds(db.runs, id, worker, now) && db.runs[id].info.tenant == tenant)
    ensures OpenSome(db, tenant) ==> OpenSome(FailPreRequestFailure(cfg, db, id, worker, now), tenant)
  {
    if Holds(db.runs, id, worker, now) && db.runs[id].info.tenant in cfg.hostOf {
      AfterFailureCircuits(CountHostFailure(cfg, WithFailed(db, id), db.runs[id].info.tenant, now), id);
    }
  }

  lemma {:induction false} RecoverAllCools(cfg: Config, db: Db, ids: seq<RunId>, now: int, tenant: TenantId, until: int)
    requires Inv(cfg, db) && Cooling(db, tenant, until)
    ensures Cooling(RecoverAll(db, ids, now), tenant, until)
  {
    if ids != [] {
      var front, last := ids[..|ids| - 1], ids[|ids| - 1];
      var before := RecoverAll(db, front, now);
      RecoverAllCools(cfg, db, front, now, tenant, until);
      RecoverAllKeeps(cfg, db, front, now);
      RecoverOneCircuits(before, last, now, tenant);
      if LeaseExpired(before.runs, last, now) {
        NotActiveHere(before, tenant, until, last);
      }
      RecoverOneKeeps(cfg, before, last, now);
      QuietStaysIdle(before.runs, RecoverOne(before, last, now).runs, tenant);
    }
  }

  lemma OthersLeaveCircuits(cfg: Config, db: Db, s: Step)
    requires !Fails(s.action) && !s.action.DoComplete? && !s.action.DoRecover?
    ensures Apply(cfg, db, s).circuits == db.circuits
  {
    if Inserts(s.action) {
      InsertsAdd(cfg, db, s);
    } else if Notes(s.action) {
      NotesTouchOccurrences(cfg, db, s);
    } else if OneRow(s.action) {
      CallsAreRowSteps(cfg, db, s);
    } else {
      match s.action
      case DoClaim(id, w, length, due) => assert Apply(cfg, db, s) == Claim(cfg, db, id, w, length, due, s.now);
      case DoArchive(t) => assert Apply(cfg, db, s) == ArchiveQueue(db, t);
    }
  }

  lemma FailsTouchOneCircuit(cfg: Config, db: Db, s: Step, tenant: TenantId)
    requires Fails(s.action)
    ensures CircuitOf(Apply(cfg, db, s).circuits, tenant) == CircuitOf(db.circuits, tenant)
            || (Holds(db.runs, s.action.run, s.action.worker, s.now) && db.runs[s.action.run].info.tenant == tenant)
    ensures OpenSome(db, tenant) ==> OpenSome(Apply(cfg, db, s), tenant)
  {
    match s.action
    case DoFail(id, w, connection) =>
      assert Apply(cfg, db, s) == Fail(db, id, w, connection, s.now);
      FailCircuits(db, id, w, connection, s.now, tenant);
    case DoFailUnknown(id, w, openUntil) =>
      assert Apply(cfg, db, s) == FailRemoteUnknown(db, id, w, s.now, openUntil);
      UnknownCircuits(db, id, w, s.now, openUntil, tenant);
    case DoFailPreRequest(id, w) =>
      assert Apply(cfg, db, s) == FailPreRequestFailure(cfg, db, id, w, s.now);
      PreRequestCircuits(cfg, db, id, w, s.now, tenant);
  }

  /** The circuit of an idle tenant is not touched. */
  lemma IdleCircuit(cfg: Config, db: Db, s: Step, tenant: TenantId, until: int)
    requires Cooling(db, tenant, until) && !s.action.DoRecover?
    ensures CircuitOf(Apply(cfg, db, s).circuits, tenant) == CircuitOf(db.circuits, tenant)
  {
    if Fails(s.action) || s.action.DoComplete? {
      if Holds(db.runs, s.action.run, s.action.worker, s.now) {
        NotActiveHere(db, tenant, until, s.action.run);
      }
      if Fails(s.action) {
        FailsTouchOneCircuit(cfg, db, s, tenant);
      }
    } else {
      OthersLeaveCircuits(cfg, db, s);
    }
  }

  /** No run of a cooling tenant is eligible. */
  lemma ClaimCools(cfg: Config, db: Db, id: RunId, worker: WorkerId, length: int, due: seq<Due>, now: int,
                   tenant: TenantId, until: int)
    requires Cooling(db, tenant, until) && now < until
    ensures Cooling(Claim(cfg, db, id, worker, length, due, now), tenant, until)
  {
    if Eligible(cfg, db, id, due, now) {
      assert db.runs[id].info.tenant != tenant;
      assert ActiveOfTenant(Claim(cfg, db, id, worker, length, due, now).runs, tenant)
             == ActiveOfTenant(db.runs, tenant);
    }
  }

  lemma StepCools(cfg: Config, db: Db, s: Step, tenant: TenantId, until: int)
    requires Inv(cfg, db) && Cooling(db, tenant, until) && s.now < until
    ensures Cooling(Apply(cfg, db, s), tenant, until)
  {
    match s.action
    case DoRecover(ids) =>
      RecoverAllCools(cfg, db, ids, s.now, tenant, until);
    case DoClaim(id, w, length, due) =>
      ClaimCools(cfg, db, id, w, length, due, s.now, tenant, until);
    case _ =>
      OtherCools(cfg, db, s, tenant, until);
  }

  lemma OtherCools(cfg: Config, db: Db, s: Step, tenant: TenantId, until: int)
    requires Inv(cfg, db) && Cooling(db, tenant, until) && !s.action.DoRecover? && !s.action.DoClaim?
    ensures Cooling(Apply(cfg, db, s), tenant, until)
  {
    IdleCircuit(cfg, db, s, tenant, until);
    ApplyKeeps(cfg, db, s);
    QuietStaysIdle(db.runs, Apply(cfg, db, s).runs, tenant);
  }

  lemma {:induction false} StaysCool(cfg: Config, db: Db, steps: seq<Step>, tenant: TenantId, until: int)
    requires Inv(cfg, db) && Cooling(db, tenant, until)
    requires forall i | 0 <= i < |steps| :: steps[i].now < until
    ensures Cooling(Exec(cfg, db, steps), tenant, until)
  {
    if steps != [] {
      var front := steps[..|steps| - 1];
      StaysCool(cfg, db, front, tenant, until);
      ExecKeeps(cfg, db, front);
      StepCools(cfg, Exec(cfg, db, front), steps[|steps| - 1], tenant, until);
    }
  }

  /** Step k of a history after db claims a run of the tenant. */
  ghost predicate ClaimsFor(cfg: Config, db: Db, steps: seq<Step>, k: nat, tenant: TenantId) {
    && k < |steps| && steps[k].action.DoClaim?
    && var before := Exec(cfg, db, steps[..k]);
    && Eligible(cfg, before, steps[k].action.run, steps[k].action.due, steps[k].now)
    && before.runs[steps[k].action.run].info.tenant == tenant
  }

  lemma NoClaimWhileCooling(cfg: Config, db: Db, steps: seq<Step>, start: int, k: nat, tenant: TenantId, until: int)
    requires Inv(cfg, db) && Cooling(db, tenant, until) && Clocked(steps, start)
    requires ClaimsFor(cfg, db, steps, k, tenant)
    ensures until <= steps[k].now
  {
    if steps[k].now < until {
      StaysCool(cfg, db, steps[..k], tenant, until);
    }
  }

  lemma FailureLeavesIdle(cfg: Config, db: Db, counted: Db, id: RunId)
    requires Inv(cfg, db) && id in db.runs && Active(db.runs[id])
    requires counted.runs == db.runs && counted.occurrences == db.occurrences && counted.generations == db.generations
             && counted.heads == db.heads
    ensures ActiveOfTenant(AfterFailure(WithFailed(counted, id), id).runs, db.runs[id].info.tenant) == {}
  {
    var after, t := AfterFailure(WithFailed(counted, id), id), db.runs[id].info.tenant;
    FailureKeeps(cfg, db, id, counted);
    forall x | x in after.runs && Active(after.runs[x])
      ensures x in db.runs && Active(db.runs[x]) && x != id && after.runs[x].info == db.runs[x].info
    {
    }
    OnlyActive(cfg, db, id);
  }

  lemma OnlyActive(cfg: Config, db: Db, id: RunId)
    requires Inv(cfg, db) && id in db.runs && Active(db.runs[id])
    ensures forall x | x in db.runs && Active(db.runs[x]) && db.runs[x].info.tenant == db.runs[id].info.tenant ::
            x == id
  {
    forall x | x in db.runs && Active(db.runs[x]) && db.runs[x].info.tenant == db.runs[id].info.tenant
      ensures x == id
    {
      assert x in ActiveOfTenant(db.runs, db.runs[id].info.tenant);
    }
  }

  lemma UnknownCools(cfg: Config, db: Db, id: RunId, worker: WorkerId, now: int, until: int)
    requires Inv(cfg, db) && Holds(db.runs, id, worker, now) && now < until
    ensures Cooling(FailRemoteUnknown(db, id, worker, now, until), db.runs[id].info.tenant, until)
  {
    var t := db.runs[id].info.tenant;
    var counted := WithCircuit(db, t, Uncertain(CircuitOf(db.circuits, t), now, until));
    FailureLeavesIdle(cfg, db, counted, id);
    AfterFailureCircuits(WithFailed(counted, id), id);
  }

  lemma RecoveryCools(cfg: Config, db: Db, id: RunId, now: int)
    requires Inv(cfg, db) && LeaseExpired(db.runs, id, now) && db.runs[id].status.Running?
    ensures Cooling(RecoverOne(db, id, now), db.runs[id].info.tenant, now + 10 * MINUTE)
  {
    var t := db.runs[id].info.tenant;
    var counted := WithCircuit(db, t, Uncertain(CircuitOf(db.circuits, t), now, now + 10 * MINUTE));
    FailureLeavesIdle(cfg, db, counted, id);
    AfterFailureCircuits(WithFailed(counted, id), id);
  }

  /** The rest of a recovery batch leaves the runs it has not come to as they are. */
  lemma {:induction false} BatchCools(cfg: Config, db: Db, ids: seq<RunId>, now: int, id: RunId)
    requires Inv(cfg, db) && LeaseExpired(db.runs, id, now) && db.runs[id].status.Running?
    ensures if id in ids then Cooling(RecoverAll(db, ids, now), db.runs[id].info.tenant, now + 10 * MINUTE)
            else id in RecoverAll(db, ids, now).runs && RecoverAll(db, ids, now).runs[id] == db.runs[id]
  {
    if ids != [] {
      var front, last := ids[..|ids| - 1], ids[|ids| - 1];
      var before, t := RecoverAll(db, front, now), db.runs[id].info.tenant;
      assert ids == front + [last];
      BatchCools(cfg, db, front, now, id);
      RecoverAllKeeps(cfg, db, front, now);
      if id in front {
        assert RecoverAll(before, [last], now) == RecoverOne(before, last, now) by {
          assert [last][..0] == [];
        }
        RecoverAllCools(cfg, before, [last], now, t, now + 10 * MINUTE);
      } else if last == id {
        RecoveryCools(cfg, before, id, now);
      } else {
        RecoverSpares(before, last, now, id);
      }
    }
  }

  /**
   After FailRemoteUnknown, whatever calls follow in whatever order, the first claim of a run of
   the tenant happens at open_until or later.
   */
  lemma CooldownAfterUnknown(cfg: Config, history: seq<Step>, id: RunId, worker: WorkerId, now: int, openUntil: int,
                             steps: seq<Step>, k: nat)
    requires var db := Reached(cfg, history);
             && Holds(db.runs, id, worker, now) && now < openUntil && Clocked(steps, now)
             && ClaimsFor(cfg, FailRemoteUnknown(db, id, worker, now, openUntil), steps, k, db.runs[id].info.tenant)
    ensures openUntil <= steps[k].now
  {
    var db := Reached(cfg, history);
    ReachedOk(cfg, history);
    UnknownCools(cfg, db, id, worker, now, openUntil);
    FailUnknownKeeps(cfg, db, id, worker, now, openUntil);
    NoClaimWhileCooling(cfg, FailRemoteUnknown(db, id, worker, now, openUntil), steps, now, k, db.runs[id].info.tenant,
                        openUntil);
  }

  /** The same for ten minutes after a recovery batch has failed an expired RUNNING run. */
  lemma CooldownAfterRecovery(cfg: Config, history: seq<Step>, ids: seq<RunId>, id: RunId, now: int, steps: seq<Step>,
                              k: nat)
    requires var db := Reached(cfg, history);
             && LeaseExpired(db.runs, id, now) && db.runs[id].status.Running? && id in ids && Clocked(steps, now)
             && ClaimsFor(cfg, RecoverAll(db, ids, now), steps, k, db.runs[id].info.tenant)
    ensures now + 10 * MINUTE <= steps[k].now
  {
    var db := Reached(cfg, history);
    ReachedOk(cfg, history);
    BatchCools(cfg, db, ids, now, id);
    RecoverAllKeeps(cfg, db, ids, now);
    NoClaimWhileCooling(cfg, RecoverAll(db, ids, now), steps, now, k, db.runs[id].info.tenant, now + 10 * MINUTE);
  }

  // ---- The half-open probe ----

  /** A run of the tenant completes in this step. */
  ghost predicate CompletesFor(db: Db, s: Step, tenant: TenantId) {
    && s.action.DoComplete? && Holds(db.runs, s.action.run, s.action.worker, s.now)
    && db.runs[s.action.run].status.Running? && db.runs[s.action.run].info.tenant == tenant
  }

  lemma OnlyCompleteCloses(cfg: Config, db: Db, s: Step, tenant: TenantId)
    requires OpenSome(db, tenant) && !CompletesFor(db, s, tenant)
    ensures OpenSome(Apply(cfg, db, s), tenant)
  {
    if s.action.DoRecover? {
      RecoverAllStaysOpen(db, s.action.expired, s.now, tenant);
    } else if Fails(s.action) {
      FailsTouchOneCircuit(cfg, db, s, tenant);
    } else if !s.action.DoComplete? {
      OthersLeaveCircuits(cfg, db, s);
    }
  }

  lemma {:induction false} RecoverAllStaysOpen(db: Db, ids: seq<RunId>, now: int, tenant: TenantId)
    requires OpenSome(db, tenant)
    ensures OpenSome(RecoverAll(db, ids, now), tenant)
  {
    if ids != [] {
      RecoverAllStaysOpen(db, ids[..|ids| - 1], now, tenant);
      RecoverOneCircuits(RecoverAll(db, ids[..|ids| - 1], now), ids[|ids| - 1], now, tenant);
    }
  }

  /**
   Once open_until is set, an interactive request of the tenant creates no run until some run of
   the tenant completes, however long ago open_until has passed.
   */
  lemma {:induction false} RefusedUntilComplete(cfg: Config, db: Db, steps: seq<Step>, tenant: TenantId,
                                                input: EnqueueInput,
                                                standing: Standing, now: int)
    requires OpenSome(db, tenant) && input.source.Dashboard? && input.tenant == tenant
    requires forall k | 0 <= k < |steps| :: !CompletesFor(Exec(cfg, db, steps[..k]), steps[k], tenant)
    ensures OpenSome(Exec(cfg, db, steps), tenant)
    ensures !Enqueue(Exec(cfg, db, steps), input, standing, now).Created?
  {
    if steps != [] {
      var front := steps[..|steps| - 1];
      forall k | 0 <= k < |front|
        ensures !CompletesFor(Exec(cfg, db, front[..k]), front[k], tenant)
      {
        assert front[..k] == steps[..k];
      }
      RefusedUntilComplete(cfg, db, front, tenant, input, standing, now);
      OnlyCompleteCloses(cfg, Exec(cfg, db, front), steps[|steps| - 1], tenant);
    }
    InteractiveAdmission(Exec(cfg, db, steps), input, standing, now);
  }

  // ---- An instance ----

  predicate Interactive(input: EnqueueInput, tenant: TenantId) {
    input.tenant == tenant && input.source.Dashboard? && input.requestedBy.Some? && 8 <= |input.idempotencyKey| <= 200
  }

  /** A run is requested and claimed, and its outcome stays unknown. */
  function LostRun(first: EnqueueInput, worker: WorkerId): seq<Step> {
    [At(0, DoEnqueue(first, Standing(true, true, 0), 0)), At(0, DoClaim(0, worker, 3 * MINUTE, [])),
     At(0, DoFailUnknown(0, worker, 10 * MINUTE))]
  }

  lemma RequestCreates(input: EnqueueInput, db: Db, now: int)
    requires Interactive(input, input.tenant) && (forall id | id in db.runs :: Terminal(db.runs[id]))
    requires forall id | id in db.runs :: db.runs[id].info.idempotencyKey != input.idempotencyKey
    ensures CircuitOf(db.circuits, input.tenant).openUntil.None? ==>
              Enqueue(db, input, Standing(true, true, 0), now) == Created(InfoOf(input, 0, now))
    ensures CircuitOf(db.circuits, input.tenant).openUntil.Some? ==>
              Enqueue(db, input, Standing(true, true, 0), now) == Refused(CircuitOpen)
  {
    var info := InfoOf(input, 0, now);
    assert SameRequest(db.runs, input) == {};
    assert OpenRuns(db.runs, input.tenant, Dashboard) == {};
    assert RecentRuns(db.runs, info, now) == {};
    assert SummaryConflicts(db.runs, info) == {};
  }

  lemma ThreeSteps(cfg: Config, db: Db, steps: seq<Step>)
    requires |steps| == 3
    ensures Exec(cfg, db, steps) == Apply(cfg, Apply(cfg, Apply(cfg, db, steps[0]), steps[1]), steps[2])
  {
    assert steps[..2][..1] == steps[..1] && steps[..1][..0] == [];
    assert Exec(cfg, db, steps[..1]) == Apply(cfg, db, steps[0]);
    assert Exec(cfg, db, steps[..2]) == Apply(cfg, Exec(cfg, db, steps[..1]), steps[1]);
  }

  lemma FirstRunIsQueued(first: EnqueueInput)
    requires Interactive(first, first.tenant)
    ensures EnqueueDb(EMPTY, first, Standing(true, true, 0), 0, 0)
            == EMPTY.(runs := map[0 := QueuedRun(InfoOf(first, 0, 0), DAY, 0)])
  {
    RequestCreates(first, EMPTY, 0);
  }

  lemma OnlyRunIsEligible(cfg: Config, db: Db, r: Run)
    requires 1 <= cfg.globalCap && 1 <= cfg.hostCap && db.runs == map[0 := r]
    requires r.status.Queued? && r.queuedAt <= 0 && db.circuits == map[] && db.hosts == map[]
    ensures Eligible(cfg, db, 0, [], 0)
  {
    assert ActiveRuns(db.runs) == {} && ActiveInteractive(db.runs) == {};
    assert forall h :: ActiveOnHost(cfg, db.runs, h) == {};
  }

  /** A single active run is lost. */
  lemma OnlyRunIsLost(db: Db, worker: WorkerId)
    requires db.runs.Keys == {0} && Holds(db.runs, 0, worker, 0) && db.circuits == map[]
    ensures var after := FailRemoteUnknown(db, 0, worker, 0, 10 * MINUTE);
            && after.runs.Keys == {0} && after.runs[0].status.Failed? && after.runs[0].info == db.runs[0].info
            && CircuitOf(after.circuits, db.runs[0].info.tenant).openUntil == Some(10 * MINUTE)
  {
  }

  lemma LostRunLeaves(cfg: Config, first: EnqueueInput, worker: WorkerId)
    requires 1 <= cfg.globalCap && 1 <= cfg.hostCap && Interactive(first, first.tenant)
    ensures var db := Reached(cfg, LostRun(first, worker));
            && db.runs.Keys == {0} && db.runs[0].status.Failed?
            && db.runs[0].info.idempotencyKey == first.idempotencyKey
            && CircuitOf(db.circuits, first.tenant).openUntil == Some(10 * MINUTE)
  {
    ThreeSteps(cfg, EMPTY, LostRun(first, worker));
    FirstRunIsQueued(first);
    var queued := EnqueueDb(EMPTY, first, Standing(true, true, 0), 0, 0);
    OnlyRunIsEligible(cfg, queued, queued.runs[0]);
    var claimed := Claim(cfg, queued, 0, worker, 3 * MINUTE, [], 0);
    OnlyRunIsLost(claimed, worker);
  }

  /**
   The history that shows it: a run is lost, its cooldown ends after ten minutes, and an hour
   later, with nothing waiting or running, the next interactive request is still refused.
   */
  lemma ProbeRefused(cfg: Config, first: EnqueueInput, second: EnqueueInput, worker: WorkerId)
    requires 1 <= cfg.globalCap && 1 <= cfg.hostCap
    requires Interactive(first, first.tenant) && Interactive(second, first.tenant)
    requires first.idempotencyKey != second.idempotencyKey
    ensures Enqueue(Reached(cfg, LostRun(first, worker)), second, Standing(true, true, 0), 70 * MINUTE)
            == Refused(CircuitOpen)
  {
    LostRunLeaves(cfg, first, worker);
    RequestCreates(second, Reached(cfg, LostRun(first, worker)), 70 * MINUTE);
  }
}
