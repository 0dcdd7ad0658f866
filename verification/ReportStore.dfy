/**
 The report store: the tables as fields, and each transaction as a method that updates them.

 A method makes its statements one after another and returns early where the transaction is rolled
 back, before it has changed anything. Each is proved to leave the tables that the function of its
 transaction gives, so that the results about histories of these functions are results about
 sequences of calls, and beside that states what its caller learns: what was selected and in which
 order, whether the guard held, and who may act on the run afterwards.
 */
module ReportStore {
  import opened Options
  import opened Units
  import opened Catalog
  import opened ReportTables
  import opened ReportSteps
  import opened Admission
  import opened Ranking
  import opened Readiness
  import opened Recoveries

  /** order by lease_expires_at, id */
  predicate LeaseBefore(runs: map<RunId, Run>, a: RunId, b: RunId) {
    var la, lb := LeaseOf(runs, a), LeaseOf(runs, b);
    la < lb || (la == lb && a < b)
  }

  function LeaseOf(runs: map<RunId, Run>, id: RunId): int {
    if id in runs && runs[id].lease.Some? then runs[id].lease.value else 0
  }

  /** What recovery selects: the first hundred expired leases. */
  ghost predicate IsRecoveryBatch(runs: map<RunId, Run>, now: int, batch: seq<RunId>) {
    && Ordered(batch, (a, b) => LeaseBefore(runs, a, b))
    && |batch| <= 100
    && (forall id | id in batch :: LeaseExpired(runs, id, now))
    && (forall id | LeaseExpired(runs, id, now) && id !in batch :: |batch| == 100 && forall b | b in batch ::
        LeaseBefore(runs, b, id))
  }

  lemma BatchIsEarliest(runs: map<RunId, Run>, now: int, batch: seq<RunId>)
    requires IsRecoveryBatch(runs, now, batch)
    ensures EarliestLate(runs, now, batch)
  {
    forall i | 0 <= i < |batch|
      ensures Late(runs, batch[i], now)
    {
      assert batch[i] in batch;
    }
    forall x | Late(runs, x, now) && x !in batch
      ensures |batch| == 100 && forall i | 0 <= i < |batch| :: LateBefore(runs, batch[i], x, now)
    {
      assert LeaseExpired(runs, x, now);
      assert forall i | 0 <= i < |batch| :: batch[i] in batch;
    }
  }

  lemma LeaseBeforeTotal(runs: map<RunId, Run>, s: set<RunId>)
    ensures TotalOn(s, (a, b) => LeaseBefore(runs, a, b))
  {
  }

  predicate CandidateBefore(db: Db, now: int, a: RunId, b: RunId) {
    a in db.runs && b in db.runs && ClaimedBefore(db, now, a, b)
  }

  lemma ClaimOrderTotal(db: Db, now: int, s: set<RunId>)
    requires s <= db.runs.Keys
    ensures TotalOn(s, (a, b) => CandidateBefore(db, now, a, b))
  {
    forall x, y, z | x in s && y in s && z in s && CandidateBefore(db, now, x, y) && CandidateBefore(db, now, y, z)
      ensures CandidateBefore(db, now, x, z)
    {
      ClaimOrderTransitive(db, now, x, y, z);
    }
  }

  lemma ClaimOrderTransitive(db: Db, now: int, x: RunId, y: RunId, z: RunId)
    requires CandidateBefore(db, now, x, y) && CandidateBefore(db, now, y, z)
    ensures CandidateBefore(db, now, x, z)
  {
  }

  /** The first eligible run is ready, and every other ready run gives way to it. */
  lemma ChosenIsReady(cfg: Config, db: Db, claimed: Option<RunId>, due: seq<Due>, now: int)
    requires claimed.Some? ==> Eligible(cfg, db, claimed.value, due, now)
    requires forall id | Eligible(cfg, db, id, due, now) ::
               claimed.Some? && (id == claimed.value || CandidateBefore(db, now, claimed.value, id))
    ensures claimed.Some? <==> exists id :: Ready(cfg, db, id, due, now)
    ensures claimed.Some? ==>
              Ready(cfg, db, claimed.value, due, now) && forall id | Ready(cfg, db, id, due, now) && id != claimed.value ::
              GivesWay(db, now, claimed.value, id)
  {
    forall id
      ensures Eligible(cfg, db, id, due, now) <==> Ready(cfg, db, id, due, now)
    {
      EligibleIsReady(cfg, db, id, due, now);
    }
    forall id | Ready(cfg, db, id, due, now) && claimed.Some? && id != claimed.value
      ensures GivesWay(db, now, claimed.value, id)
    {
      EarlierGoesFirst(db, now, claimed.value, id);
    }
  }

  function ClaimedAmong(runs: map<RunId, Run>, ids: seq<RunId>): nat {
    if ids == [] then 0
    else var id := ids[|ids| - 1];
         ClaimedAmong(runs, ids[..|ids| - 1]) + if id in runs && runs[id].status.Claimed? then 1 else 0
  }

  class Store {
    const cfg: Config
    var runs: map<RunId, Run>
    var circuits: map<TenantId, Circuit>
    var hosts: map<HostId, Circuit>
    var occurrences: seq<Occurrence>
    var generations: seq<Generation>
    var heads: map<GenerationKey, Head>
    var lastClaimed: map<TenantId, int>

    constructor (cfg: Config)
      ensures this.cfg == cfg && Tables() == EMPTY
    {
      this.cfg := cfg;
      runs, circuits, hosts, occurrences, generations, heads, lastClaimed := map[], map[], map[], [], [], map[], map[];
    }

    function Tables(): Db
      reads this
    {
      Db(runs, circuits, hosts, occurrences, generations, heads, lastClaimed)
    }

    // ---- Shared parts of transactions ----

    /** updateDashboardGenerationsForRun */
    method UpdateGenerations(run: RunId)
      modifies this
      ensures Tables() == Settle(old(Tables()), run)
    {
      var before := generations;
      generations := Recount(before, runs, run);
      for i := 0 to |generations|
        invariant generations == Recount(before, runs, run)
        invariant heads == Publish(old(heads), before, generations, i)
        invariant runs == old(runs) && circuits == old(circuits) && hosts == old(hosts)
        invariant occurrences == old(occurrences) && lastClaimed == old(lastClaimed)
      {
        if before[i].status.Building? && generations[i].status.Published? {
          var key := generations[i].key;
          heads := heads[key := Head(i, if key in heads then heads[key].version + 1 else 1)];
        }
      }
    }

    /** failScheduledOccurrenceTx */
    method FailOccurrence(failed: RunId) returns (cancelled: nat)
      modifies this
      ensures Tables() == CloseOccurrence(old(Tables()), failed)
    {
      var open := OpenOccurrence(occurrences, failed, |occurrences|);
      if open.None? {
        return 0;
      }
      var o := occurrences[open.value];
      occurrences := occurrences[open.value := o.(status := Closed, lease := None)];
      var siblings := LinkedRuns(o.links) - {failed};
      cancelled := |set id | id in runs && id in siblings && runs[id].status.Queued?|;
      runs := CancelQueued(runs, siblings);
    }

    method FinishFailure(id: RunId)
      requires id in runs
      modifies this
      ensures Tables() == AfterFailure(old(Tables()), id)
    {
      if runs[id].info.source.Schedule? {
        var _ := FailOccurrence(id);
      }
      UpdateGenerations(id);
    }

    /** recordHostPreRequestFailureTx for a tenant with a connection */
    method RecordHostFailure(tenant: TenantId, now: int)
      requires tenant in cfg.hostOf
      modifies this
      ensures Tables() == CountHostFailure(cfg, old(Tables()), tenant, now)
    {
      var h := cfg.hostOf[tenant];
      hosts := hosts[h := HostFailure(CircuitOf(hosts, h), now)];
    }

    // ---- Claim and recovery ----

    /** The select of the claim: the first eligible run. */
    method FirstEligible(due: seq<Due>, now: int) returns (first: Option<RunId>)
      ensures first.Some? ==> Eligible(cfg, Tables(), first.value, due, now)
      ensures forall id | Eligible(cfg, Tables(), id, due, now) ::
                first.Some? && (id == first.value || CandidateBefore(Tables(), now, first.value, id))
    {
      ClaimOrderTotal(Tables(), now, runs.Keys);
      first := None;
      var left := runs.Keys;
      while left != {}
        invariant left <= runs.Keys
        invariant first.Some? ==> first.value in runs.Keys - left && Eligible(cfg, Tables(), first.value, due, now)
        invariant forall id | id in runs.Keys - left && Eligible(cfg, Tables(), id, due, now) ::
                    first.Some? && (id == first.value || CandidateBefore(Tables(), now, first.value, id))
        decreases left
      {
        var id :| id in left;
        left := left - {id};
        if Eligible(cfg, Tables(), id, due, now)
          && (first.None? || CandidateBefore(Tables(), now, id, first.value)) {
          first := Some(id);
        }
      }
    }

    /** Takes the first of the runs that are ready, and takes none only when none is. */
    method Claim(worker: WorkerId, lease: int, due: seq<Due>, now: int) returns (claimed: Option<RunId>)
      modifies this
      ensures claimed.Some? <==> exists id :: Ready(cfg, old(Tables()), id, due, now)
      ensures claimed.Some? ==>
                && Ready(cfg, old(Tables()), claimed.value, due, now)
                && (forall id | Ready(cfg, old(Tables()), id, due, now) && id != claimed.value ::
                    GivesWay(old(Tables()), now, claimed.value, id))
                && runs == old(runs)[claimed.value := old(runs)[claimed.value].(status := Claimed,
                     claimedBy := Some(worker), lease := Some(now + lease),
                     attempt := old(runs)[claimed.value].attempt + 1)]
                && lastClaimed == old(lastClaimed)[old(runs)[claimed.value].info.tenant := now]
      ensures Tables() == if claimed.None? then old(Tables())
                else ReportSteps.Claim(cfg, old(Tables()), claimed.value, worker, lease, due, now)
    {
      claimed := FirstEligible(due, now);
      ChosenIsReady(cfg, Tables(), claimed, due, now);
      if claimed.Some? {
        var id := claimed.value;
        lastClaimed := lastClaimed[runs[id].info.tenant := now];
        runs := runs[id := ClaimedRun(runs[id], worker, now + lease)];
      }
    }

    /** The select of the recovery loop. */
    method SelectExpired(now: int) returns (batch: seq<RunId>)
      ensures IsRecoveryBatch(runs, now, batch) && EarliestLate(runs, now, batch)
    {
      var all: seq<RunId> := [];
      var left := runs.Keys;
      while left != {}
        invariant left <= runs.Keys
        invariant Distinct(all) && Elements(all) == set id | id in runs.Keys - left && LeaseExpired(runs, id, now)
        decreases left
      {
        var id :| id in left;
        left := left - {id};
        if LeaseExpired(runs, id, now) {
          ghost var before := all;
          assert id !in Elements(all);
          all := all + [id];
          assert Elements(all) == Elements(before) + {id};
        }
      }
      var table := runs;
      var sorted := Sort(all, (a, b) => LeaseBefore(table, a, b));
      LeaseBeforeTotal(table, Elements(all));
      SortCorrect(all, (a, b) => LeaseBefore(table, a, b));
      batch := if |sorted| > 100 then sorted[..100] else sorted;
      FirstHundred(table, now, sorted, batch);
      BatchIsEarliest(table, now, batch);
    }

    /** One turn of the recovery loop, which checks the row again and counts what it did. */
    method RecoverRow(id: RunId, now: int) returns (requeued: nat, failed: nat)
      modifies this
      ensures Tables() == RecoverOne(old(Tables()), id, now)
      ensures requeued + failed == if LeaseExpired(old(runs), id, now) then 1 else 0
      ensures 0 < requeued <==> LeaseExpired(old(runs), id, now) && old(runs)[id].status.Claimed?
    {
      if !LeaseExpired(runs, id, now) {
        return 0, 0;
      }
      if runs[id].status.Claimed? {
        runs := runs[id := Requeued(runs[id], Min(runs[id].queuedAt, now))];
        return 1, 0;
      }
      var t := runs[id].info.tenant;
      circuits := circuits[t := Uncertain(CircuitOf(circuits, t), now, now + 10 * MINUTE)];
      runs := runs[id := FailedRun(runs[id])];
      FinishFailure(id);
      return 0, 1;
    }

    method RecoverExpiredLeases(now: int) returns (batch: seq<RunId>, requeued: nat, failedRunning: nat)
      modifies this
      ensures IsRecoveryBatch(old(runs), now, batch) && EarliestLate(old(runs), now, batch)
      ensures Tables() == RecoverAll(old(Tables()), batch, now)
      ensures requeued == ClaimedAmong(old(runs), batch) && requeued + failedRunning == |batch|
    {
      batch := SelectExpired(now);
      requeued, failedRunning := 0, 0;
      ghost var table := runs;
      assert forall j | 0 <= j < |batch| :: batch[j] in batch && LeaseExpired(table, batch[j], now);
      for i := 0 to |batch|
        invariant Tables() == RecoverAll(old(Tables()), batch[..i], now)
        invariant forall j | i <= j < |batch| ::
                  LeaseExpired(table, batch[j], now) && batch[j] in runs && runs[batch[j]] == table[batch[j]]
        invariant requeued == ClaimedAmong(table, batch[..i]) && requeued + failedRunning == i
      {
        assert batch[..i + 1][..i] == batch[..i];
        var id := batch[i];
        ghost var before := Tables();
        var waits, fails := RecoverRow(id, now);
        requeued, failedRunning := requeued + waits, failedRunning + fails;
        forall j | i < j < |batch|
          ensures batch[j] in runs && runs[batch[j]] == before.runs[batch[j]]
        {
          assert LeaseBefore(table, batch[i], batch[j]);
          RecoverSpares(before, id, now, batch[j]);
        }
      }
      assert batch[..|batch|] == batch;
    }

    // ---- Calls of the worker ----

    /** ok is false exactly when the lease is lost, and then nothing changes. */
    method ExtendLease(id: RunId, worker: WorkerId, lease: int, now: int) returns (ok: bool)
      modifies this
      ensures ok == Holds(old(runs), id, worker, now)
      ensures Tables() == ReportSteps.ExtendLease(old(Tables()), id, worker, lease, now)
      ensures ok ==> forall later :: Holds(runs, id, worker, later) <==> later <= now + lease
    {
      ok := Holds(runs, id, worker, now);
      if ok {
        runs := runs[id := runs[id].(lease := Some(now + lease))];
      }
    }

    method UpdateProgress(id: RunId, worker: WorkerId, phase: nat, now: int) returns (ok: bool)
      modifies this
      ensures ok == (Holds(old(runs), id, worker, now) && old(runs)[id].status.Running? && old(runs)[id].phase < phase)
      ensures Tables() == ReportSteps.UpdateProgress(old(Tables()), id, worker, phase, now)
    {
      ok := Holds(runs, id, worker, now) && runs[id].status.Running? && runs[id].phase < phase;
      if ok {
        runs := runs[id := runs[id].(phase := phase)];
      }
    }

    method MarkRunning(id: RunId, worker: WorkerId, lease: int, now: int) returns (ok: bool)
      modifies this
      ensures ok == (Holds(old(runs), id, worker, now) && old(runs)[id].status.Claimed?)
      ensures Tables() == ReportSteps.MarkRunning(old(Tables()), id, worker, lease, now)
      ensures ok ==> runs[id].status.Running? && forall later ::
              Holds(runs, id, worker, later) <==> later <= now + lease
    {
      ok := Holds(runs, id, worker, now) && runs[id].status.Claimed?;
      if ok {
        runs := runs[id := runs[id].(status := Running, lease := Some(now + lease))];
      }
    }

    method Retry(id: RunId, worker: WorkerId, availableAt: int, now: int) returns (ok: bool)
      modifies this
      ensures ok == Holds(old(runs), id, worker, now)
      ensures Tables() == ReportSteps.Retry(old(Tables()), id, worker, availableAt, now)
      ensures ok ==> runs[id].status.Queued? && forall other, later :: !Holds(runs, id, other, later)
    {
      ok := Holds(runs, id, worker, now);
      if ok {
        runs := runs[id := Requeued(runs[id], availableAt)];
      }
    }

    method RetryPreRequestFailure(id: RunId, worker: WorkerId, availableAt: int, now: int) returns (ok: bool)
      modifies this
      ensures ok == (Holds(old(runs), id, worker, now) && old(runs)[id].info.tenant in cfg.hostOf)
      ensures Tables() == ReportSteps.RetryPreRequestFailure(cfg, old(Tables()), id, worker, availableAt, now)
    {
      ok := Holds(runs, id, worker, now) && runs[id].info.tenant in cfg.hostOf;
      if ok {
        var tenant := runs[id].info.tenant;
        runs := runs[id := Requeued(runs[id], availableAt)];
        RecordHostFailure(tenant, now);
      }
    }

    method FailPreRequestFailure(id: RunId, worker: WorkerId, now: int) returns (ok: bool)
      modifies this
      ensures ok == (Holds(old(runs), id, worker, now) && old(runs)[id].info.tenant in cfg.hostOf)
      ensures Tables() == ReportSteps.FailPreRequestFailure(cfg, old(Tables()), id, worker, now)
    {
      ok := Holds(runs, id, worker, now) && runs[id].info.tenant in cfg.hostOf;
      if ok {
        var tenant := runs[id].info.tenant;
        runs := runs[id := FailedRun(runs[id])];
        RecordHostFailure(tenant, now);
        FinishFailure(id);
      }
    }

    method Fail(id: RunId, worker: WorkerId, connectionFailure: bool, now: int) returns (ok: bool)
      modifies this
      ensures ok == Holds(old(runs), id, worker, now)
      ensures Tables() == ReportSteps.Fail(old(Tables()), id, worker, connectionFailure, now)
    {
      ok := Holds(runs, id, worker, now);
      if ok {
        var t := runs[id].info.tenant;
        runs := runs[id := FailedRun(runs[id])];
        if connectionFailure {
          circuits := circuits[t := TenantFailure(CircuitOf(circuits, t), now)];
        }
        FinishFailure(id);
      }
    }

    method FailRemoteUnknown(id: RunId, worker: WorkerId, now: int, openUntil: int) returns (ok: bool)
      modifies this
      ensures ok == (now < openUntil && Holds(old(runs), id, worker, now))
      ensures Tables() == ReportSteps.FailRemoteUnknown(old(Tables()), id, worker, now, openUntil)
    {
      ok := now < openUntil && Holds(runs, id, worker, now);
      if ok {
        var t := runs[id].info.tenant;
        runs := runs[id := FailedRun(runs[id])];
        circuits := circuits[t := Uncertain(CircuitOf(circuits, t), now, openUntil)];
        FinishFailure(id);
      }
    }

    method Complete(id: RunId, worker: WorkerId, now: int) returns (ok: bool)
      modifies this
      ensures ok == (Holds(old(runs), id, worker, now) && old(runs)[id].status.Running?)
      ensures Tables() == ReportSteps.Complete(cfg, old(Tables()), id, worker, now)
    {
      ok := Holds(runs, id, worker, now) && runs[id].status.Running?;
      if ok {
        var t := runs[id].info.tenant;
        runs := runs[id := SucceededRun(runs[id], now)];
        circuits := circuits[t := Circuit(0, None, None, None)];
        if t in cfg.hostOf && cfg.hostOf[t] in hosts {
          hosts := hosts[cfg.hostOf[t] := Circuit(0, None, None, None)];
        }
        UpdateGenerations(id);
      }
    }

    // ---- Calls of the viewer and the scheduler ----

    method Cancel(id: RunId) returns (ok: bool)
      modifies this
      ensures ok == (id in old(runs) && (old(runs)[id].status.Queued? || old(runs)[id].status.Cancelled?))
      ensures Tables() == ReportSteps.Cancel(old(Tables()), id)
    {
      if id !in runs {
        return false;
      }
      if runs[id].status.Cancelled? {
        return true;
      }
      if !runs[id].status.Queued? {
        return false;
      }
      runs := runs[id := CancelledRun(runs[id])];
      return true;
    }

    /** order by created_at desc, id desc limit 1 */
    method LatestCreated(ids: set<RunId>) returns (latest: RunId)
      requires ids != {} && ids <= runs.Keys
      ensures latest in ids
      ensures forall o | o in ids && o != latest ::
                runs[o].info.createdAt < runs[latest].info.createdAt
                || (runs[o].info.createdAt == runs[latest].info.createdAt && o < latest)
    {
      latest :| latest in ids;
      var left := ids - {latest};
      while left != {}
        invariant left <= ids && latest in ids - left
        invariant forall o | o in ids - left && o != latest ::
                    runs[o].info.createdAt < runs[latest].info.createdAt
                    || (runs[o].info.createdAt == runs[latest].info.createdAt && o < latest)
        decreases left
      {
        var id :| id in left;
        left := left - {id};
        if runs[latest].info.createdAt < runs[id].info.createdAt
           || (runs[latest].info.createdAt == runs[id].info.createdAt && latest < id) {
          latest := id;
        }
      }
    }

    /**
     run is the new, replayed or joined run. An interactive request joins the latest recent run;
     at most one background run is open per execution key, so there any one will do.
     */
    method Enqueue(input: EnqueueInput, standing: Standing, newRun: RunId, now: int)
      returns (outcome: Outcome, run: Option<RunId>)
      requires newRun !in runs
      modifies this
      ensures outcome == Admission.Enqueue(old(Tables()), input, standing, now)
      ensures Tables() == EnqueueDb(old(Tables()), input, standing, newRun, now)
      ensures run.Some? <==> !outcome.Refused?
      ensures outcome.Created? ==> run == Some(newRun)
      ensures outcome.Replayed? ==> run.value in SameRequest(old(runs), input)
      ensures outcome.Joined? ==>
                run.value in if input.source.Background? then
                  SameExecution(old(runs), InfoOf(input, standing.expectedP90, now))
                             else RecentRuns(old(runs), InfoOf(input, standing.expectedP90, now), now)
      ensures outcome.Joined? && input.source.Dashboard? ==>
                forall o | o in RecentRuns(old(runs), InfoOf(input, standing.expectedP90, now), now) ::
                  runs[o].info.createdAt <= runs[run.value].info.createdAt
    {
      var info := InfoOf(input, standing.expectedP90, now);
      if |input.idempotencyKey| < 8 || |input.idempotencyKey| > 200 {
        return Refused(IdempotencyConflict), None;
      }
      if MalformedBackground(input) {
        return Refused(Forbidden), None;
      }
      var same := SameRequest(runs, input);
      if exists id | id in same :: runs[id].info.key != input.key || runs[id].info.period != input.period {
        return Refused(IdempotencyConflict), None;
      }
      if !standing.tenantActive {
        return Refused(NotFound), None;
      }
      if input.source.Dashboard? && (input.requestedBy.None? || !standing.permitted) {
        return Refused(Forbidden), None;
      }
      if same != {} {
        var id :| id in same;
        return Replayed, Some(id);
      }
      var reserveProbe := false;
      var circuit := CircuitOf(circuits, input.tenant);
      if input.source.Dashboard? && circuit.openUntil.Some? {
        if now < circuit.openUntil.value || circuit.halfOpen.Some? {
          return Refused(CircuitOpen), None;
        }
        reserveProbe := true;
      }
      if input.source.Background? {
        var active := SameExecution(runs, info);
        if active != {} {
          var id :| id in active;
          return Joined, Some(id);
        }
        if |OpenRuns(runs, input.tenant, Background)| >= 10 {
          return Refused(ConcurrencyLimit), None;
        }
      }
      if input.source.Dashboard? {
        var recent := RecentRuns(runs, info, now);
        if recent != {} {
          var id := LatestCreated(recent);
          return Joined, Some(id);
        }
        if |OpenRuns(runs, input.tenant, Dashboard)| >= 2 {
          return Refused(ConcurrencyLimit), None;
        }
      }
      if SummaryConflicts(runs, info) != {} {
        return Refused(InsertConflict), None;
      }
      if reserveProbe && !ProbeReserved(circuit, now) {
        return Refused(CircuitOpen), None;
      }
      runs := runs[newRun := QueuedRun(info, now + DAY, now)];
      return Created(info), Some(newRun);
    }

    /** The open summary run to share, first in queue order. */
    method FindCoalesced(table: map<RunId, Run>, info: RunInfo) returns (found: Option<RunId>)
      ensures found == CoalescedRun(table, info)
    {
      var open := SummaryConflicts(table, info);
      found := None;
      var left := open;
      while left != {}
        invariant left <= open
        invariant found.Some? ==> found.value in open - left
        invariant found.None? ==> left == open
        invariant forall o | o in open - left && o != found.GetOr(o) ::
                    table[found.value].queuedAt < table[o].queuedAt
                      || (table[found.value].queuedAt == table[o].queuedAt && found.value < o)
        decreases left
      {
        var id :| id in left;
        left := left - {id};
        if found.None? || table[id].queuedAt < table[found.value].queuedAt
           || (table[id].queuedAt == table[found.value].queuedAt && id < found.value) {
          found := Some(id);
        }
      }
      if found.Some? {
        assert FirstQueued(table, open, found.value);
      }
    }

    method CreateDashboardRefresh(tenant: TenantId, recipient: RecipientId, items: seq<RefreshItem>, dataVersion: nat,
                                  allowed: bool, now: int) returns (generation: Option<nat>)
      requires Fresh(Tables(), DrawnIds(items))
      modifies this
      ensures Tables() == CreateRefresh(old(Tables()), tenant, recipient, items, dataVersion, allowed, now)
      ensures generation.Some? <==>
                && allowed && 1 <= |items| && DistinctKeys(items)
                && (BuildingWith(old(generations), GenerationKeyOf(tenant, items, dataVersion)) != {}
                    || |BuildingIn(old(generations), tenant)| < 2)
      ensures generation.Some? ==> generation.value < |generations| && generations[generation.value].status.Building?
                                   && generations[generation.value].key == GenerationKeyOf(tenant, items, dataVersion)
    {
      if !allowed || |items| < 1 || !DistinctKeys(items) {
        return None;
      }
      var key := GenerationKeyOf(tenant, items, dataVersion);
      var joined := BuildingWith(generations, key);
      if joined != {} {
        var g :| g in joined;
        return Some(g);
      }
      if |BuildingIn(generations, tenant)| >= 2 {
        return None;
      }
      var linked: seq<Link> := [];
      for i := 0 to |items|
        invariant Linking(runs, linked) == LinkItems(old(runs), tenant, recipient, items[..i], dataVersion, now)
        invariant circuits == old(circuits) && hosts == old(hosts) && occurrences == old(occurrences)
        invariant generations == old(generations) && heads == old(heads) && lastClaimed == old(lastClaimed)
      {
        assert items[..i + 1][..i] == items[..i];
        var info := RefreshInfo(tenant, recipient, items[i], dataVersion, now);
        var open := FindCoalesced(runs, info);
        if open.Some? {
          linked := linked + [Link(info.key, open.value)];
        } else {
          runs := runs[items[i].run := QueuedRun(info, now + DAY, now)];
          linked := linked + [Link(info.key, items[i].run)];
        }
      }
      assert items[..|items|] == items;
      generation := Some(|generations|);
      generations := generations + [Generation(key, linked, |items|, Building, 0, 0)];
    }

    /** The insertions of MaterializeDue and MaterializeTest for a ready schedule. */
    method Materialize(tenant: TenantId, schedule: ScheduleId, scheduledFor: int, reports: seq<DueReport>,
                       nextAttempt: int, now: int)
      returns (ok: bool)
      modifies this
      ensures Tables() == ReportSteps.Materialize(old(Tables()), tenant, schedule, scheduledFor, reports, nextAttempt,
                                                  now)
      ensures ok == (Fresh(old(Tables()), RunIds(reports)) && !Taken(old(Tables()), schedule, scheduledFor)
                     && DistinctReports(reports))
      ensures ok ==> Taken(Tables(), schedule, scheduledFor)
      ensures ok ==> LinkedRuns(occurrences[|occurrences| - 1].links) == Elements(RunIds(reports))
    {
      if !Fresh(Tables(), RunIds(reports)) || Taken(Tables(), schedule, scheduledFor) || !DistinctReports(reports) {
        return false;
      }
      var inserted: map<RunId, Run> := map[];
      var links: seq<Link> := [];
      for i := 0 to |reports|
        invariant inserted == NewRuns(tenant, reports[..i], now) && links == Links(reports)[..i]
      {
        assert reports[..i + 1][..i] == reports[..i];
        var r := reports[i];
        inserted := inserted[r.run := ScheduledRun(tenant, r.key, r.period, r.idempotencyKey, r.expiresAt, now)];
        links := links + [Link(r.key, r.run)];
      }
      assert reports[..|reports|] == reports && links == Links(reports);
      assert forall i | 0 <= i < |reports| :: RunIds(reports)[i] == links[i].run;
      runs := runs + inserted;
      occurrences := occurrences
        + [Occurrence(tenant, schedule, scheduledFor, links, Collecting, None, None, nextAttempt)];
      return true;
    }

    /** The report queue's part of archiving a tenant. */
    method CancelTenantQueue(tenant: TenantId)
      modifies this
      ensures Tables() == ArchiveQueue(old(Tables()), tenant)
    {
      runs := CancelQueued(runs, set id | id in runs && runs[id].info.tenant == tenant);
    }
  }

  lemma FirstHundred(runs: map<RunId, Run>, now: int, sorted: seq<RunId>, batch: seq<RunId>)
    requires Ordered(sorted, (a, b) => LeaseBefore(runs, a, b))
    requires forall id :: id in Elements(sorted) <==> LeaseExpired(runs, id, now)
    requires batch == if |sorted| > 100 then sorted[..100] else sorted
    ensures IsRecoveryBatch(runs, now, batch)
  {
    forall id | id in batch
      ensures LeaseExpired(runs, id, now)
    {
      assert id in Elements(sorted);
    }
    forall id | LeaseExpired(runs, id, now) && id !in batch
      ensures |batch| == 100 && forall b | b in batch :: LeaseBefore(runs, b, id)
    {
      assert id in Elements(sorted);
      var j :| 0 <= j < |sorted| && sorted[j] == id;
      assert 100 <= j;
      forall b | b in batch
        ensures LeaseBefore(runs, b, id)
      {
        var i :| 0 <= i < |batch| && batch[i] == b;
        assert sorted[i] == b;
      }
    }
  }
}
