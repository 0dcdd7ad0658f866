/** What holds in every state and every run of the report protocol. */
module ReportTheorems {
  import opened Options
  import opened Units
  import opened Catalog
  import opened ReportTables
  import opened ReportSteps
  import opened Admission
  import opened ReportInvariants
  import opened ReportActions
  import opened Readiness

  lemma EmptyOk(cfg: Config)
    ensures Inv(cfg, EMPTY)
  {
    assert ActiveRuns(EMPTY.runs) == {} && ActiveInteractive(EMPTY.runs) == {};
    assert forall h :: ActiveOnHost(cfg, EMPTY.runs, h) == {};
    assert forall t :: BuildingIn(EMPTY.generations, t) == {};
  }

  lemma EvolvesRefl(db: Db)
    ensures Evolves(db, db)
  {
  }

  lemma {:induction false} ExecKeeps(cfg: Config, db: Db, steps: seq<Step>)
    requires Inv(cfg, db)
    ensures Inv(cfg, Exec(cfg, db, steps)) && Evolves(db, Exec(cfg, db, steps))
  {
    if steps == [] {
      EvolvesRefl(db);
    } else {
      var front := steps[..|steps| - 1];
      ExecKeeps(cfg, db, front);
      ApplyKeeps(cfg, Exec(cfg, db, front), steps[|steps| - 1]);
      EvolvesTrans(db, Exec(cfg, db, front), Exec(cfg, db, steps));
    }
  }

  ghost function Reached(cfg: Config, history: seq<Step>): Db {
    Exec(cfg, EMPTY, history)
  }

  lemma ReachedOk(cfg: Config, history: seq<Step>)
    ensures Inv(cfg, Reached(cfg, history))
  {
    EmptyOk(cfg);
    ExecKeeps(cfg, EMPTY, history);
  }

  // ---- Concurrency caps ----

  /** No history of calls exceeds the tenant, global, interactive or host cap. */
  lemma CapsHold(cfg: Config, history: seq<Step>, tenant: TenantId, host: HostId)
    requires 1 <= cfg.globalCap
    ensures var runs := Reached(cfg, history).runs;
            && |ActiveOfTenant(runs, tenant)| <= 1
            && |ActiveRuns(runs)| <= cfg.globalCap
            && |ActiveInteractive(runs)| <= Max(1, cfg.globalCap - 1)
            && |ActiveOnHost(cfg, runs, host)| <= cfg.hostCap
  {
    ReachedOk(cfg, history);
    var s := ActiveOfTenant(Reached(cfg, history).runs, tenant);
    if s != {} {
      var a :| a in s;
      assert s == {a};
    }
  }

  /**
   A run turns CLAIMED only by a claim that names it, and exactly when it is ready: queued and due,
   with neither circuit open, an idle tenant, room under every cap and no schedule close by.
   */
  lemma ClaimedMeans(cfg: Config, history: seq<Step>, s: Step, id: RunId)
    ensures var db, after := Reached(cfg, history), Apply(cfg, Reached(cfg, history), s);
            id in after.runs && after.runs[id].status == Claimed && !(id in db.runs && db.runs[id].status == Claimed) <==>
              s.action.DoClaim? && s.action.run == id && Ready(cfg, db, id, s.action.due, s.now)
    ensures var db, after := Reached(cfg, history), Apply(cfg, Reached(cfg, history), s);
            s.action.DoClaim? && s.action.run == id && Ready(cfg, db, id, s.action.due, s.now) ==>
              after.runs[id] == db.runs[id].(status := Claimed, claimedBy := Some(s.action.worker),
                                             lease := Some(s.now + s.action.length),
                                             attempt := db.runs[id].attempt + 1)
  {
    ReachedOk(cfg, history);
    if s.action.DoClaim? {
      ClaimTurns(cfg, Reached(cfg, history), s, id);
    } else {
      ApplyKeeps(cfg, Reached(cfg, history), s);
    }
  }

  lemma ClaimTurns(cfg: Config, db: Db, s: Step, id: RunId)
    requires s.action.DoClaim?
    ensures var after := Apply(cfg, db, s);
            if s.action.run == id && Ready(cfg, db, id, s.action.due, s.now) then
              && id in db.runs && db.runs[id].status == Queued && id in after.runs
              && after.runs[id] == db.runs[id].(status := Claimed, claimedBy := Some(s.action.worker),
                                               lease := Some(s.now + s.action.length),
                                               attempt := db.runs[id].attempt + 1)
            else id in after.runs ==> id in db.runs && after.runs[id] == db.runs[id]
  {
    EligibleIsReady(cfg, db, s.action.run, s.action.due, s.now);
    assert Apply(cfg, db, s) == Claim(cfg, db, s.action.run, s.action.worker, s.action.length, s.action.due, s.now);
  }

  // ---- Terminal states ----

  /** SUCCEEDED, FAILED and CANCELLED rows never change again. */
  lemma TerminalForever(cfg: Config, history: seq<Step>, more: seq<Step>, id: RunId)
    requires var db := Reached(cfg, history); id in db.runs && Terminal(db.runs[id])
    ensures var later := Exec(cfg, Reached(cfg, history), more);
            id in later.runs && later.runs[id] == Reached(cfg, history).runs[id]
  {
    ReachedOk(cfg, history);
    ExecKeeps(cfg, Reached(cfg, history), more);
  }

  // ---- Lease fencing ----

  /** At every instant exactly one of the holder and the recovery loop can move an active run. */
  lemma OneSideMayStep(cfg: Config, history: seq<Step>, id: RunId, now: int)
    requires var db := Reached(cfg, history); id in db.runs && Active(db.runs[id])
    ensures var db := Reached(cfg, history);
            var worker := db.runs[id].claimedBy;
            && worker.Some?
            && (Holds(db.runs, id, worker.value, now) <==> !LeaseExpired(db.runs, id, now))
            && (Holds(db.runs, id, worker.value, now) <==> forall at :: Retry(db, id, worker.value, at, now) != db)
            && (LeaseExpired(db.runs, id, now) <==> RecoverOne(db, id, now) != db)
  {
    ReachedOk(cfg, history);
    var db := Reached(cfg, history);
    assert RunOk(db.runs[id]);
    var worker := db.runs[id].claimedBy.value;
    if Holds(db.runs, id, worker, now) {
      forall at
        ensures Retry(db, id, worker, at, now) != db
      {
        assert Retry(db, id, worker, at, now).runs[id].status.Queued?;
      }
    } else {
      assert Retry(db, id, worker, 0, now) == db;
      RecoveryMoves(cfg, db, id, now);
    }
  }

  lemma RecoveryMoves(cfg: Config, db: Db, id: RunId, now: int)
    requires Inv(cfg, db) && LeaseExpired(db.runs, id, now)
    ensures !Active(RecoverOne(db, id, now).runs[id])
  {
    RecoverOneKeeps(cfg, db, id, now);
    if db.runs[id].status.Running? {
      var t := db.runs[id].info.tenant;
      var failed := WithFailed(WithCircuit(db, t, Uncertain(CircuitOf(db.circuits, t), now, now + 10 * MINUTE)), id);
      AfterFailureLeavesFailed(failed, id);
    }
  }

  lemma AfterFailureLeavesFailed(db: Db, id: RunId)
    requires id in db.runs && Terminal(db.runs[id])
    ensures AfterFailure(db, id).runs[id] == db.runs[id]
  {
  }

  /** The calls a worker makes about a run it claimed. */
  predicate WorkerCall(a: Action, id: RunId, worker: WorkerId) {
    && (a.DoExtend? || a.DoProgress? || a.DoMarkRunning? || a.DoRetry? || a.DoRetryPreRequest?
        || a.DoFailPreRequest? || a.DoFail? || a.DoFailUnknown? || a.DoComplete?)
    && a.run == id && a.worker == worker
  }

  /** A call under another worker's name, or after the lease has run out, changes nothing at all. */
  lemma ForeignCallsChangeNothing(cfg: Config, db: Db, s: Step, id: RunId, worker: WorkerId)
    requires WorkerCall(s.action, id, worker)
    requires id in db.runs ==>
             db.runs[id].claimedBy != Some(worker) || db.runs[id].lease.None? || db.runs[id].lease.value < s.now
    ensures Apply(cfg, db, s) == db
  {
  }

  predicate IsClaimed(db: Db, id: RunId) {
    id in db.runs && db.runs[id].status.Claimed?
  }

  /** The step is a claim of the run, or its MarkRunning, and it takes effect. */
  ghost predicate Claims(cfg: Config, db: Db, s: Step, id: RunId) {
    s.action.DoClaim? && s.action.run == id && Apply(cfg, db, s) != db
  }

  ghost predicate Marks(cfg: Config, db: Db, s: Step, id: RunId) {
    s.action.DoMarkRunning? && s.action.run == id && Apply(cfg, db, s) != db
  }

  ghost function ClaimCount(cfg: Config, db: Db, steps: seq<Step>, id: RunId): nat {
    if steps == [] then 0
    else var front := steps[..|steps| - 1];
         ClaimCount(cfg, db, front, id) + if Claims(cfg, Exec(cfg, db, front), steps[|steps| - 1], id) then 1 else 0
  }

  ghost function MarkCount(cfg: Config, db: Db, steps: seq<Step>, id: RunId): nat {
    if steps == [] then 0
    else var front := steps[..|steps| - 1];
         MarkCount(cfg, db, front, id) + if Marks(cfg, Exec(cfg, db, front), steps[|steps| - 1], id) then 1 else 0
  }

  function One(b: bool): nat {
    if b then 1 else 0
  }

  /** In every stretch of every history a claim pays for at most one MarkRunning. */
  lemma {:induction false} ClaimAllowsOneStart(cfg: Config, db: Db, steps: seq<Step>, id: RunId)
    requires Inv(cfg, db)
    ensures MarkCount(cfg, db, steps, id) + One(IsClaimed(Exec(cfg, db, steps), id))
            <= ClaimCount(cfg, db, steps, id) + One(IsClaimed(db, id))
  {
    if steps != [] {
      var front, s := steps[..|steps| - 1], steps[|steps| - 1];
      ClaimAllowsOneStart(cfg, db, front, id);
      ExecKeeps(cfg, db, front);
      StepPays(cfg, Exec(cfg, db, front), s, id);
    }
  }

  lemma StepPays(cfg: Config, db: Db, s: Step, id: RunId)
    requires Inv(cfg, db)
    ensures One(Marks(cfg, db, s, id)) + One(IsClaimed(Apply(cfg, db, s), id)) <= One(Claims(cfg, db, s, id))
            + One(IsClaimed(db, id))
  {
    if s.action.DoClaim? {
      ClaimPays(cfg, db, s, id);
    } else {
      ApplyKeeps(cfg, db, s);
      if Marks(cfg, db, s, id) {
        MarkSpends(cfg, db, s, id);
      }
    }
  }

  lemma ClaimPays(cfg: Config, db: Db, s: Step, id: RunId)
    requires s.action.DoClaim?
    ensures IsClaimed(Apply(cfg, db, s), id) ==> Claims(cfg, db, s, id) || IsClaimed(db, id)
  {
  }

  lemma MarkSpends(cfg: Config, db: Db, s: Step, id: RunId)
    requires Marks(cfg, db, s, id)
    ensures IsClaimed(db, id) && !IsClaimed(Apply(cfg, db, s), id)
  {
  }

  // ---- Generations ----

  /** A published generation stays as it is, and its runs stay SUCCEEDED. */
  lemma PublicationIsFinal(cfg: Config, history: seq<Step>, more: seq<Step>, g: nat)
    requires var db := Reached(cfg, history); g < |db.generations| && db.generations[g].status.Published?
    ensures var db, later := Reached(cfg, history), Exec(cfg, Reached(cfg, history), more);
            && g < |later.generations| && later.generations[g] == db.generations[g]
            && |db.generations[g].links| == db.generations[g].total == db.generations[g].completed
            && AllSucceeded(db.generations[g].links, later.runs)
  {
    ReachedOk(cfg, history);
    var db := Reached(cfg, history);
    ExecKeeps(cfg, db, more);
    var later := Exec(cfg, db, more);
    assert GenerationStep(db.generations[g], later.generations[g]);
    assert GenerationOk(later.generations[g], later.runs);
  }

  /** BUILDING is left at most once: a generation that is published or broken never changes. */
  lemma BuildingLeftOnce(cfg: Config, history: seq<Step>, more: seq<Step>, g: nat)
    requires var db := Reached(cfg, history); g < |db.generations| && !db.generations[g].status.Building?
    ensures var db, later := Reached(cfg, history), Exec(cfg, Reached(cfg, history), more);
            g < |later.generations| && later.generations[g] == db.generations[g]
  {
    ReachedOk(cfg, history);
    ExecKeeps(cfg, Reached(cfg, history), more);
    assert GenerationStep(Reached(cfg, history).generations[g], Exec(cfg, Reached(cfg, history), more).generations[g]);
  }

  /** A head shows a published generation of its own key and counts the publications of that key. */
  lemma HeadsShowPublications(cfg: Config, history: seq<Step>, key: GenerationKey)
    ensures var db := Reached(cfg, history);
            && (key in db.heads <==> 0 < PublishedBelow(db.generations, key, |db.generations|))
            && (key in db.heads ==>
                  var head := db.heads[key];
                  && head.version == PublishedBelow(db.generations, key, |db.generations|)
                  && head.generation < |db.generations|
                  && db.generations[head.generation].status.Published? && db.generations[head.generation].key == key
                  && AllSucceeded(db.generations[head.generation].links, db.runs))
  {
    ReachedOk(cfg, history);
    var db := Reached(cfg, history);
    assert Version(db.heads, key) == PublishedBelow(db.generations, key, |db.generations|);
    if key in db.heads {
      var g := db.heads[key].generation;
      assert GenerationOk(db.generations[g], db.runs);
      PublishedCounted(db.generations, key, |db.generations|, g);
    }
  }

  lemma {:induction false} PublishedCounted(generations: seq<Generation>, key: GenerationKey, n: nat, g: nat)
    requires g < n <= |generations| && generations[g].status.Published? && generations[g].key == key
    ensures 0 < PublishedBelow(generations, key, n)
  {
    if g < n - 1 {
      PublishedCounted(generations, key, n - 1, g);
    }
  }

  /** At most one generation per key and two per tenant are being built. */
  lemma BuildingIsBounded(cfg: Config, history: seq<Step>, key: GenerationKey, tenant: TenantId)
    ensures |BuildingWith(Reached(cfg, history).generations, key)| <= 1
    ensures |BuildingIn(Reached(cfg, history).generations, tenant)| <= 2
  {
    ReachedOk(cfg, history);
    var s := BuildingWith(Reached(cfg, history).generations, key);
    if s != {} {
      var a :| a in s;
      assert s == {a};
    }
  }
}
