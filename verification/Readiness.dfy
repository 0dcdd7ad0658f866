/** When a waiting run may be started and which one goes first, read off the rows of the tables. */
module Readiness {
  import opened Options
  import opened Units
  import opened Catalog
  import opened ReportTables
  import opened ReportSteps

  /** The report runs that are claimed or running, of those for which the row passes the test. */
  ghost function Occupying(runs: map<RunId, Run>, test: RunInfo -> bool): set<RunId> {
    set a | a in runs && runs[a].status in {Claimed, Running} && test(runs[a].info)
  }

  /** A schedule due within a moment's guard: five minutes, or up to fifteen for a slow report. */
  predicate DueSoon(at: int, now: int, expectedP90: nat) {
    now <= at && (at <= now + 300 * SECOND || (at <= now + 900 * SECOND && at <= now + (expectedP90 / 1000 + 60) * SECOND))
  }

  ghost predicate SameHost(cfg: Config, a: TenantId, b: TenantId) {
    a in cfg.hostOf && b in cfg.hostOf && cfg.hostOf[a] == cfg.hostOf[b]
  }

  ghost predicate Ready(cfg: Config, db: Db, id: RunId, due: seq<Due>, now: int) {
    && id in db.runs
    && var r := db.runs[id];
    var t := r.info.tenant;
    && r.status == Queued && r.queuedAt <= now
    // Neither the tenant nor its host has an open circuit.
    && (t in db.circuits && db.circuits[t].openUntil.Some? ==> db.circuits[t].openUntil.value <= now)
    && (t in cfg.hostOf && cfg.hostOf[t] in db.hosts && db.hosts[cfg.hostOf[t]].openUntil.Some? ==>
          db.hosts[cfg.hostOf[t]].openUntil.value <= now)
    // The tenant is idle, and there is room in all, among unscheduled runs, and on the host.
    && Occupying(db.runs, (x: RunInfo) => x.tenant == t) == {}
    && |Occupying(db.runs, _ => true)| < cfg.globalCap
    && (r.info.source != Schedule ==>
          |Occupying(db.runs, (x: RunInfo) => x.source != Schedule)| < Max(1, cfg.globalCap - 1))
    && |set a | a in db.runs && db.runs[a].status in {Claimed, Running} && SameHost(cfg, db.runs[a].info.tenant, t)|
       < cfg.hostCap
    // A heavy report keeps clear of schedules on its host, unless it is scheduled itself.
    && (r.info.source != Schedule && r.info.key in {StockBalance, ArCustomerMovement} ==>
          forall d | d in due && SameHost(cfg, d.tenant, t) :: !DueSoon(d.at, now, r.info.expectedP90))
  }

  /** Priorities below 99 gain a point for every ten minutes of waiting, up to 99. */
  function Points(r: Run, now: int): int {
    var waited := (now - r.queuedAt) / (600 * SECOND);
    if r.info.priority >= 99 || waited < 0 then r.info.priority
    else if r.info.priority + waited > 99 then 99
    else r.info.priority + waited
  }

  /** The other run waits longer: for its points, for the turn of its tenant, or for its place in the queue. */
  predicate GivesWay(db: Db, now: int, first: RunId, other: RunId)
    requires first in db.runs && other in db.runs
  {
    var f, o := db.runs[first], db.runs[other];
    var never, turn := f.info.tenant !in db.lastClaimed, o.info.tenant in db.lastClaimed;
    && Points(o, now) <= Points(f, now)
    && (Points(o, now) == Points(f, now) ==>
          && (never || (turn && db.lastClaimed[f.info.tenant] <= db.lastClaimed[o.info.tenant]))
          && (never == !turn && (never || db.lastClaimed[f.info.tenant] == db.lastClaimed[o.info.tenant]) ==>
                f.queuedAt < o.queuedAt || (f.queuedAt == o.queuedAt && first < other)))
  }

  lemma EligibleIsReady(cfg: Config, db: Db, id: RunId, due: seq<Due>, now: int)
    ensures Eligible(cfg, db, id, due, now) <==> Ready(cfg, db, id, due, now)
  {
    assert ActiveRuns(db.runs) == Occupying(db.runs, _ => true);
    assert ActiveInteractive(db.runs) == Occupying(db.runs, (x: RunInfo) => x.source != Schedule);
    if id in db.runs && db.runs[id].status == Queued {
      var r := db.runs[id];
      var t := r.info.tenant;
      assert ActiveOfTenant(db.runs, t) == Occupying(db.runs, (x: RunInfo) => x.tenant == t);
      assert id !in ActiveOfTenant(db.runs, t);
      var there := set a | a in db.runs && db.runs[a].status in {Claimed, Running}
                           && SameHost(cfg, db.runs[a].info.tenant, t);
      assert there == if t in cfg.hostOf then ActiveOnHost(cfg, db.runs, cfg.hostOf[t]) else {};
      assert HeavyBlocked(cfg, r.info, due, now) <==>
             r.info.source != Schedule && r.info.key in {StockBalance, ArCustomerMovement}
             && exists d | d in due :: SameHost(cfg, d.tenant, t) && DueSoon(d.at, now, r.info.expectedP90);
    }
  }

  lemma EarlierGoesFirst(db: Db, now: int, first: RunId, other: RunId)
    requires first in db.runs && other in db.runs && ClaimedBefore(db, now, first, other)
    requires db.runs[first].queuedAt <= now && db.runs[other].queuedAt <= now
    ensures GivesWay(db, now, first, other)
  {
  }
}
