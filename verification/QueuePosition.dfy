/** The queue position shown for a waiting run, and its agreement with the order of claims. */
module QueuePosition {
  import opened Options
  import opened Units
  import opened ReportTables
  import opened ReportSteps
  import opened Ranking

  /** The waiting runs of a tenant. */
  function WaitingRuns(runs: map<RunId, Run>, tenant: TenantId): set<RunId> {
    set id | id in runs && runs[id].status.Queued? && runs[id].info.tenant == tenant
  }

  function Aged(r: Run, now: int): int {
    AgedPriority(r.info.priority, r.queuedAt, now)
  }

  /** The order the position query counts by; it knows nothing of other tenants. */
  predicate Better(runs: map<RunId, Run>, now: int, a: RunId, b: RunId) {
    && a in runs && b in runs
    && (Aged(runs[a], now) > Aged(runs[b], now)
        || (Aged(runs[a], now) == Aged(runs[b], now)
            && (runs[a].queuedAt < runs[b].queuedAt || (runs[a].queuedAt == runs[b].queuedAt && a < b))))
  }

  /** The position Get reports for a QUEUED run: one plus the better runs of its tenant. */
  function Position(runs: map<RunId, Run>, id: RunId, now: int): nat
    requires id in runs
  {
    1 + |set c | c in runs && runs[c].info.tenant == runs[id].info.tenant && runs[c].status.Queued?
                 && c != id && Better(runs, now, c, id)|
  }

  lemma BetterTotal(runs: map<RunId, Run>, now: int, s: set<RunId>)
    requires s <= runs.Keys
    ensures TotalOn(s, (a, b) => Better(runs, now, a, b))
  {
    forall x, y, z | x in s && y in s && z in s && Better(runs, now, x, y) && Better(runs, now, y, z)
      ensures Better(runs, now, x, z)
    {
      BetterTransitive(runs, now, x, y, z);
    }
  }

  lemma BetterTransitive(runs: map<RunId, Run>, now: int, x: RunId, y: RunId, z: RunId)
    requires Better(runs, now, x, y) && Better(runs, now, y, z)
    ensures Better(runs, now, x, z)
  {
  }

  lemma PositionIsRank(runs: map<RunId, Run>, id: RunId, now: int)
    requires id in runs
    ensures Position(runs, id, now) == 1
            + Rank(WaitingRuns(runs, runs[id].info.tenant), (a, b) => Better(runs, now, a, b), id)
  {
    var before := (a, b) => Better(runs, now, a, b);
    assert !Better(runs, now, id, id);
    assert Ahead(WaitingRuns(runs, runs[id].info.tenant), before, id) ==
           set c | c in runs && runs[c].info.tenant == runs[id].info.tenant && runs[c].status.Queued?
                   && c != id && Better(runs, now, c, id);
  }

  ghost predicate PositionTaken(runs: map<RunId, Run>, tenant: TenantId, now: int, position: nat) {
    exists id :: id in WaitingRuns(runs, tenant) && Position(runs, id, now) == position
  }

  /** Positions of a tenant's n waiting runs are exactly 1 to n, each taken once. */
  lemma PositionsAreOneToN(runs: map<RunId, Run>, tenant: TenantId, now: int)
    ensures var waiting := WaitingRuns(runs, tenant);
            && (forall id | id in waiting :: 1 <= Position(runs, id, now) <= |waiting|)
            && (forall a, b | a in waiting && b in waiting && Position(runs, a, now) == Position(runs, b, now) ::
                a == b)
            && (forall p: nat | 1 <= p <= |waiting| :: PositionTaken(runs, tenant, now, p))
  {
    var waiting, before := WaitingRuns(runs, tenant), (a, b) => Better(runs, now, a, b);
    BetterTotal(runs, now, waiting);
    forall id | id in waiting
      ensures 1 <= Position(runs, id, now) <= |waiting|
    {
      PositionIsRank(runs, id, now);
      RankBound(waiting, before, id);
    }
    forall a, b | a in waiting && b in waiting && Position(runs, a, now) == Position(runs, b, now)
      ensures a == b
    {
      PositionOrders(runs, a, b, now);
      PositionOrders(runs, b, a, now);
    }
    forall p: nat | 1 <= p <= |waiting|
      ensures PositionTaken(runs, tenant, now, p)
    {
      var id := RankOnto(waiting, before, p - 1);
      PositionIsRank(runs, id, now);
    }
  }

  lemma PositionOrders(runs: map<RunId, Run>, a: RunId, b: RunId, now: int)
    requires a in runs && b in runs && runs[a].status.Queued? && runs[b].status.Queued?
             && runs[a].info.tenant == runs[b].info.tenant
    ensures Position(runs, a, now) < Position(runs, b, now) <==> Better(runs, now, a, b)
  {
    var waiting, before := WaitingRuns(runs, runs[a].info.tenant), (x, y) => Better(runs, now, x, y);
    BetterTotal(runs, now, waiting);
    PositionIsRank(runs, a, now);
    PositionIsRank(runs, b, now);
    if Better(runs, now, a, b) {
      RankStrict(waiting, before, a, b);
    } else if a != b {
      RankStrict(waiting, before, b, a);
    }
  }

  /** Of two waiting runs of a tenant, the one shown first is the one Claim prefers. */
  lemma PositionsFollowClaims(db: Db, a: RunId, b: RunId, now: int)
    requires a in db.runs && b in db.runs && db.runs[a].info.tenant == db.runs[b].info.tenant
    requires db.runs[a].status.Queued? && db.runs[b].status.Queued?
    ensures Position(db.runs, a, now) < Position(db.runs, b, now) <==> ClaimedBefore(db, now, a, b)
  {
    PositionOrders(db.runs, a, b, now);
  }

  // ---- Ageing ----

  /** Waiting never costs priority. */
  lemma AgeingIsMonotone(priority: int, queuedAt: int, now: int, later: int)
    requires now <= later
    ensures AgedPriority(priority, queuedAt, now) <= AgedPriority(priority, queuedAt, later)
  {
    assert (now - queuedAt) / (10 * MINUTE) <= (later - queuedAt) / (10 * MINUTE);
  }

  /** No run of priority below 100 is ever lifted to the 100 of scheduled runs; higher ones do not age. */
  lemma AgeingStopsBelowSchedules(priority: int, queuedAt: int, now: int)
    ensures priority < 100 <==> AgedPriority(priority, queuedAt, now) < 100
    ensures 99 <= priority ==> AgedPriority(priority, queuedAt, now) == priority
  {
  }

  /** A run reaches 99 exactly when it has waited ten minutes for each missing point. */
  lemma AgeingReachesTop(priority: int, queuedAt: int, now: int)
    requires priority < 99
    ensures AgedPriority(priority, queuedAt, now) == 99 <==> (99 - priority) * (10 * MINUTE) <= now - queuedAt
  {
    var q := (now - queuedAt) / (10 * MINUTE);
    if 99 - priority <= q {
      assert (99 - priority) * (10 * MINUTE) <= q * (10 * MINUTE);
    } else {
      assert (q + 1) * (10 * MINUTE) <= (99 - priority) * (10 * MINUTE);
    }
  }
}
