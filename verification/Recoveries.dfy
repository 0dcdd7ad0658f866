/** What one pass of the recovery loop leaves in the tables, row by row. */
module Recoveries {
  import opened Options
  import opened Units
  import opened Catalog
  import opened ReportTables
  import opened ReportSteps
  import opened ReportInvariants
  import opened ReportActions
  import opened ReportTheorems

  predicate Late(runs: map<RunId, Run>, x: RunId, now: int) {
    x in runs && runs[x].status in {Claimed, Running} && runs[x].lease.Some? && runs[x].lease.value < now
  }

  predicate LateBefore(runs: map<RunId, Run>, a: RunId, b: RunId, now: int)
    requires Late(runs, a, now) && Late(runs, b, now)
  {
    runs[a].lease.value < runs[b].lease.value || (runs[a].lease.value == runs[b].lease.value && a < b)
  }

  /** The runs whose leases ran out first, in that order, and no more than a hundred. */
  ghost predicate EarliestLate(runs: map<RunId, Run>, now: int, batch: seq<RunId>) {
    && |batch| <= 100
    && (forall i | 0 <= i < |batch| :: Late(runs, batch[i], now))
    && (forall i, j | 0 <= i < j < |batch| :: LateBefore(runs, batch[i], batch[j], now))
    && (forall x | Late(runs, x, now) && x !in batch ::
          |batch| == 100 && forall i | 0 <= i < |batch| :: LateBefore(runs, batch[i], x, now))
  }

  /** A run of the batch in this status, whose lease had run out. */
  predicate Overdue(db: Db, ids: seq<RunId>, x: RunId, s: Status, now: int) {
    x in ids && x in db.runs && db.runs[x].status == s && db.runs[x].lease.Some? && db.runs[x].lease.value < now
  }

  /** A collecting occurrence one of whose runs had started and is overdue. */
  ghost predicate Struck(db: Db, ids: seq<RunId>, i: nat, now: int)
    requires i < |db.occurrences|
  {
    && db.occurrences[i].status == Collecting
    && exists l | l in db.occurrences[i].links :: Overdue(db, ids, l.run, Running, now)
  }

  ghost predicate HasStruckLink(db: Db, ids: seq<RunId>, x: RunId, now: int) {
    exists i, l | 0 <= i < |db.occurrences| && l in db.occurrences[i].links :: l.run == x && Struck(db, ids, i, now)
  }

  /** The row a run has afterwards. */
  ghost predicate RunLeft(db: Db, ids: seq<RunId>, x: RunId, now: int, r: Run)
    requires x in db.runs
  {
    var was := db.runs[x];
    if Overdue(db, ids, x, Claimed, now) then
      r == was.(status := Queued, queuedAt := if now < was.queuedAt then now else was.queuedAt, claimedBy := None,
                lease := None, phase := 0)
    else if Overdue(db, ids, x, Running, now) then r == was.(status := Failed, lease := None)
    else if was.status == Queued && HasStruckLink(db, ids, x, now) then r == was.(status := Cancelled, lease := None)
    else r == was
  }

  /** The circuit a tenant has afterwards. */
  ghost predicate CircuitLeft(db: Db, ids: seq<RunId>, t: TenantId, now: int, circuits: map<TenantId, Circuit>) {
    if exists x | Overdue(db, ids, x, Running, now) :: db.runs[x].info.tenant == t then
      && t in circuits && 1 <= circuits[t].failures && circuits[t].windowStart.Some?
      && circuits[t].openUntil.Some? && now + 600 * SECOND <= circuits[t].openUntil.value
      && (t in db.circuits && db.circuits[t].openUntil.Some? ==>
            db.circuits[t].openUntil.value <= circuits[t].openUntil.value)
    else (t in circuits <==> t in db.circuits) && (t in db.circuits ==> circuits[t] == db.circuits[t])
  }

  ghost predicate RunsLeft(db: Db, ids: seq<RunId>, now: int, runs: map<RunId, Run>) {
    runs.Keys == db.runs.Keys && forall x | x in db.runs :: RunLeft(db, ids, x, now, runs[x])
  }

  ghost predicate OccurrencesLeft(db: Db, ids: seq<RunId>, now: int, after: seq<Occurrence>) {
    && |after| == |db.occurrences|
    && forall i | 0 <= i < |after| ::
         after[i] == if Struck(db, ids, i, now) then db.occurrences[i].(status := Closed, lease := None)
                     else db.occurrences[i]
  }

  ghost predicate CircuitsLeft(db: Db, ids: seq<RunId>, now: int, circuits: map<TenantId, Circuit>) {
    forall t :: CircuitLeft(db, ids, t, now, circuits)
  }

  ghost predicate Left(db: Db, ids: seq<RunId>, now: int, after: Db) {
    && RunsLeft(db, ids, now, after.runs)
    && OccurrencesLeft(db, ids, now, after.occurrences)
    && CircuitsLeft(db, ids, now, after.circuits)
    && after.hosts == db.hosts && after.lastClaimed == db.lastClaimed
  }

  // ---- One more run ----

  /** A run that is not overdue by now, or already in the batch, adds nothing. */
  lemma NothingMore(db: Db, ids: seq<RunId>, id: RunId, now: int, after: Db)
    requires Left(db, ids, now, after)
    requires forall x, s: Status | s == Claimed || s == Running ::
               Overdue(db, ids + [id], x, s, now) <==> Overdue(db, ids, x, s, now)
    ensures Left(db, ids + [id], now, after)
  {
    forall i | 0 <= i < |db.occurrences|
      ensures Struck(db, ids + [id], i, now) <==> Struck(db, ids, i, now)
    {
    }
    forall x | x in db.runs
      ensures RunLeft(db, ids + [id], x, now, after.runs[x])
    {
      assert RunLeft(db, ids, x, now, after.runs[x]);
    }
    forall t
      ensures CircuitLeft(db, ids + [id], t, now, after.circuits)
    {
      assert CircuitLeft(db, ids, t, now, after.circuits);
    }
  }

  /** What is overdue in the middle of a pass was so at its start, and has not been reached before. */
  lemma StillOverdue(db: Db, ids: seq<RunId>, id: RunId, now: int, mid: Db)
    requires Left(db, ids, now, mid)
    ensures LeaseExpired(mid.runs, id, now) ==>
              id in db.runs && mid.runs[id] == db.runs[id] && id !in ids && LeaseExpired(db.runs, id, now)
    ensures !LeaseExpired(mid.runs, id, now) ==>
              id !in db.runs || !LeaseExpired(db.runs, id, now) || id in ids
  {
    if id in db.runs {
      assert RunLeft(db, ids, id, now, mid.runs[id]);
    }
  }

  lemma OneClaimed(db: Db, ids: seq<RunId>, id: RunId, now: int, mid: Db)
    requires Left(db, ids, now, mid) && LeaseExpired(mid.runs, id, now) && mid.runs[id].status.Claimed?
    ensures Left(db, ids + [id], now, RecoverOne(mid, id, now))
  {
    var after := RecoverOne(mid, id, now);
    StillOverdue(db, ids, id, now, mid);
    assert forall x :: Overdue(db, ids + [id], x, Running, now) <==> Overdue(db, ids, x, Running, now);
    forall i | 0 <= i < |db.occurrences|
      ensures Struck(db, ids + [id], i, now) <==> Struck(db, ids, i, now)
    {
    }
    forall x | x in db.runs
      ensures RunLeft(db, ids + [id], x, now, after.runs[x])
    {
      assert RunLeft(db, ids, x, now, mid.runs[x]);
    }
    forall t
      ensures CircuitLeft(db, ids + [id], t, now, after.circuits)
    {
      assert CircuitLeft(db, ids, t, now, mid.circuits);
    }
  }

  /** The occurrences that a started run of the batch strikes are those it is linked from. */
  lemma StrikesMore(cfg: Config, db: Db, ids: seq<RunId>, id: RunId, now: int, i: nat)
    requires Inv(cfg, db) && id in db.runs && db.runs[id].status.Running? && LeaseExpired(db.runs, id, now)
    requires i < |db.occurrences|
    ensures Struck(db, ids + [id], i, now) <==>
              Struck(db, ids, i, now)
              || (db.occurrences[i].status == Collecting && id in LinkedRuns(db.occurrences[i].links))
    ensures id in LinkedRuns(db.occurrences[i].links) ==>
              db.runs[id].info.source.Schedule? && (id !in ids ==> !Struck(db, ids, i, now))
  {
    var o := db.occurrences[i];
    assert o in db.occurrences && LinksOk(o.links, db.runs, o.tenant) && Scheduled(o.links, db.runs);
    forall l | l in o.links
      ensures Overdue(db, ids + [id], l.run, Running, now) <==> Overdue(db, ids, l.run, Running, now) || l.run == id
    {
    }
    if id in LinkedRuns(o.links) {
      var l :| l in o.links && l.run == id;
      assert db.runs[id].info.tenant == o.tenant;
      forall k | k in o.links && Overdue(db, ids, k.run, Running, now)
        ensures k.run == id
      {
        assert db.runs[k.run].info.tenant == o.tenant;
      }
    }
  }

  lemma CircuitsMore(db: Db, ids: seq<RunId>, id: RunId, now: int, mid: Db)
    requires CircuitsLeft(db, ids, now, mid.circuits) && id in db.runs && db.runs[id].status.Running?
             && LeaseExpired(db.runs, id, now)
    ensures var t := db.runs[id].info.tenant;
            CircuitsLeft(db, ids + [id], now,
                         mid.circuits[t := Uncertain(CircuitOf(mid.circuits, t), now, now + 10 * MINUTE)])
  {
    var tenant := db.runs[id].info.tenant;
    var circuits := mid.circuits[tenant := Uncertain(CircuitOf(mid.circuits, tenant), now, now + 10 * MINUTE)];
    forall t
      ensures CircuitLeft(db, ids + [id], t, now, circuits)
    {
      assert CircuitLeft(db, ids, t, now, mid.circuits);
      assert Overdue(db, ids + [id], id, Running, now);
      assert forall x | x != id :: Overdue(db, ids + [id], x, Running, now) <==> Overdue(db, ids, x, Running, now);
    }
  }

  /** Failing a started run of no collecting occurrence changes its own row only. */
  lemma LoneRunning(cfg: Config, db: Db, ids: seq<RunId>, id: RunId, now: int, runs: map<RunId, Run>)
    requires Inv(cfg, db) && RunsLeft(db, ids, now, runs)
    requires id in db.runs && db.runs[id].status.Running? && LeaseExpired(db.runs, id, now)
    requires forall i | 0 <= i < |db.occurrences| && db.occurrences[i].status == Collecting ::
               id !in LinkedRuns(db.occurrences[i].links)
    ensures RunsLeft(db, ids + [id], now, runs[id := FailedRun(db.runs[id])])
  {
    forall i | 0 <= i < |db.occurrences|
      ensures Struck(db, ids + [id], i, now) <==> Struck(db, ids, i, now)
    {
      StrikesMore(cfg, db, ids, id, now, i);
    }
    forall x | x in db.runs
      ensures RunLeft(db, ids + [id], x, now, runs[id := FailedRun(db.runs[id])][x])
    {
      assert RunLeft(db, ids, x, now, runs[x]);
    }
  }

  /** Failing a started run of a collecting occurrence cancels what waits there besides. */
  lemma LinkedRunning(cfg: Config, db: Db, ids: seq<RunId>, id: RunId, now: int, runs: map<RunId, Run>, i: nat)
    requires Inv(cfg, db) && RunsLeft(db, ids, now, runs)
    requires id in db.runs && id !in ids && db.runs[id].status.Running? && LeaseExpired(db.runs, id, now)
    requires i < |db.occurrences| && db.occurrences[i].status == Collecting && id in LinkedRuns(db.occurrences[i].links)
    ensures RunsLeft(db, ids + [id], now,
                     CancelQueued(runs[id := FailedRun(db.runs[id])], LinkedRuns(db.occurrences[i].links) - {id}))
  {
    forall x | x in db.runs
      ensures RunLeft(db, ids + [id], x, now, CancelQueued(runs[id := FailedRun(db.runs[id])],
                                                          LinkedRuns(db.occurrences[i].links) - {id})[x])
    {
      LinkedRow(cfg, db, ids, id, now, runs, i, x);
    }
  }

  lemma LinkedRow(cfg: Config, db: Db, ids: seq<RunId>, id: RunId, now: int, runs: map<RunId, Run>, i: nat, x: RunId)
    requires Inv(cfg, db) && RunsLeft(db, ids, now, runs) && x in db.runs
    requires id in db.runs && id !in ids && db.runs[id].status.Running? && LeaseExpired(db.runs, id, now)
    requires i < |db.occurrences| && db.occurrences[i].status == Collecting && id in LinkedRuns(db.occurrences[i].links)
    ensures RunLeft(db, ids + [id], x, now, CancelQueued(runs[id := FailedRun(db.runs[id])],
                                                        LinkedRuns(db.occurrences[i].links) - {id})[x])
  {
    assert RunLeft(db, ids, x, now, runs[x]);
    StruckWith(cfg, db, ids, id, now, i, x);
    if x in LinkedRuns(db.occurrences[i].links) && x != id {
      SiblingNotClaimed(cfg, db, id, i, x);
    }
  }

  lemma SiblingNotClaimed(cfg: Config, db: Db, id: RunId, i: nat, x: RunId)
    requires Inv(cfg, db) && id in db.runs && Active(db.runs[id]) && x != id
    requires i < |db.occurrences| && id in LinkedRuns(db.occurrences[i].links) && x in LinkedRuns(db.occurrences[i].links)
    ensures x in db.runs && !Active(db.runs[x])
  {
    var o := db.occurrences[i];
    assert o in db.occurrences && LinksOk(o.links, db.runs, o.tenant);
  }

  /** One occurrence more is struck, so exactly its runs have a struck link besides. */
  lemma StruckWith(cfg: Config, db: Db, ids: seq<RunId>, id: RunId, now: int, i: nat, x: RunId)
    requires Inv(cfg, db) && id in db.runs && id !in ids && db.runs[id].status.Running? && LeaseExpired(db.runs, id, now)
    requires i < |db.occurrences| && db.occurrences[i].status == Collecting && id in LinkedRuns(db.occurrences[i].links)
    ensures HasStruckLink(db, ids + [id], x, now) <==>
              HasStruckLink(db, ids, x, now) || x in LinkedRuns(db.occurrences[i].links)
  {
    forall j | 0 <= j < |db.occurrences|
      ensures Struck(db, ids + [id], j, now) <==> Struck(db, ids, j, now) || j == i
    {
      StrikesMore(cfg, db, ids, id, now, j);
    }
    if x in LinkedRuns(db.occurrences[i].links) {
      var l :| l in db.occurrences[i].links && l.run == x;
      assert HasStruckLink(db, ids + [id], x, now);
    }
  }

  lemma OccurrencesMore(cfg: Config, db: Db, ids: seq<RunId>, id: RunId, now: int, mid: Db)
    requires Inv(cfg, db) && OccurrencesLeft(db, ids, now, mid.occurrences)
    requires id in db.runs && id !in ids && db.runs[id].status.Running? && LeaseExpired(db.runs, id, now)
    ensures match OpenOccurrence(mid.occurrences, id, |mid.occurrences|)
            case None =>
              && (forall i | 0 <= i < |db.occurrences| && db.occurrences[i].status == Collecting ::
                    id !in LinkedRuns(db.occurrences[i].links))
              && OccurrencesLeft(db, ids + [id], now, mid.occurrences)
            case Some(i) =>
              && i < |db.occurrences| && mid.occurrences[i] == db.occurrences[i]
              && OccurrencesLeft(db, ids + [id], now,
                                 mid.occurrences[i := mid.occurrences[i].(status := Closed, lease := None)])
  {
    forall i | 0 <= i < |db.occurrences|
      ensures Struck(db, ids + [id], i, now) <==>
                Struck(db, ids, i, now)
                || (db.occurrences[i].status == Collecting && id in LinkedRuns(db.occurrences[i].links))
      ensures id in LinkedRuns(db.occurrences[i].links) ==> !Struck(db, ids, i, now)
    {
      StrikesMore(cfg, db, ids, id, now, i);
    }
  }

  /** What the recovery of one started run does to each table. */
  lemma FailsOne(db: Db, id: RunId, now: int)
    requires LeaseExpired(db.runs, id, now) && db.runs[id].status.Running?
    ensures var after, t := RecoverOne(db, id, now), db.runs[id].info.tenant;
            && after.circuits == db.circuits[t := Uncertain(CircuitOf(db.circuits, t), now, now + 10 * MINUTE)]
            && after.hosts == db.hosts && after.lastClaimed == db.lastClaimed
            && var failed := db.runs[id := FailedRun(db.runs[id])];
            match if db.runs[id].info.source.Schedule? then OpenOccurrence(db.occurrences, id, |db.occurrences|) else None
            case None => after.runs == failed && after.occurrences == db.occurrences
            case Some(i) =>
              && after.runs == CancelQueued(failed, LinkedRuns(db.occurrences[i].links) - {id})
              && after.occurrences == db.occurrences[i := db.occurrences[i].(status := Closed, lease := None)]
  {
  }

  lemma OneRunning(cfg: Config, db: Db, ids: seq<RunId>, id: RunId, now: int, mid: Db)
    requires Inv(cfg, db) && Left(db, ids, now, mid)
    requires LeaseExpired(mid.runs, id, now) && mid.runs[id].status.Running?
    ensures Left(db, ids + [id], now, RecoverOne(mid, id, now))
  {
    StillOverdue(db, ids, id, now, mid);
    CircuitsMore(db, ids, id, now, mid);
    FailsOne(mid, id, now);
    OccurrencesMore(cfg, db, ids, id, now, mid);
    match OpenOccurrence(mid.occurrences, id, |mid.occurrences|)
    case None =>
      LoneRunning(cfg, db, ids, id, now, mid.runs);
    case Some(i) =>
      StrikesMore(cfg, db, ids, id, now, i);
      LinkedRunning(cfg, db, ids, id, now, mid.runs, i);
  }

  // ---- A whole pass ----

  lemma {:induction false} PassLeaves(cfg: Config, db: Db, ids: seq<RunId>, now: int)
    requires Inv(cfg, db)
    ensures Left(db, ids, now, RecoverAll(db, ids, now))
  {
    if ids != [] {
      var front, id := ids[..|ids| - 1], ids[|ids| - 1];
      var mid := RecoverAll(db, front, now);
      PassLeaves(cfg, db, front, now);
      assert ids == front + [id];
      StillOverdue(db, front, id, now, mid);
      if !LeaseExpired(mid.runs, id, now) {
        NothingMore(db, front, id, now, mid);
      } else if mid.runs[id].status.Claimed? {
        OneClaimed(db, front, id, now, mid);
      } else {
        OneRunning(cfg, db, front, id, now, mid);
      }
    }
  }

  /**
   After any history, recovery makes every overdue CLAIMED run of its batch wait again from the
   moment it waited before, and every overdue RUNNING one FAILED. It closes exactly the collecting
   occurrences of the latter and cancels exactly what still waited there, and opens exactly the
   circuits of their tenants, for at least ten minutes. Nothing else changes but generations.
   */
  lemma RecoveryMeans(cfg: Config, history: seq<Step>, ids: seq<RunId>, now: int)
    ensures var db := Reached(cfg, history); Left(db, ids, now, Apply(cfg, db, At(now, DoRecover(ids))))
  {
    var db := Reached(cfg, history);
    ReachedOk(cfg, history);
    PassLeaves(cfg, db, ids, now);
    assert Apply(cfg, db, At(now, DoRecover(ids))) == RecoverAll(db, ids, now);
  }
}
