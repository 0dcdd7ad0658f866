/** What scheduling, cancelling and archiving leave in the tables, row by row. */
module Changes {
  import opened Options
  import opened Units
  import opened Catalog
  import opened ReportTables
  import opened ReportSteps
  import opened ReportActions

  /** The row of a scheduled report: a summary that waits from now on with the highest priority. */
  predicate IsScheduled(r: Run, tenant: TenantId, due: DueReport, now: int) {
    && r.info.tenant == tenant && r.info.key == due.key && r.info.source == Source.Schedule && r.info.summary
    && r.info.priority == 100 && r.info.idempotencyKey == due.idempotencyKey && r.info.period == due.period
    && r.info.requestedBy == None && r.info.executionKey == None && r.info.createdAt == now
    && r.status == Queued && r.queuedAt == now && r.claimedBy == None && r.lease == None && r.attempt == 0
    && r.phase == 0 && r.expiresAt == due.expiresAt
  }

  /** New identifiers, no report twice, and no occurrence of the schedule at that time yet. */
  ghost predicate MayMaterialize(db: Db, schedule: ScheduleId, scheduledFor: int, reports: seq<DueReport>) {
    && (forall k | 0 <= k < |reports| :: reports[k].run !in db.runs)
    && (forall j, k | 0 <= j < k < |reports| ::
          reports[j].run != reports[k].run && reports[j].key != reports[k].key)
    && (forall o | o in db.occurrences :: o.schedule != schedule || o.scheduledFor != scheduledFor)
  }

  /**
   Materialising inserts one collecting occurrence with a link and a waiting run for every report,
   in their order, and nothing else; when it may not, it changes nothing.
   */
  lemma MaterializeMeans(db: Db, tenant: TenantId, schedule: ScheduleId, scheduledFor: int, reports: seq<DueReport>,
                         nextAttempt: int, now: int)
    ensures var after := Materialize(db, tenant, schedule, scheduledFor, reports, nextAttempt, now);
            if MayMaterialize(db, schedule, scheduledFor, reports) then
              && |after.occurrences| == |db.occurrences| + 1 && db.occurrences <= after.occurrences
              && var o := after.occurrences[|db.occurrences|];
              && o == Occurrence(tenant, schedule, scheduledFor, o.links, Collecting, None, None, nextAttempt)
              && |o.links| == |reports|
              && (forall k | 0 <= k < |reports| ::
                    && o.links[k].key == reports[k].key && o.links[k].run == reports[k].run
                    && reports[k].run in after.runs && IsScheduled(after.runs[reports[k].run], tenant, reports[k], now))
              && (forall x | x in db.runs :: x in after.runs && after.runs[x] == db.runs[x])
              && (forall x | x in after.runs && x !in db.runs ::
                    exists k :: 0 <= k < |reports| && reports[k].run == x)
              && after == db.(runs := after.runs, occurrences := after.occurrences)
            else after == db
  {
    MayMeans(db, schedule, scheduledFor, reports);
    if MayMaterialize(db, schedule, scheduledFor, reports) {
      NewRowsAre(db, tenant, reports, now);
    }
  }

  lemma MayMeans(db: Db, schedule: ScheduleId, scheduledFor: int, reports: seq<DueReport>)
    ensures MayMaterialize(db, schedule, scheduledFor, reports) <==>
              Fresh(db, RunIds(reports)) && !Taken(db, schedule, scheduledFor) && DistinctReports(reports)
  {
    assert forall k | 0 <= k < |reports| :: RunIds(reports)[k] == reports[k].run;
  }

  lemma NewRowsAre(db: Db, tenant: TenantId, reports: seq<DueReport>, now: int)
    requires forall k | 0 <= k < |reports| :: reports[k].run !in db.runs
    requires forall j, k | 0 <= j < k < |reports| :: reports[j].run != reports[k].run
    ensures var runs := db.runs + NewRuns(tenant, reports, now);
            && (forall k | 0 <= k < |reports| ::
                  reports[k].run in runs && IsScheduled(runs[reports[k].run], tenant, reports[k], now))
            && (forall x | x in db.runs :: x in runs && runs[x] == db.runs[x])
            && (forall x | x in runs && x !in db.runs :: exists k :: 0 <= k < |reports| && reports[k].run == x)
  {
    NewRunsAre(tenant, reports, now);
    forall x | x in NewRuns(tenant, reports, now)
      ensures x !in db.runs
    {
      var k :| 0 <= k < |reports| && reports[k].run == x;
    }
  }

  /** A due schedule that is not ready leaves a failed occurrence without reports, once. */
  lemma BlockMeans(db: Db, tenant: TenantId, schedule: ScheduleId, scheduledFor: int, worker: WorkerId, now: int)
    ensures var after := MaterializeBlocked(db, tenant, schedule, scheduledFor, worker, now);
            if forall o | o in db.occurrences :: o.schedule != schedule || o.scheduledFor != scheduledFor then
              after == db.(occurrences := db.occurrences
                + [Occurrence(tenant, schedule, scheduledFor, [], Closed, Some(worker), None, now)])
            else after == db
  {
  }

  /** Exactly the waiting runs of an archived tenant are cancelled. */
  lemma ArchiveMeans(db: Db, tenant: TenantId)
    ensures var after := ArchiveQueue(db, tenant);
            && after.runs.Keys == db.runs.Keys && after == db.(runs := after.runs)
            && forall x | x in db.runs ::
                 if db.runs[x].info.tenant == tenant && db.runs[x].status == Queued
                 then after.runs[x] == db.runs[x].(status := Cancelled, lease := None)
                 else after.runs[x] == db.runs[x]
  {
  }

  /** Cancelling reaches a run only while it waits, and then that run only. */
  lemma CancelMeans(db: Db, id: RunId)
    ensures var after := Cancel(db, id);
            if id in db.runs && db.runs[id].status == Queued
            then after == db.(runs := db.runs[id := db.runs[id].(status := Cancelled, lease := None)])
            else after == db
  {
  }
}
