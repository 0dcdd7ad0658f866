/** The transactions of the notification store and of delivery finalisation on one occurrence. */
module NotificationSteps {
  import opened Options
  import opened ReportTables

  predicate Final(s: OccurrenceStatus) {
    s.Closed? || s.Completed? || s.PartialFailed?
  }

  /** Occurrences keep their identity and links, and leave COLLECTING and SENDING at most once. */
  predicate OccurrenceStep(a: Occurrence, b: Occurrence) {
    && a.tenant == b.tenant && a.schedule == b.schedule && a.scheduledFor == b.scheduledFor && a.links == b.links
    && (Final(a.status) ==> b.status == a.status)
    && (a.status.Sending? ==> !b.status.Collecting?)
  }

  ghost predicate OccurrencesStep(a: seq<Occurrence>, b: seq<Occurrence>) {
    |a| <= |b| && forall i | 0 <= i < |a| :: OccurrenceStep(a[i], b[i])
  }

  /** Only occurrences differ, each by an allowed step. */
  ghost predicate OnlyOccurrences(a: Db, b: Db) {
    b == a.(occurrences := b.occurrences) && |b.occurrences| == |a.occurrences|
      && OccurrencesStep(a.occurrences, b.occurrences)
  }

  function WithOccurrence(db: Db, i: nat, o: Occurrence): (r: Db)
    requires i < |db.occurrences| && OccurrenceStep(db.occurrences[i], o)
    ensures OnlyOccurrences(db, r)
  {
    db.(occurrences := db.occurrences[i := o])
  }

  predicate Claimable(db: Db, i: nat, now: int) {
    && i < |db.occurrences|
    && var o := db.occurrences[i];
    && o.status.Collecting? && o.nextAttempt <= now
    && (o.claimedBy.None? || (o.lease.Some? && o.lease.value < now))
  }

  predicate Collected(db: Db, i: nat, worker: WorkerId) {
    i < |db.occurrences| && db.occurrences[i].status.Collecting? && db.occurrences[i].claimedBy == Some(worker)
  }

  function NoteClaim(db: Db, i: nat, worker: WorkerId, lease: int, now: int): (r: Db)
    ensures OnlyOccurrences(db, r)
  {
    if Claimable(db, i, now) then
      WithOccurrence(db, i, db.occurrences[i].(claimedBy := Some(worker), lease := Some(now + lease)))
    else db
  }

  function NoteDefer(db: Db, i: nat, worker: WorkerId, availableAt: int): (r: Db)
    ensures OnlyOccurrences(db, r)
  {
    if Collected(db, i, worker) then
      WithOccurrence(db, i, db.occurrences[i].(claimedBy := None, lease := None, nextAttempt := availableAt))
    else db
  }

  function NoteFail(db: Db, i: nat, worker: WorkerId): (r: Db)
    ensures OnlyOccurrences(db, r)
  {
    if Collected(db, i, worker) then
      WithOccurrence(db, i, db.occurrences[i].(status := Closed, claimedBy := None, lease := None))
    else db
  }

  /** Unlike Defer and Fail, Publish also asks for an unexpired lease. */
  predicate Publishable(db: Db, i: nat, worker: WorkerId, now: int) {
    Collected(db, i, worker) && db.occurrences[i].lease.Some? && now <= db.occurrences[i].lease.value
  }

  function NotePublish(db: Db, i: nat, worker: WorkerId, published: nat, now: int): (r: Db)
    ensures OnlyOccurrences(db, r)
  {
    if Publishable(db, i, worker, now) then
      var status := if published == 0 then Closed else Sending;
      WithOccurrence(db, i, db.occurrences[i].(status := status, claimedBy := None, lease := None))
    else db
  }

  /** finalizeNotificationRun, which runs only while deliveries exist, that is from SENDING. */
  function Finalize(db: Db, i: nat, status: OccurrenceStatus): (r: Db)
    ensures OnlyOccurrences(db, r)
  {
    if i < |db.occurrences| && db.occurrences[i].status.Sending? && !status.Collecting? && !status.Sending? then
      WithOccurrence(db, i, db.occurrences[i].(status := status))
    else db
  }
}
