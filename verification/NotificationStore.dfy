/** The notification store's transactions on the tables of the report store. */
module NotificationStore {
  import opened Options
  import opened Catalog
  import opened ReportTables
  import opened ReportStore
  import opened NotificationSteps
  import opened NotificationWork

  /** order by next_attempt_at, scheduled_for, id */
  predicate PickedBefore(occurrences: seq<Occurrence>, a: nat, b: nat)
    requires a < |occurrences| && b < |occurrences|
  {
    var x, y := occurrences[a], occurrences[b];
    if x.nextAttempt != y.nextAttempt then x.nextAttempt < y.nextAttempt
    else if x.scheduledFor != y.scheduledFor then x.scheduledFor < y.scheduledFor
    else a < b
  }

  ghost predicate IsNext(db: Db, i: nat, now: int) {
    Claimable(db, i, now) && forall j: nat | Claimable(db, j, now) && j != i :: PickedBefore(db.occurrences, i, j)
  }

  /** Claims the next waiting occurrence; one without reports is an error that rolls back. */
  method Claim(store: Store, worker: WorkerId, lease: int, access: Access, dashboards: map<RunId, Stamp>, now: int)
    returns (work: Option<Work>)
    modifies store
    ensures work.None? ==>
              && store.Tables() == old(store.Tables())
              && forall i: nat | IsNext(store.Tables(), i, now) :: store.occurrences[i].links == []
    ensures work.Some? ==>
              var i := work.value.occurrence;
              && IsNext(old(store.Tables()), i, now) && old(store.occurrences)[i].links != []
              && store.Tables() == NoteClaim(old(store.Tables()), i, worker, lease, now)
              && work.value == WorkOf(store.Tables(), i, access, dashboards, now)
  {
    var next: Option<nat> := None;
    for i := 0 to |store.occurrences|
      invariant store.Tables() == old(store.Tables())
      invariant next.Some? ==> next.value < i && Claimable(store.Tables(), next.value, now)
      invariant forall j: nat | j < i && Claimable(store.Tables(), j, now) ::
                  next.Some? && (j == next.value || PickedBefore(store.occurrences, next.value, j))
    {
      if Claimable(store.Tables(), i, now) && (next.None? || PickedBefore(store.occurrences, i, next.value)) {
        next := Some(i);
      }
    }
    if next.None? {
      return None;
    }
    var i := next.value;
    assert IsNext(store.Tables(), i, now);
    if store.occurrences[i].links == [] {
      return None;
    }
    var o := store.occurrences[i];
    store.occurrences := store.occurrences[i := o.(claimedBy := Some(worker), lease := Some(now + lease))];
    var loaded := LoadWork(store.Tables(), i, access, dashboards, now);
    work := Some(loaded);
  }

  method Defer(store: Store, i: nat, worker: WorkerId, availableAt: int) returns (ok: bool)
    modifies store
    ensures ok == Collected(old(store.Tables()), i, worker)
    ensures store.Tables() == NoteDefer(old(store.Tables()), i, worker, availableAt)
  {
    ok := Collected(store.Tables(), i, worker);
    if ok {
      var o := store.occurrences[i];
      store.occurrences := store.occurrences[i := o.(claimedBy := None, lease := None, nextAttempt := availableAt)];
    }
  }

  method Fail(store: Store, i: nat, worker: WorkerId) returns (ok: bool)
    modifies store
    ensures ok == Collected(old(store.Tables()), i, worker)
    ensures store.Tables() == NoteFail(old(store.Tables()), i, worker)
  {
    ok := Collected(store.Tables(), i, worker);
    if ok {
      var o := store.occurrences[i];
      store.occurrences := store.occurrences[i := o.(status := Closed, claimedBy := None, lease := None)];
    }
  }

  /** Rechecks every delivery and inserts those still entitled; with none left the occurrence fails. */
  method Publish(store: Store, i: nat, worker: WorkerId, prepared: seq<Prepared>, access: Access, now: int)
    returns (ok: bool, inserted: seq<Delivery>)
    modifies store
    ensures ok == (Publishable(old(store.Tables()), i, worker, now) && forall p | p in prepared :: p.keys != [])
    ensures ok ==> inserted == Inserted(old(store.Tables()), i, access, prepared)
                   && store.Tables() == NotePublish(old(store.Tables()), i, worker, |inserted|, now)
    ensures !ok ==> inserted == [] && store.Tables() == old(store.Tables())
  {
    inserted := [];
    if !Publishable(store.Tables(), i, worker, now) {
      return false, [];
    }
    for k := 0 to |prepared|
      invariant store.Tables() == old(store.Tables())
      invariant forall p | p in prepared[..k] :: p.keys != []
      invariant inserted == Inserted(store.Tables(), i, access, prepared[..k])
    {
      assert prepared[..k + 1][..k] == prepared[..k] && prepared[..k + 1] == prepared[..k] + [prepared[k]];
      var p := prepared[k];
      if |p.keys| == 0 {
        assert p in prepared;
        return false, [];
      }
      if Entitled(store.Tables(), i, access, p) {
        inserted := inserted + [Delivery(i, p.recipient, p.keys, GrantedTo(access, p.recipient))];
      }
    }
    assert prepared[..|prepared|] == prepared;
    var o := store.occurrences[i];
    var status := if |inserted| == 0 then Closed else Sending;
    store.occurrences := store.occurrences[i := o.(status := status, claimedBy := None, lease := None)];
    ok := true;
  }
}
