/** The delivery store: outbox, quota and run rows as fields, each transaction as a method. */
module DeliveryStore {
  import opened Options
  import opened DeliveryOutbox

  class Store {
    var rows: map<DeliveryId, Row>
    var quota: map<int, nat>
    var notes: map<NoteId, Note>

    constructor ()
      ensures Tables() == Outbox(map[], map[], map[])
    {
      rows, quota, notes := map[], map[], map[];
    }

    function Tables(): Outbox
      reads this
    {
      Outbox(rows, quota, notes)
    }

    /** Takes the first claimable delivery by available_at and id. */
    method Claim(worker: nat, length: int, now: int) returns (work: Option<(DeliveryId, nat)>)
      modifies this
      ensures work.None? ==> Tables() == old(Tables()) && forall id :: !Claimable(Tables(), id, now)
      ensures work.Some? ==>
                var id := work.value.0;
                && Claimable(old(Tables()), id, now)
                && (forall o | Claimable(old(Tables()), o, now) && o != id ::
                      old(rows)[id].availableAt < old(rows)[o].availableAt
                      || (old(rows)[id].availableAt == old(rows)[o].availableAt && id < o))
                && Tables() == DeliveryOutbox.Claim(old(Tables()), id, worker, length, now)
                && work.value.1 == rows[id].attempt
    {
      var best: Option<DeliveryId> := None;
      var left := rows.Keys;
      while left != {}
        invariant left <= rows.Keys && Tables() == old(Tables())
        invariant best.Some? ==> best.value in rows.Keys - left && Claimable(Tables(), best.value, now)
        invariant forall o | o in rows.Keys - left && Claimable(Tables(), o, now) ::
                    best.Some? && (o == best.value || rows[best.value].availableAt < rows[o].availableAt
                                   || (rows[best.value].availableAt == rows[o].availableAt && best.value < o))
        decreases left
      {
        var id :| id in left;
        left := left - {id};
        if Claimable(Tables(), id, now)
           && (best.None? || rows[id].availableAt < rows[best.value].availableAt
               || (rows[id].availableAt == rows[best.value].availableAt && id < best.value)) {
          best := Some(id);
        }
      }
      if best.None? {
        return None;
      }
      var id := best.value;
      rows := rows[id := rows[id].(status := InFlight, attempt := rows[id].attempt + 1,
                                   claimedBy := Some(worker), lease := Some(now + length))];
      work := Some((id, rows[id].attempt));
    }

    method Finalize(note: NoteId)
      modifies this
      ensures Tables() == Finalized(old(Tables()), note)
    {
      var active := |OpenRows(rows, note)|;
      var accepted := |WithStatus(rows, note, Accepted)|;
      var failed := |WithStatus(rows, note, Dead)|;
      if active > 0 || note !in notes {
        return;
      }
      var status := Completed;
      if failed > 0 && accepted > 0 {
        status := PartialFailed;
      } else if failed > 0 {
        status := NoteStatus.Failed;
      } else if notes[note].partial {
        status := PartialFailed;
      }
      notes := notes[note := notes[note].(status := status)];
    }

    method Accept(id: DeliveryId, worker: nat, now: int) returns (ok: bool)
      modifies this
      ensures ok == Locked(old(Tables()), id, worker, now)
      ensures Tables() == DeliveryOutbox.Accept(old(Tables()), id, worker, now)
    {
      ok := Locked(Tables(), id, worker, now);
      if ok {
        var month := MonthOf(now);
        var note := rows[id].note;
        rows := rows[id := rows[id].(status := Accepted, done := true, lease := None, month := Some(month))];
        quota := quota[month := Used(quota, month) + 1];
        Finalize(note);
      }
    }

    method Retry(id: DeliveryId, worker: nat, uncertain: bool, availableAt: int, now: int) returns (ok: bool)
      modifies this
      ensures ok == Locked(old(Tables()), id, worker, now)
      ensures Tables() == DeliveryOutbox.Retry(old(Tables()), id, worker, uncertain, availableAt, now)
      ensures ok ==> forall other, later :: !Locked(Tables(), id, other, later)
      ensures ok ==> forall later :: Claimable(Tables(), id, later) <==> availableAt <= later
    {
      ok := Locked(Tables(), id, worker, now);
      if ok {
        var status := RetryWait;
        if uncertain {
          status := Uncertain;
        }
        rows := rows[id := rows[id].(status := status)];
        rows := rows[id := rows[id].(availableAt := availableAt, claimedBy := None, lease := None)];
      }
    }

    method Fail(id: DeliveryId, worker: nat, now: int) returns (ok: bool)
      modifies this
      ensures ok == Locked(old(Tables()), id, worker, now)
      ensures Tables() == DeliveryOutbox.Fail(old(Tables()), id, worker, now)
      ensures ok ==> forall later :: !Claimable(Tables(), id, later)
    {
      ok := Locked(Tables(), id, worker, now);
      if ok {
        var note := rows[id].note;
        rows := rows[id := rows[id].(status := Dead, done := true, lease := None)];
        Finalize(note);
      }
    }
  }
}
