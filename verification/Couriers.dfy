/** What becomes of a delivery that a courier picks up and then settles, and of its notification run. */
module Couriers {
  import opened Options
  import opened Units
  import opened Calendar
  import opened Periods
  import opened DeliveryOutbox

  /** Some sequence of events leads from the empty outbox to this state. */
  ghost predicate Occurs(workerOf: map<nat, nat>, p: Post) {
    exists events :: p == Play(workerOf, BEGIN, events)
  }

  function After(workerOf: map<nat, nat>, p: Post, event: Event, now: int): Post {
    DeliveryOutbox.Next(workerOf, p, TimedEvent(now, event))
  }

  predicate Pending(r: Row) {
    r.status in {New, InFlight, RetryWait, Uncertain}
  }

  /** Not done, due, and free or with a lease that has run out. */
  predicate Available(rows: map<DeliveryId, Row>, id: DeliveryId, now: int) {
    && id in rows && !rows[id].done && rows[id].availableAt <= now && Pending(rows[id])
    && (rows[id].claimedBy == None || (rows[id].lease.Some? && rows[id].lease.value < now))
  }

  /** An idle courier takes exactly an available delivery, counts one attempt more, and has it for a minute. */
  lemma PickMeans(workerOf: map<nat, nat>, p: Post, c: nat, id: DeliveryId, now: int)
    requires c in workerOf && CourierOf(p, c) == Idle
    ensures var after := After(workerOf, p, Pick(c, id), now);
            if Available(p.outbox.rows, id, now) then
              var was := p.outbox.rows[id];
              && after.outbox == p.outbox.(rows := p.outbox.rows[id := was.(status := InFlight,
                   attempt := was.attempt + 1, claimedBy := Some(workerOf[c]), lease := Some(now + 60 * SECOND))])
              && after.couriers == p.couriers[c := Carrying(id, was.attempt + 1, now)]
            else after == p
  {
  }

  /** The worker still has the delivery. */
  predicate Has(rows: map<DeliveryId, Row>, id: DeliveryId, worker: nat, now: int) {
    && id in rows && rows[id].status == InFlight && rows[id].claimedBy == Some(worker) && !rows[id].done
    && rows[id].lease.Some? && now <= rows[id].lease.value
  }

  /** The status of a run all of whose deliveries are over. */
  ghost predicate IsEnd(rows: map<DeliveryId, Row>, note: NoteId, partial: bool, s: NoteStatus) {
    var accepted := exists x | x in rows :: rows[x].note == note && rows[x].status == Accepted;
    var dead := exists x | x in rows :: rows[x].note == note && rows[x].status == Dead;
    if accepted && dead then s == PartialFailed
    else if dead then s == Failed
    else s == if partial then PartialFailed else Completed
  }

  /** The run of a delivery that is over: it is over too when no other delivery of it is pending. */
  ghost predicate NotesLeft(rows: map<DeliveryId, Row>, note: NoteId, before: map<NoteId, Note>,
                            after: map<NoteId, Note>) {
    if exists x | x in rows :: rows[x].note == note && Pending(rows[x]) then after == before
    else note in before && note in after && after == before[note := after[note]]
         && after[note].partial == before[note].partial
         && IsEnd(rows, note, before[note].partial, after[note].status)
  }

  lemma OutcomeIsEnd(rows: map<DeliveryId, Row>, note: NoteId, partial: bool)
    ensures IsEnd(rows, note, partial, Outcome(rows, note, partial))
  {
    var accepted, dead := WithStatus(rows, note, Accepted), WithStatus(rows, note, Dead);
    assert 0 < |accepted| <==> exists x | x in rows :: rows[x].note == note && rows[x].status == Accepted by {
      if 0 < |accepted| {
        var x :| x in accepted;
      }
      assert forall x | x in rows && rows[x].note == note && rows[x].status == Accepted :: x in accepted;
    }
    assert 0 < |dead| <==> exists x | x in rows :: rows[x].note == note && rows[x].status == Dead by {
      if 0 < |dead| {
        var x :| x in dead;
      }
      assert forall x | x in rows && rows[x].note == note && rows[x].status == Dead :: x in dead;
    }
  }

  lemma FinalizedMeans(o: Outbox, note: NoteId)
    requires note in o.notes
    ensures NotesLeft(o.rows, note, o.notes, Finalized(o, note).notes) && Finalized(o, note).rows == o.rows
            && Finalized(o, note).quota == o.quota
  {
    OutcomeIsEnd(o.rows, note, o.notes[note].partial);
    assert forall x | x in o.rows && o.rows[x].note == note && Pending(o.rows[x]) :: x in OpenRows(o.rows, note);
  }

  /** The UTC day of an instant, counted from 1970-01-01. */
  predicate IsDay(instant: int, day: int) {
    day * 86_400 * SECOND <= instant < (day + 1) * 86_400 * SECOND
  }

  /** The instant lies in the month, counted from year 0, by UTC. */
  ghost predicate InMonth(instant: int, month: int) {
    exists d: Date | IsDate(d) :: month == 12 * d.year + d.month - 1
      && IsDay(instant, DayNumber(d) - DayNumber(Date(1970, 1, 1)))
  }

  lemma DayDivides(instant: int)
    ensures IsDay(instant, instant / DAY)
  {
  }

  lemma MonthOfMeans(instant: int)
    ensures InMonth(instant, MonthOf(instant))
  {
    DayDivides(instant);
    var d := DateOf(instant / DAY + EPOCH);
    assert DayNumber(Date(1970, 1, 1)) == EPOCH;
    assert IsDay(instant, DayNumber(d) - DayNumber(Date(1970, 1, 1)));
  }

  lemma RowKnown(workerOf: map<nat, nat>, p: Post, c: nat)
    requires Occurs(workerOf, p) && CourierOf(p, c).Carrying?
    ensures var k := CourierOf(p, c);
            && k.id in p.outbox.rows && 1 <= k.attempt && p.outbox.rows[k.id].note in p.outbox.notes
  {
    var events :| p == Play(workerOf, BEGIN, events);
    BeginOk();
    PlayKeeps(workerOf, BEGIN, events);
    assert CourierOk(p, p.couriers[c]);
    assert RowOk(p.outbox, p.outbox.rows[p.couriers[c].id]);
  }

  /** When the worker has lost the delivery, settling it changes nothing. */
  lemma SettledTooLate(workerOf: map<nat, nat>, p: Post, c: nat, reachable: bool, push: Push, now: int)
    requires c in workerOf && CourierOf(p, c).Carrying?
    requires !Has(p.outbox.rows, CourierOf(p, c).id, workerOf[c], CourierOf(p, c).since)
    ensures var after := After(workerOf, p, Settle(c, reachable, push), now);
            after == p.(couriers := p.couriers[c := Idle])
  {
  }

  /**
   An accepted message makes the delivery ACCEPTED for good, counted once in the month of the
   attempt, and ends its run when it was the last.
   */
  lemma AcceptedMeans(workerOf: map<nat, nat>, p: Post, c: nat, now: int)
    requires Occurs(workerOf, p) && c in workerOf && CourierOf(p, c).Carrying?
    requires Has(p.outbox.rows, CourierOf(p, c).id, workerOf[c], CourierOf(p, c).since)
    ensures var k, after := CourierOf(p, c), After(workerOf, p, Settle(c, true, PushAccepted), now);
            var was, rows := p.outbox.rows[k.id], after.outbox.rows;
            && CourierOf(after, c) == Idle && k.id in rows && rows[k.id].month.Some?
            && var month := rows[k.id].month.value;
            && rows == p.outbox.rows[k.id := was.(status := Accepted, done := true, lease := None, month := Some(month))]
            && InMonth(k.since, month)
            && month in after.outbox.quota
            && after.outbox.quota == p.outbox.quota[month := after.outbox.quota[month]]
            && after.outbox.quota[month] == (if month in p.outbox.quota then p.outbox.quota[month] else 0) + 1
            && NotesLeft(rows, was.note, p.outbox.notes, after.outbox.notes)
  {
    var k := CourierOf(p, c);
    RowKnown(workerOf, p, c);
    MonthOfMeans(k.since);
    var month := MonthOf(k.since);
    var r := p.outbox.rows[k.id].(status := Accepted, done := true, lease := None, month := Some(month));
    var quota := p.outbox.quota[month := Used(p.outbox.quota, month) + 1];
    FinalizedMeans(p.outbox.(rows := p.outbox.rows[k.id := r], quota := quota), r.note);
  }

  /** Half a minute after the first attempt, and double with each further one. */
  function PauseAfter(attempt: nat): int
    requires 1 <= attempt <= 4
  {
    if attempt == 1 then 30 * SECOND else if attempt == 2 then 60 * SECOND
    else if attempt == 3 then 120 * SECOND else 240 * SECOND
  }

  /** A push that may be tried again puts the delivery back until the time LINE asks for, or else a pause. */
  lemma RetriedMeans(workerOf: map<nat, nat>, p: Post, c: nat, uncertain: bool, retryAfter: int, now: int)
    requires Occurs(workerOf, p) && c in workerOf && CourierOf(p, c).Carrying? && CourierOf(p, c).attempt < 5
    requires Has(p.outbox.rows, CourierOf(p, c).id, workerOf[c], CourierOf(p, c).since)
    ensures var push := PushRetryable(uncertain, retryAfter);
            var k, after := CourierOf(p, c), After(workerOf, p, Settle(c, true, push), now);
            && 1 <= k.attempt && CourierOf(after, c) == Idle
            && after.outbox == p.outbox.(rows := p.outbox.rows[k.id := p.outbox.rows[k.id].(
                 status := if uncertain then Uncertain else RetryWait,
                 availableAt := k.since + (if 0 < retryAfter then retryAfter else PauseAfter(k.attempt)),
                 claimedBy := None, lease := None)])
  {
    RowKnown(workerOf, p, c);
    RetryDelays(CourierOf(p, c).attempt);
    assert Power(1) == 2 && Power(2) == 4 && Power(3) == 8;
  }

  /** The push failed for good: nobody to send to, a refusal, or a fifth failure. */
  predicate GivesUp(attempt: nat, reachable: bool, push: Push) {
    !reachable || push.PushRefused? || (push.PushRetryable? && 5 <= attempt)
  }

  /** Anything else gives the delivery up for good, and ends its run when it was the last. */
  lemma DeadMeans(workerOf: map<nat, nat>, p: Post, c: nat, reachable: bool, push: Push, now: int)
    requires Occurs(workerOf, p) && c in workerOf && CourierOf(p, c).Carrying?
    requires Has(p.outbox.rows, CourierOf(p, c).id, workerOf[c], CourierOf(p, c).since)
    requires GivesUp(CourierOf(p, c).attempt, reachable, push)
    ensures var k, after := CourierOf(p, c), After(workerOf, p, Settle(c, reachable, push), now);
            var was := p.outbox.rows[k.id];
            && CourierOf(after, c) == Idle && after.outbox.quota == p.outbox.quota
            && after.outbox.rows == p.outbox.rows[k.id := was.(status := Dead, done := true, lease := None)]
            && NotesLeft(after.outbox.rows, was.note, p.outbox.notes, after.outbox.notes)
  {
    var k := CourierOf(p, c);
    RowKnown(workerOf, p, c);
    var r := p.outbox.rows[k.id].(status := Dead, done := true, lease := None);
    FinalizedMeans(p.outbox.(rows := p.outbox.rows[k.id := r]), r.note);
  }

  /** A published run starts with one new delivery for each recipient, available at once, and is SENDING. */
  lemma PublishedMeans(workerOf: map<nat, nat>, p: Post, note: NoteId, ids: set<DeliveryId>, partial: bool, now: int)
    ensures var after := After(workerOf, p, Publish(note, ids, partial), now);
            if note !in p.outbox.notes && ids != {} && ids !! p.outbox.rows.Keys then
              && after.outbox.notes == p.outbox.notes[note := Note(Sending, partial)]
              && after.outbox.quota == p.outbox.quota && after.couriers == p.couriers
              && after.outbox.rows.Keys == p.outbox.rows.Keys + ids
              && (forall x | x in p.outbox.rows :: after.outbox.rows[x] == p.outbox.rows[x])
              && (forall x | x in ids :: after.outbox.rows[x] == Row(note, New, 0, None, None, now, false, None))
            else after == p
  {
  }
}
