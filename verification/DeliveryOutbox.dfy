/**
 The delivery outbox: deliveries of published notification runs, the monthly count of accepted
 messages, the final status of each run, and the courier that sends and retries.
 */
module DeliveryOutbox {
  import opened Options
  import opened Units
  import opened Calendar
  import opened Periods
  import opened Ranking

  type DeliveryId = nat
  type NoteId = nat

  datatype DeliveryStatus = New | InFlight | RetryWait | Uncertain | Accepted | Dead

  /** A delivery with its outbox row; month is set when it is accepted. */
  datatype Row = Row(note: NoteId, status: DeliveryStatus, attempt: nat, claimedBy: Option<nat>, lease: Option<int>,
                     availableAt: int, done: bool, month: Option<int>)

  datatype NoteStatus = Sending | Completed | PartialFailed | Failed

  /** partial records that the run was published with reports missing. */
  datatype Note = Note(status: NoteStatus, partial: bool)

  datatype Outbox = Outbox(rows: map<DeliveryId, Row>, quota: map<int, nat>, notes: map<NoteId, Note>)

  predicate IsOpen(s: DeliveryStatus) {
    s.New? || s.InFlight? || s.RetryWait? || s.Uncertain?
  }

  function RowsOf(rows: map<DeliveryId, Row>, note: NoteId): set<DeliveryId> {
    set id | id in rows && rows[id].note == note
  }

  function WithStatus(rows: map<DeliveryId, Row>, note: NoteId, s: DeliveryStatus): set<DeliveryId> {
    set id | id in RowsOf(rows, note) && rows[id].status == s
  }

  function OpenRows(rows: map<DeliveryId, Row>, note: NoteId): set<DeliveryId> {
    set id | id in RowsOf(rows, note) && IsOpen(rows[id].status)
  }

  /** The status of a run whose deliveries are all over, from how many were accepted and how many failed. */
  function FinalStatus(accepted: nat, failed: nat, partial: bool): NoteStatus {
    if failed > 0 && accepted > 0 then PartialFailed
    else if failed > 0 then Failed
    else if partial then PartialFailed
    else Completed
  }

  function Outcome(rows: map<DeliveryId, Row>, note: NoteId, partial: bool): NoteStatus {
    FinalStatus(|WithStatus(rows, note, Accepted)|, |WithStatus(rows, note, Dead)|, partial)
  }

  /** finalizeNotificationRun */
  function Finalized(o: Outbox, note: NoteId): Outbox {
    if OpenRows(o.rows, note) != {} || note !in o.notes then o
    else o.(notes := o.notes[note := o.notes[note].(status := Outcome(o.rows, note, o.notes[note].partial))])
  }

  /** Once nothing is open: completed means all accepted, failed none, and anything else is a partial failure. */
  lemma OutcomeMeans(rows: map<DeliveryId, Row>, note: NoteId, partial: bool)
    requires OpenRows(rows, note) == {} && RowsOf(rows, note) != {}
    ensures Outcome(rows, note, partial).Failed? <==> forall id | id in RowsOf(rows, note) :: rows[id].status.Dead?
    ensures Outcome(rows, note, partial).Completed? <==> !partial && forall id | id in RowsOf(rows, note) ::
            rows[id].status.Accepted?
    ensures !Outcome(rows, note, partial).Sending?
  {
    var accepted, dead := WithStatus(rows, note, Accepted), WithStatus(rows, note, Dead);
    assert forall id | id in RowsOf(rows, note) :: id !in OpenRows(rows, note);
    assert RowsOf(rows, note) == accepted + dead;
    assert |accepted| == 0 <==> accepted == {};
    assert |dead| == 0 <==> dead == {};
    assert forall id | id in accepted :: rows[id].status.Accepted?;
    assert forall id | id in dead :: rows[id].status.Dead?;
  }

  /** The UTC month of an instant. */
  function MonthOf(instant: int): int {
    MonthIndex(DateOf(instant / DAY + EPOCH))
  }

  // ---- Transactions ----

  /** The insertions of Publish. */
  function Insert(o: Outbox, note: NoteId, ids: set<DeliveryId>, partial: bool, now: int): Outbox {
    if note in o.notes || ids == {} || (exists id | id in ids :: id in o.rows) then o
    else o.(rows := o.rows + map id | id in ids :: Row(note, New, 0, None, None, now, false, None),
            notes := o.notes[note := Note(Sending, partial)])
  }

  predicate Claimable(o: Outbox, id: DeliveryId, now: int) {
    && id in o.rows
    && var r := o.rows[id];
    && !r.done && r.availableAt <= now && (r.claimedBy.None? || (r.lease.Some? && r.lease.value < now))
       && IsOpen(r.status)
  }

  function Claim(o: Outbox, id: DeliveryId, worker: nat, length: int, now: int): Outbox {
    if Claimable(o, id, now) then
      o.(rows := o.rows[id := o.rows[id].(status := InFlight, attempt := o.rows[id].attempt + 1,
                                          claimedBy := Some(worker), lease := Some(now + length))])
    else o
  }

  /** lockDeliveryOutbox */
  predicate Locked(o: Outbox, id: DeliveryId, worker: nat, now: int) {
    && id in o.rows
    && var r := o.rows[id];
    && r.claimedBy == Some(worker) && !r.done && r.lease.Some? && now <= r.lease.value && r.status.InFlight?
  }

  function Accept(o: Outbox, id: DeliveryId, worker: nat, now: int): Outbox {
    if Locked(o, id, worker, now) then
      var month := MonthOf(now);
      var r := o.rows[id].(status := Accepted, done := true, lease := None, month := Some(month));
      Finalized(o.(rows := o.rows[id := r], quota := o.quota[month := Used(o.quota, month) + 1]), o.rows[id].note)
    else o
  }

  function Used(quota: map<int, nat>, month: int): nat {
    if month in quota then quota[month] else 0
  }

  function Retry(o: Outbox, id: DeliveryId, worker: nat, uncertain: bool, availableAt: int, now: int): Outbox {
    if Locked(o, id, worker, now) then
      o.(rows := o.rows[id := o.rows[id].(status := if uncertain then Uncertain else RetryWait,
                                          availableAt := availableAt,
                                          claimedBy := None, lease := None)])
    else o
  }

  function Fail(o: Outbox, id: DeliveryId, worker: nat, now: int): Outbox {
    if Locked(o, id, worker, now) then
      Finalized(o.(rows := o.rows[id := o.rows[id].(status := Dead, done := true, lease := None)]), o.rows[id].note)
    else o
  }

  // ---- Invariants ----

  ghost predicate RowOk(o: Outbox, r: Row) {
    && r.note in o.notes
    && (r.done <==> !IsOpen(r.status))
    && (r.status.Accepted? <==> r.month.Some?)
  }

  function AcceptedIn(rows: map<DeliveryId, Row>, month: int): set<DeliveryId> {
    set id | id in rows && rows[id].status.Accepted? && rows[id].month == Some(month)
  }

  ghost predicate QuotaOk(o: Outbox) {
    forall m :: Used(o.quota, m) == |AcceptedIn(o.rows, m)|
  }

  /** A run is sending exactly while a delivery is open; afterwards its status is its outcome. */
  ghost predicate NoteOk(o: Outbox, n: NoteId) {
    n in o.notes ==>
      && (o.notes[n].status.Sending? <==> OpenRows(o.rows, n) != {})
      && (!o.notes[n].status.Sending? ==> o.notes[n].status == Outcome(o.rows, n, o.notes[n].partial))
  }

  ghost predicate Valid(o: Outbox) {
    && (forall id | id in o.rows :: RowOk(o, o.rows[id]))
    && QuotaOk(o)
    && (forall n :: NoteOk(o, n))
  }

  lemma OtherNotes(o: Outbox, rows: map<DeliveryId, Row>, id: DeliveryId, r: Row, n: NoteId)
    requires id in o.rows && r.note == o.rows[id].note && rows == o.rows[id := r] && n != r.note
    ensures OpenRows(rows, n) == OpenRows(o.rows, n)
    ensures forall s :: WithStatus(rows, n, s) == WithStatus(o.rows, n, s)
  {
  }

  /** Moving an open delivery to another open status changes nothing else. */
  lemma OpenMoveKeeps(o: Outbox, id: DeliveryId, r: Row)
    requires Valid(o) && id in o.rows && IsOpen(o.rows[id].status) && IsOpen(r.status)
    requires r.note == o.rows[id].note && r.done == o.rows[id].done && r.month == o.rows[id].month
    ensures Valid(o.(rows := o.rows[id := r]))
  {
    var after := o.(rows := o.rows[id := r]);
    forall m
      ensures Used(after.quota, m) == |AcceptedIn(after.rows, m)|
    {
      assert AcceptedIn(after.rows, m) == AcceptedIn(o.rows, m);
    }
    forall n
      ensures NoteOk(after, n)
    {
      assert NoteOk(o, n);
      assert OpenRows(after.rows, n) == OpenRows(o.rows, n);
      assert WithStatus(after.rows, n, Accepted) == WithStatus(o.rows, n, Accepted);
      assert WithStatus(after.rows, n, Dead) == WithStatus(o.rows, n, Dead);
    }
  }

  /** The last delivery of a run to close gives the run its status. */
  lemma FinalizeKeeps(o: Outbox, id: DeliveryId, r: Row, quota: map<int, nat>)
    requires Valid(o) && id in o.rows && IsOpen(o.rows[id].status) && !IsOpen(r.status)
    requires r.note == o.rows[id].note && r.done && (r.status.Accepted? <==> r.month.Some?)
    requires QuotaOk(Outbox(o.rows[id := r], quota, o.notes))
    ensures Valid(Finalized(Outbox(o.rows[id := r], quota, o.notes), r.note))
  {
    var mid := Outbox(o.rows[id := r], quota, o.notes);
    var after := Finalized(mid, r.note);
    forall n
      ensures NoteOk(after, n)
    {
      assert NoteOk(o, n);
      if n != r.note {
        OtherNotes(o, mid.rows, id, r, n);
      } else {
        assert id in OpenRows(o.rows, n);
        assert o.notes[n].status.Sending?;
      }
    }
  }

  lemma AcceptKeeps(o: Outbox, id: DeliveryId, worker: nat, now: int)
    requires Valid(o)
    ensures Valid(Accept(o, id, worker, now))
  {
    if Locked(o, id, worker, now) {
      var month := MonthOf(now);
      var r := o.rows[id].(status := Accepted, done := true, lease := None, month := Some(month));
      var quota := o.quota[month := Used(o.quota, month) + 1];
      assert RowOk(o, o.rows[id]);
      forall m
        ensures Used(quota, m) == |AcceptedIn(o.rows[id := r], m)|
      {
        AcceptCounts(o, id, r, month, m);
      }
      FinalizeKeeps(o, id, r, quota);
    }
  }

  lemma AcceptCounts(o: Outbox, id: DeliveryId, r: Row, month: int, m: int)
    requires QuotaOk(o) && id in o.rows && !o.rows[id].status.Accepted? && r.status.Accepted? && r.month == Some(month)
    ensures Used(o.quota[month := Used(o.quota, month) + 1], m) == |AcceptedIn(o.rows[id := r], m)|
  {
    assert AcceptedIn(o.rows[id := r], m) == AcceptedIn(o.rows, m) + if m == month then {id} else {};
    assert id !in AcceptedIn(o.rows, m);
  }

  lemma FailKeeps(o: Outbox, id: DeliveryId, worker: nat, now: int)
    requires Valid(o)
    ensures Valid(Fail(o, id, worker, now))
  {
    if Locked(o, id, worker, now) {
      var r := o.rows[id].(status := Dead, done := true, lease := None);
      assert RowOk(o, o.rows[id]);
      forall m
        ensures Used(o.quota, m) == |AcceptedIn(o.rows[id := r], m)|
      {
        assert AcceptedIn(o.rows[id := r], m) == AcceptedIn(o.rows, m);
      }
      FinalizeKeeps(o, id, r, o.quota);
    }
  }

  lemma InsertKeeps(o: Outbox, note: NoteId, ids: set<DeliveryId>, partial: bool, now: int)
    requires Valid(o)
    ensures Valid(Insert(o, note, ids, partial, now))
  {
    var after := Insert(o, note, ids, partial, now);
    if after != o {
      forall id | id in after.rows
        ensures RowOk(after, after.rows[id])
      {
        assert id in o.rows ==> RowOk(o, o.rows[id]);
      }
      forall m
        ensures Used(after.quota, m) == |AcceptedIn(after.rows, m)|
      {
        assert AcceptedIn(after.rows, m) == AcceptedIn(o.rows, m);
      }
      forall n
        ensures NoteOk(after, n)
      {
        InsertNoteOk(o, note, ids, partial, now, n);
      }
    }
  }

  lemma InsertNoteOk(o: Outbox, note: NoteId, ids: set<DeliveryId>, partial: bool, now: int, n: NoteId)
    requires Valid(o) && note !in o.notes && ids != {} && (forall id | id in ids :: id !in o.rows)
    ensures NoteOk(Insert(o, note, ids, partial, now), n)
  {
    var after := Insert(o, note, ids, partial, now);
    assert NoteOk(o, n);
    assert forall id | id in o.rows :: id !in ids && after.rows[id] == o.rows[id] && RowOk(o, o.rows[id]);
    if n == note {
      var id :| id in ids;
      assert id in OpenRows(after.rows, n);
    } else {
      assert RowsOf(after.rows, n) == RowsOf(o.rows, n);
      assert OpenRows(after.rows, n) == OpenRows(o.rows, n);
      assert WithStatus(after.rows, n, Accepted) == WithStatus(o.rows, n, Accepted);
      assert WithStatus(after.rows, n, Dead) == WithStatus(o.rows, n, Dead);
    }
  }

  // ---- The total over all months ----

  function SumOver(months: seq<int>, quota: map<int, nat>): nat {
    if months == [] then 0 else SumOver(months[..|months| - 1], quota) + Used(quota, months[|months| - 1])
  }

  function AcceptedRows(rows: map<DeliveryId, Row>): set<DeliveryId> {
    set id | id in rows && rows[id].status.Accepted?
  }

  function AcceptedWithin(rows: map<DeliveryId, Row>, months: set<int>): set<DeliveryId> {
    set id | id in rows && rows[id].status.Accepted? && rows[id].month.Some? && rows[id].month.value in months
  }

  lemma MonthAdds(rows: map<DeliveryId, Row>, months: set<int>, m: int)
    requires m !in months
    ensures |AcceptedWithin(rows, months + {m})| == |AcceptedWithin(rows, months)| + |AcceptedIn(rows, m)|
  {
    assert AcceptedWithin(rows, months + {m}) == AcceptedWithin(rows, months) + AcceptedIn(rows, m);
    assert AcceptedWithin(rows, months) !! AcceptedIn(rows, m);
  }

  lemma {:induction false} SumCounts(o: Outbox, months: seq<int>)
    requires QuotaOk(o) && Distinct(months)
    ensures SumOver(months, o.quota) == |AcceptedWithin(o.rows, Elements(months))|
  {
    if months == [] {
      assert AcceptedWithin(o.rows, Elements(months)) == {};
    } else {
      var front, m := months[..|months| - 1], months[|months| - 1];
      SumCounts(o, front);
      assert months == front + [m];
      assert Elements(months) == Elements(front) + {m};
      MonthAdds(o.rows, Elements(front), m);
      assert Used(o.quota, m) == |AcceptedIn(o.rows, m)|;
    }
  }

  /** The counts of all months with an entry add up to the number of accepted deliveries. */
  lemma QuotaIsConserved(o: Outbox, months: seq<int>)
    requires Valid(o) && Distinct(months) && Elements(months) == o.quota.Keys
    ensures SumOver(months, o.quota) == |AcceptedRows(o.rows)|
  {
    SumCounts(o, months);
    forall id | id in AcceptedRows(o.rows)
      ensures id in AcceptedWithin(o.rows, Elements(months))
    {
      assert RowOk(o, o.rows[id]);
      var m := o.rows[id].month.value;
      assert id in AcceptedIn(o.rows, m);
      assert Used(o.quota, m) == |AcceptedIn(o.rows, m)|;
    }
    assert AcceptedWithin(o.rows, Elements(months)) == AcceptedRows(o.rows);
  }

  // ---- The courier ----

  datatype Push = PushAccepted | PushRetryable(uncertain: bool, retryAfter: int) | PushRefused

  datatype Action =
    | DoAccept
    | DoRetry(uncertain: bool, delay: int)
    | DoFail

  /** Thirty seconds doubled for each attempt, at most fifteen minutes. */
  function RetryDelay(attempt: int): (delay: int)
    ensures 30 * SECOND <= delay <= 900 * SECOND
  {
    var delay := 30 * SECOND * Power(if attempt < 1 then 0 else attempt - 1);
    if delay > 900 * SECOND then 900 * SECOND else if delay < 30 * SECOND then 30 * SECOND else delay
  }

  lemma {:induction false} PowerGrows(a: nat, b: nat)
    requires a <= b
    ensures 1 <= Power(a) <= Power(b)
  {
    if a < b {
      PowerGrows(a, b - 1);
    } else if 0 < a {
      PowerGrows(a - 1, a - 1);
    }
  }

  /** Half a minute, one, two, four and eight minutes; from the sixth attempt on fifteen. */
  lemma RetryDelays(attempt: int)
    ensures 1 <= attempt <= 5 ==>
            RetryDelay(attempt) == 30 * SECOND * Power(attempt - 1) && RetryDelay(attempt) <= 480 * SECOND
    ensures 6 <= attempt ==> RetryDelay(attempt) == 900 * SECOND
    ensures attempt < 1 ==> RetryDelay(attempt) == 30 * SECOND
  {
    assert Power(1) == 2 && Power(2) == 4 && Power(3) == 8 && Power(4) == 16 && Power(5) == 32;
    if 6 <= attempt {
      PowerGrows(5, attempt - 1);
    } else if 1 <= attempt {
      PowerGrows(attempt - 1, 4);
      PowerGrows(0, attempt - 1);
    }
  }

  /** ProcessOne after the claim: reachable says that tenant and recipient are active. */
  function Decide(attempt: nat, reachable: bool, push: Push): Action {
    if !reachable then DoFail
    else
      match push
      case PushAccepted => DoAccept
      case PushRetryable(uncertain, retryAfter) =>
        if attempt >= 5 then DoFail else DoRetry(uncertain, if retryAfter <= 0 then RetryDelay(attempt) else retryAfter)
      case PushRefused => DoFail
  }

  datatype Courier = Idle | Carrying(id: DeliveryId, attempt: nat, since: int)

  /** retried holds the attempts of each delivery that ended in a retry. */
  datatype Post = Post(outbox: Outbox, couriers: map<nat, Courier>, retried: map<DeliveryId, set<nat>>)

  datatype Event =
    | Publish(note: NoteId, ids: set<DeliveryId>, partial: bool)
    | Pick(courier: nat, id: DeliveryId)
    | Settle(courier: nat, reachable: bool, push: Push)
    | Drop(courier: nat)

  datatype TimedEvent = TimedEvent(now: int, event: Event)

  function CourierOf(p: Post, c: nat): Courier {
    if c in p.couriers then p.couriers[c] else Idle
  }

  function RetriedOf(p: Post, id: DeliveryId): set<nat> {
    if id in p.retried then p.retried[id] else {}
  }

  /** The store call uses the time the courier read before it claimed. */
  function Settled(o: Outbox, k: Courier, worker: nat, a: Action): Outbox
    requires k.Carrying?
  {
    match a
    case DoAccept => Accept(o, k.id, worker, k.since)
    case DoRetry(uncertain, delay) => Retry(o, k.id, worker, uncertain, k.since + delay, k.since)
    case DoFail => Fail(o, k.id, worker, k.since)
  }

  function Next(workerOf: map<nat, nat>, p: Post, e: TimedEvent): Post {
    match e.event
    case Publish(note, ids, partial) => p.(outbox := Insert(p.outbox, note, ids, partial, e.now))
    case Drop(c) => p.(couriers := p.couriers[c := Idle])
    case Pick(c, id) =>
      if c in workerOf && CourierOf(p, c).Idle? && Claimable(p.outbox, id, e.now) then
        var after := Claim(p.outbox, id, workerOf[c], 60 * SECOND, e.now);
        p.(outbox := after, couriers := p.couriers[c := Carrying(id, after.rows[id].attempt, e.now)])
      else p
    case Settle(c, reachable, push) =>
      var k := CourierOf(p, c);
      if c in workerOf && k.Carrying? then
        var a := Decide(k.attempt, reachable, push);
        var after := Settled(p.outbox, k, workerOf[c], a);
        Post(after, p.couriers[c := Idle],
             if a.DoRetry? && after != p.outbox then p.retried[k.id := RetriedOf(p, k.id) + {k.attempt}] else p.retried)
      else p
  }

  function Play(workerOf: map<nat, nat>, p: Post, events: seq<TimedEvent>): Post {
    if events == [] then p else Next(workerOf, Play(workerOf, p, events[..|events| - 1]), events[|events| - 1])
  }

  const BEGIN: Post := Post(Outbox(map[], map[], map[]), map[], map[])

  ghost predicate CourierOk(p: Post, k: Courier) {
    k.Carrying? ==>
      && k.id in p.outbox.rows && 1 <= k.attempt <= p.outbox.rows[k.id].attempt
      && k.attempt !in RetriedOf(p, k.id)
  }

  ghost predicate RetriedOk(p: Post, id: DeliveryId) {
    && RetriedOf(p, id) <= {1, 2, 3, 4}
    && (forall a | a in RetriedOf(p, id) :: id in p.outbox.rows && a <= p.outbox.rows[id].attempt)
  }

  ghost predicate PostOk(p: Post) {
    && Valid(p.outbox)
    && (forall c | c in p.couriers :: CourierOk(p, p.couriers[c]))
    && (forall c, d | c in p.couriers && d in p.couriers && c != d && p.couriers[c].Carrying? && p.couriers[d].Carrying?
                      && p.couriers[c].id == p.couriers[d].id :: p.couriers[c].attempt != p.couriers[d].attempt)
    && (forall id :: RetriedOk(p, id))
  }

  /** Attempts do not fall, and a closed delivery is final. */
  ghost predicate Progress(a: Outbox, b: Outbox) {
    forall id | id in a.rows ::
      id in b.rows && a.rows[id].attempt <= b.rows[id].attempt
        && (!IsOpen(a.rows[id].status) ==> b.rows[id] == a.rows[id])
  }

  lemma SettledKeeps(o: Outbox, k: Courier, worker: nat, a: Action)
    requires Valid(o) && k.Carrying?
    ensures Valid(Settled(o, k, worker, a)) && Progress(o, Settled(o, k, worker, a))
  {
    match a
    case DoAccept => AcceptKeeps(o, k.id, worker, k.since);
    case DoFail => FailKeeps(o, k.id, worker, k.since);
    case DoRetry(uncertain, delay) =>
      if Locked(o, k.id, worker, k.since) {
        var after := Retry(o, k.id, worker, uncertain, k.since + delay, k.since);
        OpenMoveKeeps(o, k.id, after.rows[k.id]);
      }
  }

  lemma ClaimKeeps(o: Outbox, id: DeliveryId, worker: nat, length: int, now: int)
    requires Valid(o)
    ensures Valid(Claim(o, id, worker, length, now)) && Progress(o, Claim(o, id, worker, length, now))
  {
    if Claimable(o, id, now) {
      OpenMoveKeeps(o, id, Claim(o, id, worker, length, now).rows[id]);
    }
  }

  lemma ProgressKeeps(p: Post, o: Outbox)
    requires PostOk(p) && Valid(o) && Progress(p.outbox, o)
    ensures PostOk(p.(outbox := o))
  {
    var after := p.(outbox := o);
    forall c | c in after.couriers
      ensures CourierOk(after, after.couriers[c])
    {
      assert CourierOk(p, p.couriers[c]);
    }
    forall id
      ensures RetriedOk(after, id)
    {
      assert RetriedOk(p, id);
    }
  }

  lemma PickKeeps(p: Post, c: nat, id: DeliveryId, o: Outbox, now: int)
    requires PostOk(p) && Valid(o) && Progress(p.outbox, o) && CourierOf(p, c).Idle?
    requires id in p.outbox.rows && id in o.rows && o.rows[id].attempt == p.outbox.rows[id].attempt + 1
    ensures PostOk(p.(outbox := o, couriers := p.couriers[c := Carrying(id, o.rows[id].attempt, now)]))
  {
    ProgressKeeps(p, o);
    var after := p.(outbox := o, couriers := p.couriers[c := Carrying(id, o.rows[id].attempt, now)]);
    assert RetriedOk(p, id);
    forall x | x in after.couriers
      ensures CourierOk(after, after.couriers[x])
      ensures x != c && after.couriers[x].Carrying? && after.couriers[x].id == id ==>
              after.couriers[x].attempt < o.rows[id].attempt
    {
      if x != c {
        assert CourierOk(p, p.couriers[x]);
      }
    }
    forall x
      ensures RetriedOk(after, x)
    {
      assert RetriedOk(p.(outbox := o), x);
    }
  }

  lemma ReleaseKeeps(p: Post, c: nat)
    requires PostOk(p)
    ensures PostOk(p.(couriers := p.couriers[c := Idle]))
  {
    var after := p.(couriers := p.couriers[c := Idle]);
    forall x | x in after.couriers
      ensures CourierOk(after, after.couriers[x])
    {
      assert x != c ==> CourierOk(p, p.couriers[x]);
    }
    forall x
      ensures RetriedOk(after, x)
    {
      assert RetriedOk(p, x);
    }
  }

  /** A retry uses up the attempt its courier carried. */
  lemma RetryKeeps(p: Post, c: nat, o: Outbox)
    requires PostOk(p) && Valid(o) && Progress(p.outbox, o) && CourierOf(p, c).Carrying? && CourierOf(p, c).attempt < 5
    ensures var k := CourierOf(p, c);
            PostOk(Post(o, p.couriers[c := Idle], p.retried[k.id := RetriedOf(p, k.id) + {k.attempt}]))
  {
    var k := CourierOf(p, c);
    var after := Post(o, p.couriers[c := Idle], p.retried[k.id := RetriedOf(p, k.id) + {k.attempt}]);
    assert CourierOk(p, k);
    forall x | x in after.couriers
      ensures CourierOk(after, after.couriers[x])
    {
      assert x != c ==> CourierOk(p, p.couriers[x]);
    }
    forall id
      ensures RetriedOk(after, id)
    {
      assert RetriedOk(p, id);
    }
  }

  lemma InsertProgress(o: Outbox, note: NoteId, ids: set<DeliveryId>, partial: bool, now: int)
    ensures Progress(o, Insert(o, note, ids, partial, now))
  {
  }

  lemma NextKeeps(workerOf: map<nat, nat>, p: Post, e: TimedEvent)
    requires PostOk(p)
    ensures PostOk(Next(workerOf, p, e)) && Progress(p.outbox, Next(workerOf, p, e).outbox)
  {
    match e.event
    case Publish(note, ids, partial) =>
      InsertKeeps(p.outbox, note, ids, partial, e.now);
      InsertProgress(p.outbox, note, ids, partial, e.now);
      ProgressKeeps(p, Insert(p.outbox, note, ids, partial, e.now));
    case Drop(c) =>
      ReleaseKeeps(p, c);
    case Pick(c, id) =>
      if c in workerOf && CourierOf(p, c).Idle? && Claimable(p.outbox, id, e.now) {
        var after := Claim(p.outbox, id, workerOf[c], 60 * SECOND, e.now);
        ClaimKeeps(p.outbox, id, workerOf[c], 60 * SECOND, e.now);
        PickKeeps(p, c, id, after, e.now);
      }
    case Settle(c, reachable, push) =>
      var k := CourierOf(p, c);
      if c in workerOf && k.Carrying? {
        var a := Decide(k.attempt, reachable, push);
        var after := Settled(p.outbox, k, workerOf[c], a);
        SettledKeeps(p.outbox, k, workerOf[c], a);
        if a.DoRetry? && after != p.outbox {
          RetryKeeps(p, c, after);
        } else {
          ProgressKeeps(p, after);
          ReleaseKeeps(p.(outbox := after), c);
        }
      }
  }

  lemma {:induction false} PlayKeeps(workerOf: map<nat, nat>, p: Post, events: seq<TimedEvent>)
    requires PostOk(p)
    ensures PostOk(Play(workerOf, p, events)) && Progress(p.outbox, Play(workerOf, p, events).outbox)
  {
    if events != [] {
      var front := events[..|events| - 1];
      PlayKeeps(workerOf, p, front);
      NextKeeps(workerOf, Play(workerOf, p, front), events[|events| - 1]);
    }
  }

  lemma BeginOk()
    ensures PostOk(BEGIN)
  {
    assert forall m :: AcceptedIn(BEGIN.outbox.rows, m) == {};
  }

  // ---- Results over histories ----

  /**
   After every history the monthly counts add up to the accepted deliveries, and a run has left
   SENDING exactly when it has no open delivery, with the status its outcomes determine.
   */
  lemma OutboxAlwaysValid(workerOf: map<nat, nat>, events: seq<TimedEvent>, months: seq<int>, n: NoteId)
    requires Distinct(months) && Elements(months) == Play(workerOf, BEGIN, events).outbox.quota.Keys
    ensures var o := Play(workerOf, BEGIN, events).outbox;
            && SumOver(months, o.quota) == |AcceptedRows(o.rows)|
            && (n in o.notes ==>
                  if OpenRows(o.rows, n) != {} then o.notes[n].status == Sending
                  else o.notes[n].status == Outcome(o.rows, n, o.notes[n].partial))
  {
    BeginOk();
    PlayKeeps(workerOf, BEGIN, events);
    QuotaIsConserved(Play(workerOf, BEGIN, events).outbox, months);
    assert NoteOk(Play(workerOf, BEGIN, events).outbox, n);
  }

  /** A delivery that was accepted or given up stays as it is. */
  lemma ClosedDeliveryIsFinal(workerOf: map<nat, nat>, events: seq<TimedEvent>, more: seq<TimedEvent>, id: DeliveryId)
    requires var o := Play(workerOf, BEGIN, events).outbox; id in o.rows && !IsOpen(o.rows[id].status)
    ensures var p := Play(workerOf, BEGIN, events);
            id in Play(workerOf, p, more).outbox.rows && Play(workerOf, p, more).outbox.rows[id] == p.outbox.rows[id]
  {
    BeginOk();
    PlayKeeps(workerOf, BEGIN, events);
    PlayKeeps(workerOf, Play(workerOf, BEGIN, events), more);
  }

  /** The event is a retry of the delivery that takes effect. */
  predicate RetriesDelivery(workerOf: map<nat, nat>, p: Post, e: TimedEvent, id: DeliveryId) {
    && e.event.Settle? && e.event.courier in workerOf
    && var k := CourierOf(p, e.event.courier);
    && k.Carrying? && k.id == id && Decide(k.attempt, e.event.reachable, e.event.push).DoRetry?
    && Next(workerOf, p, e).outbox != p.outbox
  }

  function RetryCount(workerOf: map<nat, nat>, events: seq<TimedEvent>, id: DeliveryId): nat {
    if events == [] then 0
    else
      var front := events[..|events| - 1];
      RetryCount(workerOf, front, id) +
      if RetriesDelivery(workerOf, Play(workerOf, BEGIN, front), events[|events| - 1], id) then 1 else 0
  }

  lemma {:induction false} RetriesRecorded(workerOf: map<nat, nat>, events: seq<TimedEvent>, id: DeliveryId)
    ensures RetryCount(workerOf, events, id) == |RetriedOf(Play(workerOf, BEGIN, events), id)|
  {
    if events != [] {
      var front, e := events[..|events| - 1], events[|events| - 1];
      var p := Play(workerOf, BEGIN, front);
      RetriesRecorded(workerOf, front, id);
      BeginOk();
      PlayKeeps(workerOf, BEGIN, front);
      RetryRecorded(workerOf, p, e, id);
    }
  }

  lemma RetryRecorded(workerOf: map<nat, nat>, p: Post, e: TimedEvent, id: DeliveryId)
    requires PostOk(p)
    ensures |RetriedOf(Next(workerOf, p, e), id)|
            == |RetriedOf(p, id)| + if RetriesDelivery(workerOf, p, e, id) then 1 else 0
  {
    if RetriesDelivery(workerOf, p, e, id) {
      assert CourierOk(p, CourierOf(p, e.event.courier));
    }
  }

  /** Whatever the couriers do, a delivery is put back at most four times. */
  lemma AtMostFourRetries(workerOf: map<nat, nat>, events: seq<TimedEvent>, id: DeliveryId)
    ensures RetryCount(workerOf, events, id) <= 4
  {
    var p := Play(workerOf, BEGIN, events);
    BeginOk();
    PlayKeeps(workerOf, BEGIN, events);
    RetriesRecorded(workerOf, events, id);
    assert RetriedOk(p, id);
    SubsetSize(RetriedOf(p, id), {1, 2, 3, 4});
  }
}
