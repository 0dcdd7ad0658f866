/**
 From published deliveries to the end of SENDING: the pipeline and the delivery outbox together,
 with report workers, notification workers and couriers in any order.
 */
module Deliveries {
  import opened Options
  import opened Units
  import opened Catalog
  import opened ReportTables
  import opened ReportSteps
  import opened NotificationSteps
  import opened NotificationWork
  import opened Admission
  import opened ReportInvariants
  import opened ReportActions
  import opened Lanes
  import opened Pipeline
  import D = DeliveryOutbox
  import Couriers

  /** Delivery k of the pipeline is row k of the outbox, and occurrence i its run i. */
  datatype Whole = Whole(pipe: Pipe, post: D.Post)

  datatype Crew = Crew(workerOf: map<LaneId, WorkerId>, deskOf: map<nat, WorkerId>, courierOf: map<nat, nat>)

  /** partial is what Publish passes on about missing reports. */
  datatype Turn = Upstream(event: PipeEvent, partial: bool) | Downstream(errand: D.TimedEvent)

  function StatusOf(s: D.NoteStatus): OccurrenceStatus {
    match s
    case Sending => OccurrenceStatus.Sending
    case Completed => OccurrenceStatus.Completed
    case PartialFailed => OccurrenceStatus.PartialFailed
    case Failed => Closed
  }

  function NumbersFrom(n: nat, m: nat): (s: set<nat>)
    ensures forall k :: k in s <==> n <= k < m
  {
    if n < m then NumbersFrom(n, m - 1) + {m - 1} else {}
  }

  /** The deliveries an event adds are inserted into the outbox in the same transaction. */
  ghost function Upstreamed(cfg: Config, crew: Crew, w: Whole, e: PipeEvent, partial: bool): Whole {
    if e.move.Settled? then w
    else
      var pipe, n := PipeNext(cfg, crew.workerOf, crew.deskOf, w.pipe, e), |w.pipe.deliveries|;
      if |pipe.deliveries| <= n then w.(pipe := pipe)
      else
        var insertion := D.Publish(pipe.deliveries[n].occurrence, NumbersFrom(n, |pipe.deliveries|), partial);
        Whole(pipe, D.Next(crew.courierOf, w.post, D.TimedEvent(e.now, insertion)))
  }

  /** The run of the delivery a courier is about to settle. */
  function RunSettled(p: D.Post, e: D.TimedEvent): Option<nat> {
    if e.event.Settle? && D.CourierOf(p, e.event.courier).Carrying?
      && D.CourierOf(p, e.event.courier).id in p.outbox.rows
    then Some(p.outbox.rows[D.CourierOf(p, e.event.courier).id].note)
    else None
  }

  /** A settled delivery that was the last one open finalises its run in the same transaction. */
  ghost function Concluded(w: Whole, post: D.Post, run: Option<nat>): Whole {
    if run.Some? && run.value in post.outbox.notes && !post.outbox.notes[run.value].status.Sending? then
      var status := StatusOf(post.outbox.notes[run.value].status);
      Whole(WithDb(w.pipe, Finalize(w.pipe.world.db, run.value, status)), post)
    else w.(post := post)
  }

  ghost function Downstreamed(crew: Crew, w: Whole, e: D.TimedEvent): Whole {
    if e.event.Publish? then w else Concluded(w, D.Next(crew.courierOf, w.post, e), RunSettled(w.post, e))
  }

  ghost function TurnNext(cfg: Config, crew: Crew, w: Whole, t: Turn): Whole {
    match t
    case Upstream(e, partial) => Upstreamed(cfg, crew, w, e, partial)
    case Downstream(e) => Downstreamed(crew, w, e)
  }

  ghost function TurnAll(cfg: Config, crew: Crew, turns: seq<Turn>): Whole {
    if turns == [] then Whole(BEGIN, D.BEGIN)
    else TurnNext(cfg, crew, TurnAll(cfg, crew, turns[..|turns| - 1]), turns[|turns| - 1])
  }

  // ---- Only publishing starts SENDING, and only settling ends it ----

  /** Statuses past COLLECTING stay, and nothing becomes SENDING. */
  ghost predicate NoneSent(a: seq<Occurrence>, b: seq<Occurrence>) {
    && |a| <= |b|
    && (forall i | 0 <= i < |a| :: (!a[i].status.Collecting? ==> b[i].status == a[i].status)
                                   && (b[i].status.Sending? ==> a[i].status.Sending?))
    && (forall i | |a| <= i < |b| :: !b[i].status.Sending?)
  }

  lemma FailureSendsNothing(db: Db, counted: Db, id: RunId)
    requires id in counted.runs && counted.occurrences == db.occurrences
    ensures NoneSent(db.occurrences, AfterFailure(WithFailed(counted, id), id).occurrences)
  {
  }

  lemma {:induction false} RecoverySendsNothing(db: Db, ids: seq<RunId>, now: int)
    ensures NoneSent(db.occurrences, RecoverAll(db, ids, now).occurrences)
  {
    if ids != [] {
      var before, id := RecoverAll(db, ids[..|ids| - 1], now), ids[|ids| - 1];
      RecoverySendsNothing(db, ids[..|ids| - 1], now);
      if LeaseExpired(before.runs, id, now) && before.runs[id].status.Running? {
        var t := before.runs[id].info.tenant;
        var counted := WithCircuit(before, t, Uncertain(CircuitOf(before.circuits, t), now, now + 10 * MINUTE));
        FailureSendsNothing(before, counted, id);
      }
    }
  }

  lemma InsertsSendNothing(cfg: Config, db: Db, s: Step)
    requires Inserts(s.action)
    ensures NoneSent(db.occurrences, Apply(cfg, db, s).occurrences)
  {
    InsertsAdd(cfg, db, s);
    match s.action
    case DoEnqueue(_, _, _) =>
    case DoRefresh(_, _, _, _, _) =>
    case DoMaterialize(t, schedule, at, reports, next) =>
      assert Apply(cfg, db, s) == Materialize(db, t, schedule, at, reports, next, s.now);
    case DoBlock(t, schedule, at, w) =>
      assert Apply(cfg, db, s) == MaterializeBlocked(db, t, schedule, at, w, s.now);
  }

  lemma ReportsSendNothing(cfg: Config, db: Db, s: Step)
    requires !Notes(s.action)
    ensures NoneSent(db.occurrences, Apply(cfg, db, s).occurrences)
  {
    if Inserts(s.action) {
      InsertsSendNothing(cfg, db, s);
    } else if Fails(s.action) {
      var counted := FailIsFailure(cfg, db, s);
      if Apply(cfg, db, s) != db {
        FailureSendsNothing(db, counted, s.action.run);
      }
    } else if OneRow(s.action) {
      CallsAreRowSteps(cfg, db, s);
    } else {
      match s.action
      case DoRecover(ids) => RecoverySendsNothing(db, ids, s.now);
      case DoClaim(id, w, length, due) => assert Apply(cfg, db, s) == Claim(cfg, db, id, w, length, due, s.now);
      case DoComplete(id, w) => assert Apply(cfg, db, s) == Complete(cfg, db, id, w, s.now);
      case DoArchive(t) => assert Apply(cfg, db, s) == ArchiveQueue(db, t);
    }
  }

  lemma LanesCallReports(w: World, workerOf: map<LaneId, WorkerId>, e: Event)
    requires CallOf(w, workerOf, e).Some? && !NotesOnly(e)
    ensures !Notes(CallOf(w, workerOf, e).value)
  {
  }

  /** Without new deliveries nothing starts or stops sending. */
  lemma UpstreamSendsNothing(cfg: Config, crew: Crew, p: Pipe, e: PipeEvent)
    requires !e.move.Settled?
    requires var after := PipeNext(cfg, crew.workerOf, crew.deskOf, p, e); |after.deliveries| <= |p.deliveries|
    ensures NoneSent(p.world.db.occurrences, PipeNext(cfg, crew.workerOf, crew.deskOf, p, e).world.db.occurrences)
  {
    match e.move
    case Reports(event) =>
      if !NotesOnly(event) && CallOf(p.world, crew.workerOf, event).Some? {
        LanesCallReports(p.world, crew.workerOf, event);
        ReportsSendNothing(cfg, p.world.db, At(event.now, CallOf(p.world, crew.workerOf, event).value));
      }
    case Act(d, expected, renders, access) =>
      if d in crew.deskOf {
        ActSendsNothing(p, d, crew.deskOf[d], expected, renders, access);
      }
    case _ =>
  }

  lemma ActSendsNothing(p: Pipe, d: nat, worker: WorkerId, expected: map<ReportKey, Period>, renders: bool,
                        access: Access)
    requires |Acted(p, d, worker, expected, renders, access).deliveries| <= |p.deliveries|
    ensures NoneSent(p.world.db.occurrences, Acted(p, d, worker, expected, renders, access).world.db.occurrences)
  {
    var after := Acted(p, d, worker, expected, renders, access);
    if DeskOf(p, d).Deciding? {
      var work, at, db := p.desks[d].work, p.desks[d].at, p.world.db;
      var i := work.occurrence;
      match VerdictOn(work, expected, renders)
      case GiveUp(_) =>
        assert after.world.db == NoteFail(db, i, worker);
      case Later =>
        assert after.world.db == NoteDefer(db, i, worker, at + 5 * SECOND);
      case Send(prepared) =>
        if Publishable(db, i, worker, at) {
          var inserted := Inserted(db, i, access, prepared);
          assert after.deliveries == p.deliveries + inserted;
          assert after.world.db == NotePublish(db, i, worker, 0, at);
        }
    }
  }

  lemma OnlyActsPublish(cfg: Config, crew: Crew, p: Pipe, e: PipeEvent)
    requires |p.deliveries| < |PipeNext(cfg, crew.workerOf, crew.deskOf, p, e).deliveries|
    ensures e.move.Act? && e.move.desk in crew.deskOf
    ensures PipeNext(cfg, crew.workerOf, crew.deskOf, p, e)
            == Acted(p, e.move.desk, crew.deskOf[e.move.desk], e.move.expected, e.move.renders, e.move.access)
  {
  }

  /** New deliveries all belong to one occurrence, which goes from COLLECTING to SENDING; the others stay. */
  ghost predicate Publishes(p: Pipe, after: Pipe, i: nat) {
    var a, b := p.world.db.occurrences, after.world.db.occurrences;
    && p.deliveries < after.deliveries
    && (forall k | |p.deliveries| <= k < |after.deliveries| :: after.deliveries[k].occurrence == i)
    && i < |a| == |b| && a[i].status.Collecting? && b[i].status.Sending?
    && (forall j | 0 <= j < |a| && j != i :: b[j] == a[j])
  }

  lemma ActPublishes(cfg: Config, p: Pipe, d: nat, worker: WorkerId, expected: map<ReportKey, Period>, renders: bool,
                     access: Access)
    requires PipeInv(cfg, p) && |p.deliveries| < |Acted(p, d, worker, expected, renders, access).deliveries|
    ensures d in p.desks && p.desks[d].Deciding?
    ensures Publishes(p, Acted(p, d, worker, expected, renders, access), p.desks[d].work.occurrence)
  {
    var after, desk, db := Acted(p, d, worker, expected, renders, access), p.desks[d], p.world.db;
    var i, prepared := desk.work.occurrence, VerdictOn(desk.work, expected, renders).prepared;
    assert DeskOk(db, desk) && Publishable(db, i, worker, desk.at);
    PreparedAreTargets(desk.work, desk.work.targets);
    PublishedOk(db, i, access, prepared);
    var inserted := Inserted(db, i, access, prepared);
    assert after.deliveries == p.deliveries + inserted;
    assert forall k | 0 <= k < |inserted| :: inserted[k] in inserted;
    assert after.world.db == NotePublish(db, i, worker, |inserted|, desk.at);
  }

  lemma UpstreamPublishes(cfg: Config, crew: Crew, p: Pipe, e: PipeEvent)
    requires PipeInv(cfg, p) && |p.deliveries| < |PipeNext(cfg, crew.workerOf, crew.deskOf, p, e).deliveries|
    ensures var after := PipeNext(cfg, crew.workerOf, crew.deskOf, p, e);
            Publishes(p, after, after.deliveries[|p.deliveries|].occurrence)
  {
    OnlyActsPublish(cfg, crew, p, e);
    ActPublishes(cfg, p, e.move.desk, crew.deskOf[e.move.desk], e.move.expected, e.move.renders, e.move.access);
  }

  // ---- One picture ----

  /** Both sides agree on the deliveries and their occurrences. */
  ghost predicate SameDeliveries(w: Whole) {
    var ds, o := w.pipe.deliveries, w.post.outbox;
    && (forall k: nat :: k in o.rows <==> k < |ds|)
    && (forall k | 0 <= k < |ds| :: o.rows[k].note == ds[k].occurrence)
  }

  /** Both sides agree on the status of each published occurrence. */
  ghost predicate Matches(occurrences: seq<Occurrence>, notes: map<D.NoteId, D.Note>) {
    && (forall n | n in notes :: n < |occurrences| && occurrences[n].status == StatusOf(notes[n].status))
    && (forall i | 0 <= i < |occurrences| && occurrences[i].status.Sending? :: i in notes)
  }

  ghost predicate SameStatuses(w: Whole) {
    Matches(w.pipe.world.db.occurrences, w.post.outbox.notes)
  }

  ghost predicate Joined(w: Whole) {
    SameDeliveries(w) && SameStatuses(w)
  }

  ghost predicate WholeInv(cfg: Config, w: Whole) {
    PipeInv(cfg, w.pipe) && D.PostOk(w.post) && Joined(w)
  }

  lemma UpstreamKeeps(cfg: Config, crew: Crew, w: Whole, e: PipeEvent, partial: bool)
    requires WholeInv(cfg, w)
    ensures WholeInv(cfg, Upstreamed(cfg, crew, w, e, partial))
  {
    if !e.move.Settled? {
      PipeNextKeeps(cfg, crew.workerOf, crew.deskOf, w.pipe, e);
      UpstreamJoins(cfg, crew, w, e, partial);
      UpstreamPost(cfg, crew, w, e, partial);
    }
  }

  lemma UpstreamPost(cfg: Config, crew: Crew, w: Whole, e: PipeEvent, partial: bool)
    requires D.PostOk(w.post) && !e.move.Settled?
    ensures var after := Upstreamed(cfg, crew, w, e, partial);
            after.pipe == PipeNext(cfg, crew.workerOf, crew.deskOf, w.pipe, e) && D.PostOk(after.post)
  {
    var pipe, n := PipeNext(cfg, crew.workerOf, crew.deskOf, w.pipe, e), |w.pipe.deliveries|;
    if n < |pipe.deliveries| {
      var insertion := D.Publish(pipe.deliveries[n].occurrence, NumbersFrom(n, |pipe.deliveries|), partial);
      D.NextKeeps(crew.courierOf, w.post, D.TimedEvent(e.now, insertion));
    }
  }

  lemma UpstreamJoins(cfg: Config, crew: Crew, w: Whole, e: PipeEvent, partial: bool)
    requires PipeInv(cfg, w.pipe) && Joined(w) && !e.move.Settled?
    ensures Joined(Upstreamed(cfg, crew, w, e, partial))
  {
    var pipe, n := PipeNext(cfg, crew.workerOf, crew.deskOf, w.pipe, e), |w.pipe.deliveries|;
    if |pipe.deliveries| <= n {
      UpstreamSendsNothing(cfg, crew, w.pipe, e);
      DeliveriesStay(cfg, crew, w.pipe, e);
      QuietJoins(w, pipe);
    } else {
      var i := pipe.deliveries[n].occurrence;
      UpstreamPublishes(cfg, crew, w.pipe, e);
      PublishJoins(w, pipe, i, NumbersFrom(n, |pipe.deliveries|), partial, e.now);
    }
  }

  lemma DeliveriesStay(cfg: Config, crew: Crew, p: Pipe, e: PipeEvent)
    ensures p.deliveries <= PipeNext(cfg, crew.workerOf, crew.deskOf, p, e).deliveries
  {
  }

  lemma QuietJoins(w: Whole, pipe: Pipe)
    requires Joined(w) && pipe.deliveries == w.pipe.deliveries
    requires NoneSent(w.pipe.world.db.occurrences, pipe.world.db.occurrences)
    ensures Joined(w.(pipe := pipe))
  {
  }

  lemma PublishJoins(w: Whole, pipe: Pipe, i: nat, ids: set<nat>, partial: bool, now: int)
    requires Joined(w) && Publishes(w.pipe, pipe, i) && ids == NumbersFrom(|w.pipe.deliveries|, |pipe.deliveries|)
    ensures Joined(Whole(pipe, w.post.(outbox := D.Insert(w.post.outbox, i, ids, partial, now))))
  {
    assert |w.pipe.deliveries| in ids;
    PublishedDeliveries(w, pipe, i, ids, partial, now);
    PublishedStatuses(w, pipe, i, ids, partial, now);
  }

  lemma PublishedDeliveries(w: Whole, pipe: Pipe, i: nat, ids: set<nat>, partial: bool, now: int)
    requires Joined(w) && Publishes(w.pipe, pipe, i) && ids == NumbersFrom(|w.pipe.deliveries|, |pipe.deliveries|)
    requires ids != {}
    ensures SameDeliveries(Whole(pipe, w.post.(outbox := D.Insert(w.post.outbox, i, ids, partial, now))))
  {
    assert i !in w.post.outbox.notes;
    InsertedRows(w.post.outbox, i, ids, partial, now);
    assert forall k | 0 <= k < |w.pipe.deliveries| :: pipe.deliveries[k] == w.pipe.deliveries[k];
  }

  lemma PublishedStatuses(w: Whole, pipe: Pipe, i: nat, ids: set<nat>, partial: bool, now: int)
    requires Joined(w) && Publishes(w.pipe, pipe, i) && ids == NumbersFrom(|w.pipe.deliveries|, |pipe.deliveries|)
    requires ids != {}
    ensures SameStatuses(Whole(pipe, w.post.(outbox := D.Insert(w.post.outbox, i, ids, partial, now))))
  {
    assert i !in w.post.outbox.notes;
    InsertedRows(w.post.outbox, i, ids, partial, now);
  }

  lemma InsertedRows(o: D.Outbox, i: nat, ids: set<nat>, partial: bool, now: int)
    requires i !in o.notes && ids != {}
    requires forall k | k in ids :: k !in o.rows
    ensures var after := D.Insert(o, i, ids, partial, now);
            && after.rows.Keys == o.rows.Keys + ids
            && (forall k | k in o.rows :: after.rows[k] == o.rows[k])
            && (forall k | k in ids :: after.rows[k].note == i)
            && after.notes.Keys == o.notes.Keys + {i} && after.notes[i].status.Sending?
            && (forall x | x in o.notes :: after.notes[x] == o.notes[x])
  {
  }

  /** What a courier does leaves every run but the settled one alone, and ends no run it does not finalise. */
  lemma CourierFrame(courierOf: map<nat, nat>, p: D.Post, e: D.TimedEvent)
    requires D.PostOk(p) && !e.event.Publish?
    ensures var a, b := p.outbox, D.Next(courierOf, p, e).outbox;
            && b.rows.Keys == a.rows.Keys && (forall k | k in a.rows :: b.rows[k].note == a.rows[k].note)
            && b.notes.Keys == a.notes.Keys
            && (forall n | n in a.notes && b.notes[n] != a.notes[n] ::
                RunSettled(p, e) == Some(n) && a.notes[n].status.Sending?)
  {
    if e.event.Settle? && e.event.courier in courierOf && D.CourierOf(p, e.event.courier).Carrying? {
      var k := D.CourierOf(p, e.event.courier);
      assert D.CourierOk(p, k);
      var a := D.Decide(k.attempt, e.event.reachable, e.event.push);
      SettleFrame(p.outbox, k, courierOf[e.event.courier], a);
    }
  }

  lemma SettleFrame(o: D.Outbox, k: D.Courier, worker: nat, a: D.Action)
    requires D.Valid(o) && k.Carrying? && k.id in o.rows
    ensures var b := D.Settled(o, k, worker, a);
            && b.rows.Keys == o.rows.Keys && (forall x | x in o.rows :: b.rows[x].note == o.rows[x].note)
            && b.notes.Keys == o.notes.Keys
            && (forall n | n in o.notes && b.notes[n] != o.notes[n] ::
                n == o.rows[k.id].note && o.notes[n].status.Sending?)
  {
    var n := o.rows[k.id].note;
    assert D.RowOk(o, o.rows[k.id]) && D.NoteOk(o, n);
    if D.Locked(o, k.id, worker, k.since) {
      assert k.id in D.OpenRows(o.rows, n);
    }
  }

  lemma DownstreamKeeps(cfg: Config, crew: Crew, w: Whole, e: D.TimedEvent)
    requires WholeInv(cfg, w)
    ensures WholeInv(cfg, Downstreamed(crew, w, e))
  {
    if !e.event.Publish? {
      var post, run := D.Next(crew.courierOf, w.post, e), RunSettled(w.post, e);
      D.NextKeeps(crew.courierOf, w.post, e);
      CourierFrame(crew.courierOf, w.post, e);
      ConcludedJoins(w, post, run);
      ConcludedKeepsPipe(cfg, w, post, run);
    }
  }

  lemma ConcludedKeepsPipe(cfg: Config, w: Whole, post: D.Post, run: Option<nat>)
    requires PipeInv(cfg, w.pipe)
    ensures PipeInv(cfg, Concluded(w, post, run).pipe) && Concluded(w, post, run).post == post
  {
    if run.Some? && run.value in post.outbox.notes && !post.outbox.notes[run.value].status.Sending? {
      var after := Finalize(w.pipe.world.db, run.value, StatusOf(post.outbox.notes[run.value].status));
      NoteKeeps(cfg, w.pipe.world.db, after);
      NoteKeepsPipe(cfg, w.pipe, after);
    }
  }

  lemma ConcludedJoins(w: Whole, post: D.Post, run: Option<nat>)
    requires Joined(w)
    requires var a, b := w.post.outbox, post.outbox;
             && b.rows.Keys == a.rows.Keys && (forall k | k in a.rows :: b.rows[k].note == a.rows[k].note)
             && b.notes.Keys == a.notes.Keys
             && (forall n | n in a.notes && b.notes[n] != a.notes[n] :: run == Some(n) && a.notes[n].status.Sending?)
    ensures Joined(Concluded(w, post, run))
  {
    assert SameDeliveries(Concluded(w, post, run));
    ConcludedStatuses(w, post, run);
  }

  lemma ConcludedStatuses(w: Whole, post: D.Post, run: Option<nat>)
    requires SameStatuses(w)
    requires var a, b := w.post.outbox.notes, post.outbox.notes;
             && b.Keys == a.Keys
             && (forall n | n in a && b[n] != a[n] :: run == Some(n) && a[n].status.Sending?)
    ensures SameStatuses(Concluded(w, post, run))
  {
    var db, a, b := w.pipe.world.db, w.post.outbox.notes, post.outbox.notes;
    if run.Some? && run.value in b && !b[run.value].status.Sending? {
      FinalMatches(db, a, b, run.value);
    }
  }

  lemma FinalMatches(db: Db, a: map<D.NoteId, D.Note>, b: map<D.NoteId, D.Note>, i: nat)
    requires Matches(db.occurrences, a) && b.Keys == a.Keys && i in a && !b[i].status.Sending?
    requires forall n | n in a && b[n] != a[n] :: n == i && a[n].status.Sending?
    ensures Matches(Finalize(db, i, StatusOf(b[i].status)).occurrences, b)
  {
  }

  lemma WholeBeginOk(cfg: Config)
    ensures WholeInv(cfg, Whole(BEGIN, D.BEGIN))
  {
    Pipeline.BeginOk(cfg);
    D.BeginOk();
  }

  lemma TurnKeeps(cfg: Config, crew: Crew, w: Whole, t: Turn)
    requires WholeInv(cfg, w)
    ensures WholeInv(cfg, TurnNext(cfg, crew, w, t))
  {
    match t
    case Upstream(e, partial) => UpstreamKeeps(cfg, crew, w, e, partial);
    case Downstream(e) => DownstreamKeeps(cfg, crew, w, e);
  }

  lemma {:induction false} TurnsKeep(cfg: Config, crew: Crew, turns: seq<Turn>)
    ensures WholeInv(cfg, TurnAll(cfg, crew, turns))
  {
    if turns == [] {
      WholeBeginOk(cfg);
    } else {
      TurnsKeep(cfg, crew, turns[..|turns| - 1]);
      TurnKeeps(cfg, crew, TurnAll(cfg, crew, turns[..|turns| - 1]), turns[|turns| - 1]);
    }
  }

  /** The deliveries published for an occurrence. */
  function Published(w: Whole, i: nat): set<nat> {
    set k | 0 <= k < |w.pipe.deliveries| && w.pipe.deliveries[k].occurrence == i
  }

  /** The status of an occurrence whose deliveries are all over; FAILED is called Closed here. */
  ghost predicate EndsAs(w: Whole, i: nat, partial: bool, s: OccurrenceStatus) {
    var rows := w.post.outbox.rows;
    var accepted := exists k | k in Published(w, i) :: k in rows && rows[k].status == D.Accepted;
    var dead := exists k | k in Published(w, i) :: k in rows && rows[k].status == D.Dead;
    if accepted && dead then s == OccurrenceStatus.PartialFailed
    else if dead then s == Closed
    else s == if partial then OccurrenceStatus.PartialFailed else OccurrenceStatus.Completed
  }

  /**
   An occurrence with deliveries is SENDING exactly while one of them is open, and otherwise has
   the status their outcomes determine; one that is SENDING has deliveries.
   */
  ghost predicate StatusFollows(w: Whole, i: nat) {
    var occurrences, o := w.pipe.world.db.occurrences, w.post.outbox;
    && (forall k | k in Published(w, i) :: k in o.rows)
    && (Published(w, i) != {} ==>
          && i < |occurrences| && i in o.notes
          && (occurrences[i].status.Sending? <==> exists k | k in Published(w, i) :: D.IsOpen(o.rows[k].status))
          && (!occurrences[i].status.Sending? ==> EndsAs(w, i, o.notes[i].partial, occurrences[i].status)))
    && (i < |occurrences| && occurrences[i].status.Sending? ==> Published(w, i) != {})
  }

  lemma JoinedFollows(w: Whole, i: nat)
    requires Joined(w) && D.Valid(w.post.outbox)
    ensures StatusFollows(w, i)
  {
    var rows := w.post.outbox.rows;
    assert D.NoteOk(w.post.outbox, i);
    assert forall k :: k in D.OpenRows(rows, i) <==> k in Published(w, i) && D.IsOpen(rows[k].status);
    if Published(w, i) != {} {
      var k :| k in Published(w, i);
      assert D.RowOk(w.post.outbox, rows[k]);
      OutcomeEnds(w, i, w.post.outbox.notes[i].partial);
    }
  }

  lemma OutcomeEnds(w: Whole, i: nat, partial: bool)
    requires SameDeliveries(w)
    ensures EndsAs(w, i, partial, StatusOf(D.Outcome(w.post.outbox.rows, i, partial)))
  {
    var rows := w.post.outbox.rows;
    Couriers.OutcomeIsEnd(rows, i, partial);
    assert forall k | k in rows && rows[k].note == i :: k in Published(w, i);
  }

  /** So it is in every history of report workers, notification workers and couriers. */
  lemma SendingEndsWithDeliveries(cfg: Config, crew: Crew, turns: seq<Turn>, i: nat)
    ensures StatusFollows(TurnAll(cfg, crew, turns), i)
  {
    TurnsKeep(cfg, crew, turns);
    JoinedFollows(TurnAll(cfg, crew, turns), i);
  }
}
