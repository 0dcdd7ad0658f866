/**
 From a due schedule to its deliveries: report workers, and notification workers with the snapshot
 each decides by. Permissions may change between any two steps.
 */
module Pipeline {
  import opened Options
  import opened Units
  import opened Catalog
  import opened ReportTables
  import opened ReportSteps
  import opened NotificationSteps
  import opened NotificationWork
  import opened ReportInvariants
  import opened ReportActions
  import opened ReportTheorems
  import opened Lanes

  datatype Desk = Free | Deciding(work: Work, at: int)

  datatype Pipe = Pipe(world: World, desks: map<nat, Desk>, deliveries: seq<Delivery>)

  datatype PipeMove =
    | Reports(event: Event)
    | Pick(desk: nat, occurrence: nat, access: Access, dashboards: map<RunId, Stamp>)
    | Act(desk: nat, expected: map<ReportKey, Period>, renders: bool, access: Access)
    | Leave(desk: nat)
    | Settled(occurrence: nat, status: OccurrenceStatus)

  datatype PipeEvent = PipeEvent(now: int, move: PipeMove)

  // ---- Steps ----

  function DeskOf(p: Pipe, d: nat): Desk {
    if d in p.desks then p.desks[d] else Free
  }

  ghost function WithDb(p: Pipe, db: Db): Pipe {
    p.(world := p.world.(db := db))
  }

  predicate NotesOnly(e: Event) {
    e.move.Elsewhere? && Notes(e.move.action)
  }

  ghost function Released(p: Pipe, d: nat, db: Db): Pipe {
    WithDb(p, db).(desks := p.desks[d := Free])
  }

  ghost function Acted(p: Pipe, d: nat, worker: WorkerId, expected: map<ReportKey, Period>, renders: bool,
                       access: Access): Pipe {
    match DeskOf(p, d)
    case Free => p
    case Deciding(work, at) =>
      var i, db := work.occurrence, p.world.db;
      match VerdictOn(work, expected, renders)
      case GiveUp(_) => Released(p, d, NoteFail(db, i, worker))
      case Later => Released(p, d, NoteDefer(db, i, worker, at + 5 * SECOND))
      case Send(prepared) =>
        if Publishable(db, i, worker, at) then
          var inserted := Inserted(db, i, access, prepared);
          Released(p, d, NotePublish(db, i, worker, |inserted|, at)).(deliveries := p.deliveries + inserted)
        else Released(p, d, db)
  }

  ghost function Picked(p: Pipe, d: nat, worker: WorkerId, i: nat, access: Access, dashboards: map<RunId, Stamp>,
                        now: int): Pipe {
    var db := p.world.db;
    if DeskOf(p, d).Free? && Claimable(db, i, now) && db.occurrences[i].links != []
      && AscendingIds(access.recipients) then
      var after := NoteClaim(db, i, worker, MINUTE, now);
      WithDb(p, after).(desks := p.desks[d := Deciding(WorkOf(after, i, access, dashboards, now), now)])
    else p
  }

  ghost function PipeNext(cfg: Config, workerOf: map<LaneId, WorkerId>, deskOf: map<nat, WorkerId>, p: Pipe,
                          e: PipeEvent): Pipe {
    match e.move
    case Reports(event) => if NotesOnly(event) then p else p.(world := Next(cfg, workerOf, p.world, event))
    case Pick(d, i, access, dashboards) =>
      if d in deskOf then Picked(p, d, deskOf[d], i, access, dashboards, e.now) else p
    case Act(d, expected, renders, access) =>
      if d in deskOf then Acted(p, d, deskOf[d], expected, renders, access) else p
    case Leave(d) => p.(desks := p.desks[d := Free])
    case Settled(i, status) => WithDb(p, Finalize(p.world.db, i, status))
  }

  ghost function PipePlay(cfg: Config, workerOf: map<LaneId, WorkerId>, deskOf: map<nat, WorkerId>, p: Pipe,
                          events: seq<PipeEvent>): Pipe {
    if events == [] then p
    else PipeNext(cfg, workerOf, deskOf, PipePlay(cfg, workerOf, deskOf, p, events[..|events| - 1]),
                  events[|events| - 1])
  }

  const BEGIN: Pipe := Pipe(START, map[], [])

  // ---- Invariants ----

  /** A verdict to send covers all the links of the occurrence. */
  ghost predicate DeskOk(db: Db, desk: Desk) {
    desk.Deciding? ==>
      && desk.work.occurrence < |db.occurrences|
      && (forall t | t in desk.work.targets :: t.keys == Keys(db.occurrences[desk.work.occurrence].links))
      && (forall a, b | 0 <= a < b < |desk.work.targets| ::
          desk.work.targets[a].recipient < desk.work.targets[b].recipient)
  }

  /** Everything the recipient gets had succeeded, and was permitted. */
  ghost predicate DeliveryOk(db: Db, d: Delivery) {
    && d.occurrence < |db.occurrences|
    && var o := db.occurrences[d.occurrence];
    && !o.status.Collecting?
    && AllSucceeded(o.links, db.runs)
    && d.keys == Keys(o.links)
    && (forall k | k in d.keys :: k in d.granted)
  }

  ghost predicate OnePerRecipient(deliveries: seq<Delivery>) {
    forall a, b | 0 <= a < b < |deliveries| ::
      deliveries[a].occurrence != deliveries[b].occurrence || deliveries[a].recipient != deliveries[b].recipient
  }

  ghost predicate PipeInv(cfg: Config, p: Pipe) {
    && WorldInv(cfg, p.world)
    && (forall d | d in p.desks :: DeskOk(p.world.db, p.desks[d]))
    && (forall d | d in p.deliveries :: DeliveryOk(p.world.db, d))
    && OnePerRecipient(p.deliveries)
  }

  lemma EvolvedDeskOk(a: Db, b: Db, desk: Desk)
    requires DeskOk(a, desk) && Evolves(a, b)
    ensures DeskOk(b, desk)
  {
    if desk.Deciding? {
      assert OccurrenceStep(a.occurrences[desk.work.occurrence], b.occurrences[desk.work.occurrence]);
    }
  }

  lemma EvolvedDeliveryOk(a: Db, b: Db, d: Delivery)
    requires DeliveryOk(a, d) && Evolves(a, b)
    ensures DeliveryOk(b, d)
  {
    assert OccurrenceStep(a.occurrences[d.occurrence], b.occurrences[d.occurrence]);
  }

  lemma EvolveKeepsPipe(cfg: Config, p: Pipe, world: World)
    requires PipeInv(cfg, p) && WorldInv(cfg, world) && Evolves(p.world.db, world.db)
    ensures PipeInv(cfg, p.(world := world))
  {
    forall d | d in p.desks
      ensures DeskOk(world.db, p.desks[d])
    {
      EvolvedDeskOk(p.world.db, world.db, p.desks[d]);
    }
    forall d | d in p.deliveries
      ensures DeliveryOk(world.db, d)
    {
      EvolvedDeliveryOk(p.world.db, world.db, d);
    }
  }

  /** Notification steps leave the runs alone, and so the report lanes. */
  lemma NoteKeepsWorld(cfg: Config, w: World, db: Db)
    requires WorldInv(cfg, w) && Inv(cfg, db) && Moves(w.db, db) && db.runs == w.db.runs
    ensures WorldInv(cfg, w.(db := db)) && Evolves(w.db, db)
  {
    AdvanceKeepsLanes(w, db);
    MovesEvolve(cfg, w.db, db);
  }

  lemma NoteKeepsPipe(cfg: Config, p: Pipe, db: Db)
    requires PipeInv(cfg, p) && Inv(cfg, db) && Moves(p.world.db, db) && db.runs == p.world.db.runs
    ensures PipeInv(cfg, WithDb(p, db))
  {
    NoteKeepsWorld(cfg, p.world, db);
    EvolveKeepsPipe(cfg, p, p.world.(db := db));
  }

  lemma {:induction false} CountedAll(links: seq<Link>, runs: map<RunId, Run>, access: Access, recipient: RecipientId,
                                      keys: seq<ReportKey>)
    ensures PermissionCount(links, runs, access, recipient, keys) <= |links|
    ensures PermissionCount(links, runs, access, recipient, keys) == |links| ==>
              AllSucceeded(links, runs) && forall l | l in links :: (recipient, l.key) in access.granted
  {
    if links != [] {
      var front, l := links[..|links| - 1], links[|links| - 1];
      CountedAll(front, runs, access, recipient, keys);
      assert links == front + [l];
    }
  }

  /** What Publish inserts belongs to the occurrence, is complete and was permitted. */
  lemma {:induction false} PublishedOk(db: Db, i: nat, access: Access, prepared: seq<Prepared>)
    requires i < |db.occurrences|
    requires forall p | p in prepared :: p.keys == Keys(db.occurrences[i].links)
    requires forall a, b | 0 <= a < b < |prepared| :: prepared[a].recipient < prepared[b].recipient
    ensures forall d | d in Inserted(db, i, access, prepared) ::
              && d.occurrence == i && d.keys == Keys(db.occurrences[i].links)
              && AllSucceeded(db.occurrences[i].links, db.runs) && (forall k | k in d.keys :: k in d.granted)
              && exists p :: p in prepared && p.recipient == d.recipient
    ensures forall a, b | 0 <= a < b < |Inserted(db, i, access, prepared)| ::
              Inserted(db, i, access, prepared)[a].recipient < Inserted(db, i, access, prepared)[b].recipient
  {
    if prepared != [] {
      var front, p := prepared[..|prepared| - 1], prepared[|prepared| - 1];
      PublishedOk(db, i, access, front);
      assert prepared == front + [p];
      if Entitled(db, i, access, p) {
        EntitledSeesAll(db, i, access, p);
      }
    }
  }

  lemma EntitledSeesAll(db: Db, i: nat, access: Access, p: Prepared)
    requires i < |db.occurrences| && p.keys == Keys(db.occurrences[i].links) && Entitled(db, i, access, p)
    ensures AllSucceeded(db.occurrences[i].links, db.runs)
    ensures forall k | k in p.keys :: k in GrantedTo(access, p.recipient)
  {
    var links := db.occurrences[i].links;
    CountedAll(links, db.runs, access, p.recipient, p.keys);
    forall k | k in p.keys
      ensures (p.recipient, k) in access.granted
    {
      var j :| 0 <= j < |links| && Keys(links)[j] == k;
      assert links[j] in links;
    }
  }

  lemma PublishKeeps(cfg: Config, p: Pipe, d: nat, worker: WorkerId, access: Access, prepared: seq<Prepared>)
    requires PipeInv(cfg, p) && d in p.desks && p.desks[d].Deciding?
    requires var i := p.desks[d].work.occurrence;
             && Publishable(p.world.db, i, worker, p.desks[d].at)
             && (forall x | x in prepared :: x.keys == Keys(p.world.db.occurrences[i].links))
             && (forall a, b | 0 <= a < b < |prepared| :: prepared[a].recipient < prepared[b].recipient)
    ensures var i, db := p.desks[d].work.occurrence, p.world.db;
            var inserted := Inserted(db, i, access, prepared);
            var after := NotePublish(db, i, worker, |inserted|, p.desks[d].at);
            PipeInv(cfg, Released(p, d, after).(deliveries := p.deliveries + inserted))
  {
    var i, db := p.desks[d].work.occurrence, p.world.db;
    var inserted := Inserted(db, i, access, prepared);
    var after := NotePublish(db, i, worker, |inserted|, p.desks[d].at);
    NoteKeeps(cfg, db, after);
    NoteKeepsPipe(cfg, p, after);
    PublishedOk(db, i, access, prepared);
    forall x | x in inserted
      ensures DeliveryOk(after, x)
    {
    }
    NoneYet(p.world.db, p.deliveries, i);
    assert forall a | 0 <= a < |p.deliveries| :: p.deliveries[a] in p.deliveries;
    assert forall a | 0 <= a < |inserted| :: inserted[a] in inserted;
  }

  lemma NoneYet(db: Db, deliveries: seq<Delivery>, i: nat)
    requires forall d | d in deliveries :: DeliveryOk(db, d)
    requires i < |db.occurrences| && db.occurrences[i].status.Collecting?
    ensures forall d | d in deliveries :: d.occurrence != i
  {
  }

  lemma FreeKeeps(cfg: Config, p: Pipe, d: nat)
    requires PipeInv(cfg, p)
    ensures PipeInv(cfg, p.(desks := p.desks[d := Free]))
  {
  }

  lemma ReleaseKeeps(cfg: Config, p: Pipe, d: nat, db: Db)
    requires PipeInv(cfg, p) && Inv(cfg, db) && Moves(p.world.db, db) && db.runs == p.world.db.runs
    ensures PipeInv(cfg, Released(p, d, db))
  {
    NoteKeepsPipe(cfg, p, db);
    FreeKeeps(cfg, WithDb(p, db), d);
  }

  lemma MovesRefl(db: Db)
    ensures Moves(db, db)
  {
  }

  lemma SendKeeps(cfg: Config, p: Pipe, d: nat, worker: WorkerId, expected: map<ReportKey, Period>, renders: bool,
                  access: Access)
    requires PipeInv(cfg, p) && d in p.desks && p.desks[d].Deciding?
             && VerdictOn(p.desks[d].work, expected, renders).Send?
    ensures PipeInv(cfg, Acted(p, d, worker, expected, renders, access))
    ensures OccurrencesStep(p.world.db.occurrences, Acted(p, d, worker, expected, renders, access).world.db.occurrences)
  {
    var work, at, db := p.desks[d].work, p.desks[d].at, p.world.db;
    var i, prepared := work.occurrence, VerdictOn(work, expected, renders).prepared;
    MovesRefl(db);
    if Publishable(db, i, worker, at) {
      PreparedAreTargets(work, work.targets);
      assert DeskOk(db, p.desks[d]);
      PublishKeeps(cfg, p, d, worker, access, prepared);
    } else {
      ReleaseKeeps(cfg, p, d, db);
    }
  }

  lemma ActKeeps(cfg: Config, p: Pipe, d: nat, worker: WorkerId, expected: map<ReportKey, Period>, renders: bool,
                 access: Access)
    requires PipeInv(cfg, p)
    ensures PipeInv(cfg, Acted(p, d, worker, expected, renders, access))
    ensures OccurrencesStep(p.world.db.occurrences, Acted(p, d, worker, expected, renders, access).world.db.occurrences)
  {
    if DeskOf(p, d).Deciding? {
      var work, at, db := p.desks[d].work, p.desks[d].at, p.world.db;
      var i := work.occurrence;
      MovesRefl(db);
      match VerdictOn(work, expected, renders)
      case GiveUp(_) =>
        assert Acted(p, d, worker, expected, renders, access) == Released(p, d, NoteFail(db, i, worker));
        NoteKeeps(cfg, db, NoteFail(db, i, worker));
        ReleaseKeeps(cfg, p, d, NoteFail(db, i, worker));
      case Later =>
        assert Acted(p, d, worker, expected, renders, access)
          == Released(p, d, NoteDefer(db, i, worker, at + 5 * SECOND));
        NoteKeeps(cfg, db, NoteDefer(db, i, worker, at + 5 * SECOND));
        ReleaseKeeps(cfg, p, d, NoteDefer(db, i, worker, at + 5 * SECOND));
      case Send(prepared) =>
        SendKeeps(cfg, p, d, worker, expected, renders, access);
    } else {
      MovesRefl(p.world.db);
    }
  }

  /** A desk that has just loaded its work covers all links. */
  lemma LoadedDeskOk(db: Db, i: nat, access: Access, dashboards: map<RunId, Stamp>, now: int)
    requires i < |db.occurrences| && AscendingIds(access.recipients)
    ensures DeskOk(db, Deciding(WorkOf(db, i, access, dashboards, now), now))
  {
    TargetsAreComplete(access.recipients, db.occurrences[i].links, db.runs, access, now);
  }

  lemma DeskKeeps(cfg: Config, p: Pipe, d: nat, desk: Desk)
    requires PipeInv(cfg, p) && DeskOk(p.world.db, desk)
    ensures PipeInv(cfg, p.(desks := p.desks[d := desk]))
  {
  }

  lemma PickKeeps(cfg: Config, p: Pipe, d: nat, worker: WorkerId, i: nat, access: Access,
                  dashboards: map<RunId, Stamp>, now: int)
    requires PipeInv(cfg, p)
    ensures PipeInv(cfg, Picked(p, d, worker, i, access, dashboards, now))
    ensures OccurrencesStep(p.world.db.occurrences,
                            Picked(p, d, worker, i, access, dashboards, now).world.db.occurrences)
  {
    var db := p.world.db;
    MovesRefl(db);
    if DeskOf(p, d).Free? && Claimable(db, i, now) && db.occurrences[i].links != [] && AscendingIds(access.recipients) {
      var after := NoteClaim(db, i, worker, MINUTE, now);
      NoteKeeps(cfg, db, after);
      NoteKeepsPipe(cfg, p, after);
      LoadedDeskOk(after, i, access, dashboards, now);
      DeskKeeps(cfg, WithDb(p, after), d, Deciding(WorkOf(after, i, access, dashboards, now), now));
    }
  }

  lemma PipeNextKeeps(cfg: Config, workerOf: map<LaneId, WorkerId>, deskOf: map<nat, WorkerId>, p: Pipe, e: PipeEvent)
    requires PipeInv(cfg, p)
    ensures PipeInv(cfg, PipeNext(cfg, workerOf, deskOf, p, e))
    ensures OccurrencesStep(p.world.db.occurrences, PipeNext(cfg, workerOf, deskOf, p, e).world.db.occurrences)
  {
    MovesRefl(p.world.db);
    match e.move
    case Reports(event) =>
      ReportsKeep(cfg, workerOf, p, event);
    case Pick(d, i, access, dashboards) =>
      if d in deskOf {
        PickKeeps(cfg, p, d, deskOf[d], i, access, dashboards, e.now);
      }
    case Act(d, expected, renders, access) =>
      if d in deskOf {
        ActKeeps(cfg, p, d, deskOf[d], expected, renders, access);
      }
    case Leave(d) =>
      FreeKeeps(cfg, p, d);
    case Settled(i, status) =>
      SettledKeeps(cfg, p, i, status);
  }

  lemma ReportsKeep(cfg: Config, workerOf: map<LaneId, WorkerId>, p: Pipe, event: Event)
    requires PipeInv(cfg, p)
    ensures var world := Next(cfg, workerOf, p.world, event);
            PipeInv(cfg, p.(world := world)) && OccurrencesStep(p.world.db.occurrences, world.db.occurrences)
  {
    NextKeeps(cfg, workerOf, p.world, event);
    EvolveKeepsPipe(cfg, p, Next(cfg, workerOf, p.world, event));
  }

  lemma SettledKeeps(cfg: Config, p: Pipe, i: nat, status: OccurrenceStatus)
    requires PipeInv(cfg, p)
    ensures var db := Finalize(p.world.db, i, status);
            PipeInv(cfg, WithDb(p, db)) && OccurrencesStep(p.world.db.occurrences, db.occurrences)
  {
    NoteKeeps(cfg, p.world.db, Finalize(p.world.db, i, status));
    NoteKeepsPipe(cfg, p, Finalize(p.world.db, i, status));
  }

  lemma {:induction false} PipePlayKeeps(cfg: Config, workerOf: map<LaneId, WorkerId>, deskOf: map<nat, WorkerId>,
                                         p: Pipe, events: seq<PipeEvent>)
    requires PipeInv(cfg, p)
    ensures PipeInv(cfg, PipePlay(cfg, workerOf, deskOf, p, events))
  {
    if events != [] {
      var front := events[..|events| - 1];
      PipePlayKeeps(cfg, workerOf, deskOf, p, front);
      PipeNextKeeps(cfg, workerOf, deskOf, PipePlay(cfg, workerOf, deskOf, p, front), events[|events| - 1]);
    }
  }

  lemma BeginOk(cfg: Config)
    ensures PipeInv(cfg, BEGIN)
  {
    StartOk(cfg);
  }

  // ---- All or nothing ----

  /**
   In every reachable state a delivery covers all linked reports of its occurrence, every one of
   them SUCCEEDED and permitted to the recipient when it was published, and no recipient has a
   second delivery for the occurrence.
   */
  lemma AllOrNothing(cfg: Config, workerOf: map<LaneId, WorkerId>, deskOf: map<nat, WorkerId>, events: seq<PipeEvent>,
                     a: nat)
    requires a < |PipePlay(cfg, workerOf, deskOf, BEGIN, events).deliveries|
    ensures var p := PipePlay(cfg, workerOf, deskOf, BEGIN, events);
            var d := p.deliveries[a];
            && d.occurrence < |p.world.db.occurrences|
            && var links := p.world.db.occurrences[d.occurrence].links;
            && AllSucceeded(links, p.world.db.runs)
            && d.keys == Keys(links) && (forall k | k in d.keys :: k in d.granted)
            && (forall b | 0 <= b < |p.deliveries| && b != a ::
                  p.deliveries[b].occurrence != d.occurrence || p.deliveries[b].recipient != d.recipient)
  {
    var p := PipePlay(cfg, workerOf, deskOf, BEGIN, events);
    BeginOk(cfg);
    PipePlayKeeps(cfg, workerOf, deskOf, BEGIN, events);
    assert p.deliveries[a] in p.deliveries && DeliveryOk(p.world.db, p.deliveries[a]);
  }

  /** The step inserts deliveries of the occurrence. */
  ghost predicate PublishesFor(cfg: Config, workerOf: map<LaneId, WorkerId>, deskOf: map<nat, WorkerId>, p: Pipe,
                               e: PipeEvent, i: nat) {
    exists k :: |p.deliveries| <= k < |PipeNext(cfg, workerOf, deskOf, p, e).deliveries|
                && PipeNext(cfg, workerOf, deskOf, p, e).deliveries[k].occurrence == i
  }

  lemma ActingLeavesCollecting(cfg: Config, p: Pipe, d: nat, worker: WorkerId, expected: map<ReportKey, Period>,
                               renders: bool, access: Access, k: nat)
    requires PipeInv(cfg, p)
    requires |p.deliveries| <= k < |Acted(p, d, worker, expected, renders, access).deliveries|
    ensures var after := Acted(p, d, worker, expected, renders, access);
            var i := after.deliveries[k].occurrence;
            && i < |p.world.db.occurrences| && p.world.db.occurrences[i].status.Collecting?
            && after.world.db.occurrences[i].status.Sending?
  {
    var work, at, db := p.desks[d].work, p.desks[d].at, p.world.db;
    var prepared := VerdictOn(work, expected, renders).prepared;
    assert DeskOk(db, p.desks[d]) && Publishable(db, work.occurrence, worker, at);
    PreparedAreTargets(work, work.targets);
    PublishedOk(db, work.occurrence, access, prepared);
    var inserted := Inserted(db, work.occurrence, access, prepared);
    var after := Acted(p, d, worker, expected, renders, access);
    assert after.deliveries == p.deliveries + inserted;
    assert after.world.db == NotePublish(db, work.occurrence, worker, |inserted|, at);
    assert inserted[k - |p.deliveries|] in inserted;
  }

  lemma PublishingLeavesCollecting(cfg: Config, workerOf: map<LaneId, WorkerId>, deskOf: map<nat, WorkerId>, p: Pipe,
                                   e: PipeEvent, i: nat)
    requires PipeInv(cfg, p) && PublishesFor(cfg, workerOf, deskOf, p, e, i)
    ensures i < |p.world.db.occurrences| && p.world.db.occurrences[i].status.Collecting?
    ensures PipeNext(cfg, workerOf, deskOf, p, e).world.db.occurrences[i].status.Sending?
  {
    var after := PipeNext(cfg, workerOf, deskOf, p, e);
    var k :| |p.deliveries| <= k < |after.deliveries| && after.deliveries[k].occurrence == i;
    assert e.move.Act? && e.move.desk in deskOf;
    ActingLeavesCollecting(cfg, p, e.move.desk, deskOf[e.move.desk], e.move.expected, e.move.renders, e.move.access, k);
  }

  lemma {:induction false} LeftForGood(cfg: Config, workerOf: map<LaneId, WorkerId>, deskOf: map<nat, WorkerId>,
                                       p: Pipe, more: seq<PipeEvent>, i: nat)
    requires PipeInv(cfg, p) && i < |p.world.db.occurrences| && !p.world.db.occurrences[i].status.Collecting?
    ensures var later := PipePlay(cfg, workerOf, deskOf, p, more).world.db;
            i < |later.occurrences| && !later.occurrences[i].status.Collecting?
  {
    if more != [] {
      var front := more[..|more| - 1];
      var before := PipePlay(cfg, workerOf, deskOf, p, front);
      LeftForGood(cfg, workerOf, deskOf, p, front, i);
      PipePlayKeeps(cfg, workerOf, deskOf, p, front);
      StepLeavesForGood(cfg, workerOf, deskOf, before, more[|more| - 1], i);
    }
  }

  lemma StepLeavesForGood(cfg: Config, workerOf: map<LaneId, WorkerId>, deskOf: map<nat, WorkerId>, p: Pipe,
                          e: PipeEvent, i: nat)
    requires PipeInv(cfg, p) && i < |p.world.db.occurrences| && !p.world.db.occurrences[i].status.Collecting?
    ensures var after := PipeNext(cfg, workerOf, deskOf, p, e).world.db;
            i < |after.occurrences| && !after.occurrences[i].status.Collecting?
  {
    PipeNextKeeps(cfg, workerOf, deskOf, p, e);
    assert OccurrenceStep(p.world.db.occurrences[i], PipeNext(cfg, workerOf, deskOf, p, e).world.db.occurrences[i]);
  }

  /**
   Publishing happens from COLLECTING and leaves it for good: an occurrence that has been
   published once, or that has failed, never gets another delivery.
   */
  lemma PublishedAtMostOnce(cfg: Config, workerOf: map<LaneId, WorkerId>, deskOf: map<nat, WorkerId>,
                            events: seq<PipeEvent>,
                            more: seq<PipeEvent>, e: PipeEvent, i: nat)
    requires var p := PipePlay(cfg, workerOf, deskOf, BEGIN, events);
             i < |p.world.db.occurrences| && !p.world.db.occurrences[i].status.Collecting?
    ensures !PublishesFor(cfg, workerOf, deskOf,
                          PipePlay(cfg, workerOf, deskOf, PipePlay(cfg, workerOf, deskOf, BEGIN, events), more), e, i)
  {
    var p := PipePlay(cfg, workerOf, deskOf, BEGIN, events);
    var later := PipePlay(cfg, workerOf, deskOf, p, more);
    BeginOk(cfg);
    PipePlayKeeps(cfg, workerOf, deskOf, BEGIN, events);
    PipePlayKeeps(cfg, workerOf, deskOf, p, more);
    LeftForGood(cfg, workerOf, deskOf, p, more, i);
    if PublishesFor(cfg, workerOf, deskOf, later, e, i) {
      PublishingLeavesCollecting(cfg, workerOf, deskOf, later, e, i);
    }
  }
}
