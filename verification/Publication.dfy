/**
 A dashboard generation follows its runs: it is published by the completion of its last run, broken
 by the first failure, and building otherwise.
 */
module Publication {
  import opened Options
  import opened Units
  import opened Catalog
  import opened ReportTables
  import opened ReportSteps
  import opened NotificationSteps
  import opened Admission
  import opened ReportInvariants
  import opened ReportActions
  import opened ReportTheorems

  predicate Is(runs: map<RunId, Run>, l: Link, status: Status) {
    l.run in runs && runs[l.run].status == status
  }

  /** The positions of the links whose run has succeeded. */
  function SucceededAt(links: seq<Link>, runs: map<RunId, Run>): set<nat> {
    set k | 0 <= k < |links| && Is(runs, links[k], Succeeded)
  }

  ghost predicate Follows(g: Generation, runs: map<RunId, Run>) {
    && (g.status == Building ==>
          && (exists l | l in g.links :: !Is(runs, l, Succeeded))
          && (forall l | l in g.links :: l.run in runs && !Is(runs, l, Failed))
          && g.completed == |SucceededAt(g.links, runs)| && g.failed == 0)
    && (g.status == Published ==> forall l | l in g.links :: Is(runs, l, Succeeded))
    && (g.status == Broken ==> exists l | l in g.links :: Is(runs, l, Failed) || Is(runs, l, Cancelled))
  }

  ghost predicate AllFollow(runs: map<RunId, Run>, generations: seq<Generation>) {
    forall i | 0 <= i < |generations| :: Follows(generations[i], runs)
  }

  // ---- Counting ----

  lemma {:induction false} CountIsSize(links: seq<Link>, runs: map<RunId, Run>)
    ensures CountIn(links, runs, {Succeeded}) == |SucceededAt(links, runs)|
  {
    if links == [] {
      assert SucceededAt(links, runs) == {};
    } else {
      var n := |links| - 1;
      CountIsSize(links[..n], runs);
      assert SucceededAt(links, runs) == SucceededAt(links[..n], runs)
             + if Is(runs, links[n], Succeeded) then {n} else {};
    }
  }

  lemma {:induction false} CountIsZero(links: seq<Link>, runs: map<RunId, Run>)
    ensures CountIn(links, runs, {Failed, Cancelled}) == 0 <==>
              forall l | l in links :: !Is(runs, l, Failed) && !Is(runs, l, Cancelled)
  {
    if links != [] {
      var front, last := links[..|links| - 1], links[|links| - 1];
      CountIsZero(front, runs);
      assert links == front + [last];
      assert last in links && forall l | l in front :: l in links;
    }
  }

  lemma {:induction false} CountIsAll(links: seq<Link>, runs: map<RunId, Run>)
    ensures CountIn(links, runs, {Succeeded}) <= |links|
    ensures CountIn(links, runs, {Succeeded}) == |links| <==> forall l | l in links :: Is(runs, l, Succeeded)
  {
    if links != [] {
      var front, last := links[..|links| - 1], links[|links| - 1];
      CountIsAll(front, runs);
      assert links == front + [last];
      assert last in links && forall l | l in front :: l in links;
    }
  }

  lemma RecountedFollows(g: Generation, runs: map<RunId, Run>)
    requires LinksOk(g.links, runs, g.key.tenant) && |g.links| == g.total
    ensures Follows(Recounted(g, runs), runs)
    ensures (forall l | l in g.links :: Is(runs, l, Succeeded)) ==> Recounted(g, runs).status == Published
  {
    CountIsZero(g.links, runs);
    CountIsAll(g.links, runs);
    CountIsSize(g.links, runs);
  }

  // ---- What one run may do to the others ----

  /** No other run has succeeded or failed, and what has ended stays ended. */
  ghost predicate OnlyEnds(a: map<RunId, Run>, b: map<RunId, Run>, id: RunId) {
    forall x | x in a :: x in b && (Terminal(a[x]) ==> b[x] == a[x])
      && (x != id ==> (b[x].status in {Succeeded, Failed} ==> b[x].status == a[x].status))
  }

  lemma SpectatorFollows(g: Generation, a: map<RunId, Run>, b: map<RunId, Run>, id: RunId)
    requires Follows(g, a) && OnlyEnds(a, b, id) && LinksOk(g.links, a, g.key.tenant)
    requires g.status == Building ==> id !in LinkedRuns(g.links)
    ensures Follows(g, b)
  {
    if g.status == Building {
      forall l | l in g.links
        ensures l.run != id && (Is(b, l, Succeeded) <==> Is(a, l, Succeeded)) && !Is(b, l, Failed)
      {
        assert l.run in LinkedRuns(g.links) && l.run in a;
      }
      assert SucceededAt(g.links, b) == SucceededAt(g.links, a);
    }
  }

  /** A recount for the run that ended puts every generation right. */
  lemma SettleFollows(a: map<RunId, Run>, db: Db, id: RunId)
    requires AllFollow(a, db.generations) && OnlyEnds(a, db.runs, id)
    requires forall i | 0 <= i < |db.generations| :: GenerationOk(db.generations[i], a)
    requires forall x | x in a :: x in db.runs && db.runs[x].info == a[x].info
    ensures AllFollow(db.runs, Settle(db, id).generations)
  {
    var after := Settle(db, id);
    forall i | 0 <= i < |after.generations|
      ensures Follows(after.generations[i], db.runs)
    {
      var g := db.generations[i];
      LinksStayOk(g.links, a, db.runs, g.key.tenant);
      if Affected(g, id) {
        RecountedFollows(g, db.runs);
      } else {
        SpectatorFollows(g, a, db.runs, id);
      }
    }
  }

  lemma {:induction false} LeavesFollow(a: map<RunId, Run>, b: map<RunId, Run>, generations: seq<Generation>)
    requires AllFollow(a, generations) && forall i | 0 <= i < |generations| :: GenerationOk(generations[i], a)
    requires forall x | x in a :: x in b && (Terminal(a[x]) ==> b[x] == a[x])
               && (b[x].status in {Succeeded, Failed} ==> b[x].status == a[x].status)
    ensures AllFollow(b, generations)
  {
    forall i | 0 <= i < |generations|
      ensures Follows(generations[i], b)
    {
      var g := generations[i];
      forall l | l in g.links
        ensures l.run in a && (Is(b, l, Succeeded) <==> Is(a, l, Succeeded)) && (Is(b, l, Failed) <==> Is(a, l, Failed))
        ensures Is(a, l, Cancelled) ==> Is(b, l, Cancelled)
      {
      }
      assert SucceededAt(g.links, b) == SucceededAt(g.links, a);
    }
  }

  // ---- Every call ----

  lemma FailureFollows(cfg: Config, db: Db, counted: Db, id: RunId)
    requires Inv(cfg, db) && AllFollow(db.runs, db.generations) && id in db.runs && Active(db.runs[id])
    requires counted.runs == db.runs && counted.generations == db.generations
    ensures var after := AfterFailure(WithFailed(counted, id), id); AllFollow(after.runs, after.generations)
  {
    var failed := WithFailed(counted, id);
    if db.runs[id].info.source.Schedule? {
      var closed := CloseOccurrence(failed, id);
      ClosingEnds(db, failed, id);
      assert AfterFailure(failed, id) == Settle(closed, id);
      SettleFollows(db.runs, closed, id);
    } else {
      assert AfterFailure(failed, id) == Settle(failed, id);
      SettleFollows(db.runs, failed, id);
    }
  }

  /** Besides the failed run, closing an occurrence only cancels. */
  lemma ClosingEnds(db: Db, failed: Db, id: RunId)
    requires id in db.runs && !Terminal(db.runs[id]) && failed.runs == db.runs[id := FailedRun(db.runs[id])]
    ensures var closed := CloseOccurrence(failed, id);
            && closed.generations == failed.generations && OnlyEnds(db.runs, closed.runs, id)
            && forall x | x in db.runs :: x in closed.runs && closed.runs[x].info == db.runs[x].info
  {
    match OpenOccurrence(failed.occurrences, id, |failed.occurrences|)
    case None =>
    case Some(i) => CancelEnds(db.runs, failed.runs, LinkedRuns(failed.occurrences[i].links) - {id}, id);
  }

  lemma CancelEnds(a: map<RunId, Run>, b: map<RunId, Run>, which: set<RunId>, id: RunId)
    requires id in a && !Terminal(a[id]) && b == a[id := FailedRun(a[id])]
    ensures OnlyEnds(a, CancelQueued(b, which), id)
    ensures forall x | x in a :: x in CancelQueued(b, which) && CancelQueued(b, which)[x].info == a[x].info
  {
  }

  lemma CompleteFollows(cfg: Config, db: Db, id: RunId, worker: WorkerId, now: int)
    requires Inv(cfg, db) && AllFollow(db.runs, db.generations)
    ensures var after := Complete(cfg, db, id, worker, now); AllFollow(after.runs, after.generations)
  {
    if Holds(db.runs, id, worker, now) && db.runs[id].status.Running? {
      var t := db.runs[id].info.tenant;
      var saved := db.(runs := db.runs[id := SucceededRun(db.runs[id], now)],
                       circuits := db.circuits[t := Circuit(0, None, None, None)]);
      var reset := if t in cfg.hostOf && cfg.hostOf[t] in db.hosts
                   then saved.(hosts := saved.hosts[cfg.hostOf[t] := Circuit(0, None, None, None)]) else saved;
      assert Complete(cfg, db, id, worker, now) == Settle(reset, id);
      SettleFollows(db.runs, reset, id);
    }
  }

  lemma RecoverOneFollows(cfg: Config, db: Db, id: RunId, now: int)
    requires Inv(cfg, db) && AllFollow(db.runs, db.generations)
    ensures var after := RecoverOne(db, id, now); AllFollow(after.runs, after.generations)
  {
    if LeaseExpired(db.runs, id, now) {
      if db.runs[id].status.Claimed? {
        LeavesFollow(db.runs, RecoverOne(db, id, now).runs, db.generations);
      } else {
        var t := db.runs[id].info.tenant;
        FailureFollows(cfg, db, WithCircuit(db, t, Uncertain(CircuitOf(db.circuits, t), now, now + 10 * MINUTE)), id);
      }
    }
  }

  lemma {:induction false} RecoverAllFollows(cfg: Config, db: Db, ids: seq<RunId>, now: int)
    requires Inv(cfg, db) && AllFollow(db.runs, db.generations)
    ensures var after := RecoverAll(db, ids, now); AllFollow(after.runs, after.generations)
  {
    if ids != [] {
      var front := ids[..|ids| - 1];
      RecoverAllFollows(cfg, db, front, now);
      RecoverAllKeeps(cfg, db, front, now);
      RecoverOneFollows(cfg, RecoverAll(db, front, now), ids[|ids| - 1], now);
    }
  }

  /** The runs a refresh is linked to are open when it starts. */
  lemma {:induction false} LinkedAreOpen(runs: map<RunId, Run>, tenant: TenantId, recipient: RecipientId,
                                         items: seq<RefreshItem>, dataVersion: nat, now: int)
    ensures var done := LinkItems(runs, tenant, recipient, items, dataVersion, now);
            && |done.links| == |items| && forall l | l in done.links :: l.run in done.runs && Open(done.runs[l.run])
  {
    if items != [] {
      LinkedAreOpen(runs, tenant, recipient, items[..|items| - 1], dataVersion, now);
    }
  }

  lemma RefreshFollows(cfg: Config, db: Db, tenant: TenantId, recipient: RecipientId, items: seq<RefreshItem>,
                       dataVersion: nat, allowed: bool, now: int)
    requires Inv(cfg, db) && AllFollow(db.runs, db.generations)
    ensures var after := CreateRefresh(db, tenant, recipient, items, dataVersion, allowed, now);
            AllFollow(after.runs, after.generations)
  {
    if StartsRefresh(db, tenant, items, dataVersion, allowed) {
      var linked := LinkItems(db.runs, tenant, recipient, items, dataVersion, now);
      assert forall i | 0 <= i < |items| :: DrawnIds(items)[i] == items[i].run;
      LinkItemsOk(db.runs, tenant, recipient, items, dataVersion, now);
      LinkedAreOpen(db.runs, tenant, recipient, items, dataVersion, now);
      LeavesFollow(db.runs, linked.runs, db.generations);
      NewFollows(Generation(GenerationKeyOf(tenant, items, dataVersion), linked.links, |items|, Building, 0, 0),
                 linked.runs);
    }
  }

  lemma NewFollows(g: Generation, runs: map<RunId, Run>)
    requires g.links != [] && forall l | l in g.links :: l.run in runs && Open(runs[l.run])
    requires g.status == Building && g.completed == g.failed == 0
    ensures Follows(g, runs)
  {
    assert g.links[0] in g.links;
    assert SucceededAt(g.links, runs) == {};
  }

  lemma StepFollows(cfg: Config, db: Db, s: Step)
    requires Inv(cfg, db) && AllFollow(db.runs, db.generations)
    ensures AllFollow(Apply(cfg, db, s).runs, Apply(cfg, db, s).generations)
  {
    if s.action.DoRefresh? {
      assert Apply(cfg, db, s) == CreateRefresh(db, s.action.tenant, s.action.recipient, s.action.items,
                                                s.action.dataVersion, s.action.allowed, s.now);
      RefreshFollows(cfg, db, s.action.tenant, s.action.recipient, s.action.items, s.action.dataVersion,
                     s.action.allowed, s.now);
    } else if Inserts(s.action) {
      InsertsAdd(cfg, db, s);
      ApplyKeeps(cfg, db, s);
      InsertsFollow(cfg, db, s);
    } else if Notes(s.action) {
      NotesTouchOccurrences(cfg, db, s);
    } else if Fails(s.action) {
      var counted := FailIsFailure(cfg, db, s);
      if Apply(cfg, db, s) != db {
        FailureFollows(cfg, db, counted, s.action.run);
      }
    } else if s.action.DoRecover? {
      assert Apply(cfg, db, s) == RecoverAll(db, s.action.expired, s.now);
      RecoverAllFollows(cfg, db, s.action.expired, s.now);
    } else if s.action.DoComplete? {
      assert Apply(cfg, db, s) == Complete(cfg, db, s.action.run, s.action.worker, s.now);
      CompleteFollows(cfg, db, s.action.run, s.action.worker, s.now);
    } else {
      RowsFollow(cfg, db, s);
    }
  }

  /** Insertions other than refreshes leave every old run as it is. */
  lemma InsertsFollow(cfg: Config, db: Db, s: Step)
    requires Inv(cfg, db) && AllFollow(db.runs, db.generations) && Inserts(s.action) && !s.action.DoRefresh?
    ensures AllFollow(Apply(cfg, db, s).runs, Apply(cfg, db, s).generations)
  {
    InsertsAdd(cfg, db, s);
    match s.action
    case DoEnqueue(input, standing, id) =>
      assert Apply(cfg, db, s) == EnqueueDb(db, input, standing, id, s.now);
      LeavesFollow(db.runs, Apply(cfg, db, s).runs, db.generations);
    case DoMaterialize(t, schedule, at, reports, next) =>
      assert Apply(cfg, db, s) == Materialize(db, t, schedule, at, reports, next, s.now);
      if Apply(cfg, db, s) != db {
        MaterializedRuns(db, t, reports, s.now);
      }
      LeavesFollow(db.runs, Apply(cfg, db, s).runs, db.generations);
    case DoBlock(_, _, _, _) =>
  }

  /** Claims, worker calls that move one row, cancellations and archival end no run but by cancelling. */
  lemma RowsFollow(cfg: Config, db: Db, s: Step)
    requires Inv(cfg, db) && AllFollow(db.runs, db.generations)
    requires OneRow(s.action) || s.action.DoClaim? || s.action.DoArchive?
    ensures AllFollow(Apply(cfg, db, s).runs, Apply(cfg, db, s).generations)
  {
    var after := Apply(cfg, db, s);
    RowsEnd(cfg, db, s);
    LeavesFollow(db.runs, after.runs, db.generations);
  }

  /** No run has succeeded or failed, and what has ended stays. */
  ghost predicate NoneEnds(a: map<RunId, Run>, b: map<RunId, Run>) {
    forall x | x in a :: x in b && (Terminal(a[x]) ==> b[x] == a[x])
      && (b[x].status in {Succeeded, Failed} ==> b[x].status == a[x].status)
  }

  lemma RowsEnd(cfg: Config, db: Db, s: Step)
    requires OneRow(s.action) || s.action.DoClaim? || s.action.DoArchive?
    ensures Apply(cfg, db, s).generations == db.generations && NoneEnds(db.runs, Apply(cfg, db, s).runs)
  {
    if s.action.DoClaim? {
      ClaimEndsNone(cfg, db, s.action.run, s.action.worker, s.action.length, s.action.due, s.now);
      assert Apply(cfg, db, s) == Claim(cfg, db, s.action.run, s.action.worker, s.action.length, s.action.due, s.now);
    } else if s.action.DoArchive? {
      assert Apply(cfg, db, s) == ArchiveQueue(db, s.action.tenant);
      ArchiveEndsNone(db, s.action.tenant);
    } else {
      CallsAreRowSteps(cfg, db, s);
      OneRowEnds(cfg, db, s);
      RowStepEndsNone(db, Apply(cfg, db, s), s.action.run);
    }
  }

  lemma ClaimEndsNone(cfg: Config, db: Db, id: RunId, worker: WorkerId, length: int, due: seq<Due>, now: int)
    ensures var after := Claim(cfg, db, id, worker, length, due, now);
            after.generations == db.generations && NoneEnds(db.runs, after.runs)
  {
  }

  lemma ArchiveEndsNone(db: Db, tenant: TenantId)
    ensures var after := ArchiveQueue(db, tenant); after.generations == db.generations && NoneEnds(db.runs, after.runs)
  {
  }

  lemma RowStepEndsNone(a: Db, b: Db, id: RunId)
    requires RowStep(a, b, id) && RunEndsNot(a.runs, b.runs, id)
    ensures b.generations == a.generations && NoneEnds(a.runs, b.runs)
  {
  }

  predicate RunEndsNot(a: map<RunId, Run>, b: map<RunId, Run>, id: RunId) {
    id in a && id in b && b[id].status in {Succeeded, Failed} ==> b[id].status == a[id].status
  }

  lemma OneRowEnds(cfg: Config, db: Db, s: Step)
    requires OneRow(s.action)
    ensures RunEndsNot(db.runs, Apply(cfg, db, s).runs, s.action.run)
  {
    if s.action.DoExtend? || s.action.DoProgress? || s.action.DoMarkRunning? {
      HeldCallEnds(cfg, db, s);
    } else {
      match s.action
      case DoCancel(id) => assert Apply(cfg, db, s) == Cancel(db, id);
      case DoRetry(id, w, at) => assert Apply(cfg, db, s) == Retry(db, id, w, at, s.now);
      case DoRetryPreRequest(id, w, at) =>
        assert Apply(cfg, db, s) == RetryPreRequestFailure(cfg, db, id, w, at, s.now);
    }
  }

  lemma HeldCallEnds(cfg: Config, db: Db, s: Step)
    requires s.action.DoExtend? || s.action.DoProgress? || s.action.DoMarkRunning?
    ensures RunEndsNot(db.runs, Apply(cfg, db, s).runs, s.action.run)
  {
    match s.action
    case DoExtend(id, w, length) => assert Apply(cfg, db, s) == ExtendLease(db, id, w, length, s.now);
    case DoProgress(id, w, phase) => assert Apply(cfg, db, s) == UpdateProgress(db, id, w, phase, s.now);
    case DoMarkRunning(id, w, length) => assert Apply(cfg, db, s) == MarkRunning(db, id, w, length, s.now);
  }

  // ---- Histories ----

  lemma {:induction false} ReachedFollows(cfg: Config, history: seq<Step>)
    ensures AllFollow(Reached(cfg, history).runs, Reached(cfg, history).generations)
  {
    if history != [] {
      var front := history[..|history| - 1];
      ReachedFollows(cfg, front);
      ReachedOk(cfg, front);
      StepFollows(cfg, Reached(cfg, front), history[|history| - 1]);
    }
  }

  /**
   In every history: while a generation is BUILDING, some of its runs have not succeeded, none has
   failed, and its counter is the number that have succeeded; when it is PUBLISHED all have
   succeeded; and when it is broken one has failed or was cancelled.
   */
  lemma GenerationsFollowRuns(cfg: Config, history: seq<Step>, g: Generation)
    requires g in Reached(cfg, history).generations
    ensures var runs := Reached(cfg, history).runs;
            && (g.status == Building ==>
                  && (exists l | l in g.links :: !Is(runs, l, Succeeded))
                  && (forall l | l in g.links :: l.run in runs && !Is(runs, l, Failed))
                  && g.completed == |SucceededAt(g.links, runs)|)
            && (g.status == Published ==> forall l | l in g.links :: Is(runs, l, Succeeded))
            && (g.status == Broken ==> exists l | l in g.links :: Is(runs, l, Failed) || Is(runs, l, Cancelled))
  {
    ReachedFollows(cfg, history);
    var i :| 0 <= i < |Reached(cfg, history).generations| && Reached(cfg, history).generations[i] == g;
  }

  // ---- Heads ----

  lemma {:induction false} PublishOne(heads: map<GenerationKey, Head>, a: seq<Generation>, b: seq<Generation>, n: nat,
                                      g: nat)
    requires n <= |a| == |b| && g < |a| && a[g].status.Building? && b[g].status.Published?
    requires forall i | 0 <= i < |a| && i != g && a[i].status.Building? && b[i].status.Published? ::
               b[i].key != b[g].key
    ensures var after := Publish(heads, a, b, n);
            if n <= g then Version(after, b[g].key) == Version(heads, b[g].key)
            else b[g].key in after && after[b[g].key] == Head(g, Version(heads, b[g].key) + 1)
  {
    if n != 0 {
      PublishOne(heads, a, b, n - 1, g);
    }
  }

  /** The completion of the last run publishes: the head shows the generation, with the next version. */
  lemma CompletionPublishes(cfg: Config, history: seq<Step>, s: Step, g: nat)
    requires var db := Reached(cfg, history);
             && s.action.DoComplete? && g < |db.generations| && db.generations[g].status == Building
             && forall l | l in db.generations[g].links :: Is(Apply(cfg, db, s).runs, l, Succeeded)
    ensures var db, after := Reached(cfg, history), Apply(cfg, Reached(cfg, history), s);
            var key := db.generations[g].key;
            && g < |after.generations| && after.generations[g].status == Published
            && after.generations[g].completed == after.generations[g].total == |db.generations[g].links|
            && key in after.heads
            && after.heads[key] == Head(g, (if key in db.heads then db.heads[key].version else 0) + 1)
  {
    var db := Reached(cfg, history);
    ReachedOk(cfg, history);
    ReachedFollows(cfg, history);
    assert Apply(cfg, db, s) == Complete(cfg, db, s.action.run, s.action.worker, s.now);
    CompletePublishes(cfg, db, s.action.run, s.action.worker, s.now, g);
  }

  lemma CompletePublishes(cfg: Config, db: Db, id: RunId, worker: WorkerId, now: int, g: nat)
    requires Inv(cfg, db) && AllFollow(db.runs, db.generations)
    requires g < |db.generations| && db.generations[g].status == Building
    requires forall l | l in db.generations[g].links :: Is(Complete(cfg, db, id, worker, now).runs, l, Succeeded)
    ensures var after, key := Complete(cfg, db, id, worker, now), db.generations[g].key;
            && g < |after.generations| && after.generations[g].status == Published
            && after.generations[g].completed == after.generations[g].total == |db.generations[g].links|
            && key in after.heads && after.heads[key] == Head(g, Version(db.heads, key) + 1)
  {
    var after := Complete(cfg, db, id, worker, now);
    CompleteKeeps(cfg, db, id, worker, now);
    CompleteFollows(cfg, db, id, worker, now);
    AllSucceededPublished(db, after, g);
    var reset := CompleteSettles(cfg, db, id, worker, now);
    SettlePublishesHead(cfg, reset, id, g);
  }

  lemma AllSucceededPublished(db: Db, after: Db, g: nat)
    requires g < |db.generations| == |after.generations| && GenerationStep(db.generations[g], after.generations[g])
    requires Follows(after.generations[g], after.runs) && GenerationOk(after.generations[g], after.runs)
    requires forall l | l in db.generations[g].links :: Is(after.runs, l, Succeeded)
    ensures after.generations[g].status == Published
    ensures after.generations[g].completed == after.generations[g].total == |db.generations[g].links|
  {
  }

  lemma CompleteSettles(cfg: Config, db: Db, id: RunId, worker: WorkerId, now: int) returns (reset: Db)
    requires Complete(cfg, db, id, worker, now) != db
    ensures Complete(cfg, db, id, worker, now) == Settle(reset, id)
    ensures reset.generations == db.generations && reset.heads == db.heads
  {
    var t := db.runs[id].info.tenant;
    var saved := db.(runs := db.runs[id := SucceededRun(db.runs[id], now)],
                     circuits := db.circuits[t := Circuit(0, None, None, None)]);
    reset := if t in cfg.hostOf && cfg.hostOf[t] in db.hosts
      then saved.(hosts := saved.hosts[cfg.hostOf[t] := Circuit(0, None, None, None)]) else saved;
  }

  lemma SettlePublishesHead(cfg: Config, db: Db, id: RunId, g: nat)
    requires BuildingLimits(db.generations) && g < |db.generations| && db.generations[g].status == Building
    requires Settle(db, id).generations[g].status == Published
    ensures var after, key := Settle(db, id), db.generations[g].key;
            key in after.heads && after.heads[key] == Head(g, Version(db.heads, key) + 1)
  {
    var after := Settle(db, id).generations;
    forall i | 0 <= i < |after|
      ensures after[i].key == db.generations[i].key
    {
    }
    PublishOne(db.heads, db.generations, after, |after|, g);
  }
}
