/**
 What every store transaction keeps. Transactions are described by three relations between
 states, on runs, occurrences and generations, from which the invariants follow once.

 The caps of Claim count active runs, the closing of an occurrence needs that no two runs of a
 tenant are active, and publication needs that a terminal run stays as it is.
 */
module ReportInvariants {
  import opened Options
  import opened Catalog
  import opened ReportTables
  import opened ReportSteps
  import opened NotificationSteps
  import opened Admission
  import opened Ranking

  // ---- Runs ----

  predicate RunOk(r: Run) {
    Active(r) ==> r.claimedBy.Some? && r.lease.Some?
  }

  /** How one transaction other than a claim may change a run. */
  predicate RunStep(a: Run, b: Run) {
    && a.info == b.info
    && a.attempt == b.attempt
    && (Terminal(a) ==> b == a)
    && (b.status.Claimed? ==> a.status.Claimed?)
    && (Active(b) ==> Active(a) && a.claimedBy == b.claimedBy && (a.lease.Some? ==> b.lease.Some?))
  }

  /** Nothing is claimed: every run takes a step or is new and waiting. */
  ghost predicate Quiet(a: map<RunId, Run>, b: map<RunId, Run>) {
    && (forall id | id in a :: id in b && RunStep(a[id], b[id]))
    && (forall id | id in b && id !in a :: b[id].status.Queued? && b[id].attempt == 0)
  }

  lemma QuietTrans(a: map<RunId, Run>, b: map<RunId, Run>, c: map<RunId, Run>)
    requires Quiet(a, b) && Quiet(b, c) && b.Keys == a.Keys
    ensures Quiet(a, c)
  {
  }

  lemma QuietUpdate(runs: map<RunId, Run>, id: RunId, r: Run)
    requires id in runs && RunStep(runs[id], r)
    ensures Quiet(runs, runs[id := r])
  {
  }

  lemma QuietCancel(runs: map<RunId, Run>, which: set<RunId>)
    ensures Quiet(runs, CancelQueued(runs, which)) && CancelQueued(runs, which).Keys == runs.Keys
  {
  }

  ghost predicate OneActivePerTenant(runs: map<RunId, Run>) {
    forall a, b | a in runs && b in runs && Active(runs[a]) && Active(runs[b])
      && runs[a].info.tenant == runs[b].info.tenant :: a == b
  }

  ghost predicate WithinCaps(cfg: Config, runs: map<RunId, Run>) {
    && |ActiveRuns(runs)| <= cfg.globalCap
    && |ActiveInteractive(runs)| <= InteractiveCap(cfg)
    && forall h :: |ActiveOnHost(cfg, runs, h)| <= cfg.hostCap
  }

  ghost predicate RunsInv(cfg: Config, runs: map<RunId, Run>) {
    && (forall id | id in runs :: RunOk(runs[id]))
    && OneActivePerTenant(runs)
    && WithinCaps(cfg, runs)
  }

  lemma QuietKeepsRuns(cfg: Config, a: map<RunId, Run>, b: map<RunId, Run>)
    requires RunsInv(cfg, a) && Quiet(a, b)
    ensures RunsInv(cfg, b)
  {
    SubsetSize(ActiveRuns(b), ActiveRuns(a));
    SubsetSize(ActiveInteractive(b), ActiveInteractive(a));
    forall h
      ensures |ActiveOnHost(cfg, b, h)| <= cfg.hostCap
    {
      SubsetSize(ActiveOnHost(cfg, b, h), ActiveOnHost(cfg, a, h));
    }
  }

  /** A claim adds one active run, and only where every cap has room. */
  lemma ClaimKeepsRuns(cfg: Config, db: Db, id: RunId, worker: WorkerId, lease: int, due: seq<Due>, now: int)
    requires RunsInv(cfg, db.runs) && Eligible(cfg, db, id, due, now)
    ensures RunsInv(cfg, Claim(cfg, db, id, worker, lease, due, now).runs)
  {
    var r := ClaimedRun(db.runs[id], worker, now + lease);
    ClaimKeepsOne(db.runs, id, r);
    ClaimKeepsCaps(cfg, db.runs, id, r);
  }

  lemma ClaimKeepsOne(runs: map<RunId, Run>, id: RunId, r: Run)
    requires OneActivePerTenant(runs) && id in runs && r.info == runs[id].info
    requires forall a | a in ActiveOfTenant(runs, r.info.tenant) :: a == id
    ensures OneActivePerTenant(runs[id := r])
  {
    forall x | x in runs && Active(runs[x]) && runs[x].info.tenant == r.info.tenant
      ensures x == id
    {
      assert x in ActiveOfTenant(runs, r.info.tenant);
    }
  }

  lemma ClaimKeepsCaps(cfg: Config, runs: map<RunId, Run>, id: RunId, r: Run)
    requires WithinCaps(cfg, runs) && id in runs && !Active(runs[id]) && Active(r) && r.info == runs[id].info
    requires |ActiveRuns(runs)| < cfg.globalCap
    requires r.info.source.Schedule? || |ActiveInteractive(runs)| < InteractiveCap(cfg)
    requires r.info.tenant in cfg.hostOf ==> |ActiveOnHost(cfg, runs, cfg.hostOf[r.info.tenant])| < cfg.hostCap
    ensures WithinCaps(cfg, runs[id := r])
  {
    var after := runs[id := r];
    assert ActiveRuns(after) == ActiveRuns(runs) + {id};
    ClaimAddsInteractive(runs, id, r);
    forall h
      ensures |ActiveOnHost(cfg, after, h)| <= cfg.hostCap
    {
      ClaimKeepsHost(cfg, runs, id, r, h);
    }
  }

  lemma ClaimKeepsHost(cfg: Config, runs: map<RunId, Run>, id: RunId, r: Run, h: HostId)
    requires |ActiveOnHost(cfg, runs, h)| <= cfg.hostCap && id in runs && !Active(runs[id]) && Active(r)
             && r.info == runs[id].info
    requires r.info.tenant in cfg.hostOf && cfg.hostOf[r.info.tenant] == h ==>
             |ActiveOnHost(cfg, runs, h)| < cfg.hostCap
    ensures |ActiveOnHost(cfg, runs[id := r], h)| <= cfg.hostCap
  {
    ClaimAddsOnHost(cfg, runs, id, r, h);
  }

  lemma ClaimAddsInteractive(runs: map<RunId, Run>, id: RunId, r: Run)
    requires id in runs && !Active(runs[id]) && Active(r) && r.info == runs[id].info
    ensures ActiveInteractive(runs[id := r]) == ActiveInteractive(runs) + if r.info.source.Schedule? then {} else {id}
  {
  }

  lemma ClaimAddsOnHost(cfg: Config, runs: map<RunId, Run>, id: RunId, r: Run, h: HostId)
    requires id in runs && !Active(runs[id]) && Active(r) && r.info == runs[id].info
    ensures ActiveOnHost(cfg, runs[id := r], h) ==
            ActiveOnHost(cfg, runs, h) + if r.info.tenant in cfg.hostOf && cfg.hostOf[r.info.tenant] == h then {id}
              else {}
  {
  }

  // ---- Occurrences ----

  ghost predicate LinksOk(links: seq<Link>, runs: map<RunId, Run>, tenant: TenantId) {
    forall l | l in links :: l.run in runs && runs[l.run].info.tenant == tenant && runs[l.run].info.key == l.key
  }

  ghost predicate Scheduled(links: seq<Link>, runs: map<RunId, Run>) {
    forall l | l in links :: l.run in runs && runs[l.run].info.source.Schedule?
  }

  ghost predicate OccurrencesInv(runs: map<RunId, Run>, occurrences: seq<Occurrence>) {
    && (forall o | o in occurrences :: LinksOk(o.links, runs, o.tenant) && Scheduled(o.links, runs))
    && (forall i, j, r | 0 <= i < |occurrences| && 0 <= j < |occurrences|
                         && r in LinkedRuns(occurrences[i].links) && r in LinkedRuns(occurrences[j].links) :: i == j)
  }

  lemma LinksStayOk(links: seq<Link>, a: map<RunId, Run>, b: map<RunId, Run>, tenant: TenantId)
    requires LinksOk(links, a, tenant)
    requires forall id | id in a :: id in b && b[id].info == a[id].info
    ensures LinksOk(links, b, tenant)
  {
  }

  lemma StepKeepsOccurrences(a: map<RunId, Run>, b: map<RunId, Run>, before: seq<Occurrence>, after: seq<Occurrence>)
    requires OccurrencesInv(a, before) && OccurrencesStep(before, after) && |before| == |after|
    requires forall id | id in a :: id in b && b[id].info == a[id].info
    ensures OccurrencesInv(b, after)
  {
    forall o | o in after
      ensures LinksOk(o.links, b, o.tenant) && Scheduled(o.links, b)
    {
      var i :| 0 <= i < |after| && after[i] == o;
      assert OccurrenceStep(before[i], after[i]) && before[i] in before;
      LinksStayOk(o.links, a, b, o.tenant);
    }
    forall i, j, r | 0 <= i < |after| && 0 <= j < |after|
                     && r in LinkedRuns(after[i].links) && r in LinkedRuns(after[j].links)
      ensures i == j
    {
      assert OccurrenceStep(before[i], after[i]) && OccurrenceStep(before[j], after[j]);
      assert r in LinkedRuns(before[i].links) && r in LinkedRuns(before[j].links);
    }
  }

  // ---- Generations ----

  ghost predicate AllSucceeded(links: seq<Link>, runs: map<RunId, Run>) {
    forall l | l in links :: l.run in runs && runs[l.run].status.Succeeded?
  }

  ghost predicate GenerationOk(g: Generation, runs: map<RunId, Run>) {
    && LinksOk(g.links, runs, g.key.tenant)
    && |g.links| == g.total
    && (g.status.Published? ==> AllSucceeded(g.links, runs) && g.completed == g.total && g.failed == 0)
  }

  /** Publications of a key among the first n generations. */
  function PublishedBelow(generations: seq<Generation>, key: GenerationKey, n: nat): nat
    requires n <= |generations|
  {
    if n == 0 then 0
    else PublishedBelow(generations, key, n - 1) +
         if generations[n - 1].status.Published? && generations[n - 1].key == key then 1 else 0
  }

  function Version(heads: map<GenerationKey, Head>, key: GenerationKey): nat {
    if key in heads then heads[key].version else 0
  }

  ghost predicate HeadsOk(heads: map<GenerationKey, Head>, generations: seq<Generation>) {
    forall k | k in heads ::
      heads[k].generation < |generations| && generations[heads[k].generation].status.Published?
        && generations[heads[k].generation].key == k
  }

  ghost predicate VersionsOk(heads: map<GenerationKey, Head>, generations: seq<Generation>) {
    forall k: GenerationKey :: Version(heads, k) == PublishedBelow(generations, k, |generations|)
  }

  ghost predicate BuildingLimits(generations: seq<Generation>) {
    && (forall i, j | 0 <= i < |generations| && 0 <= j < |generations|
                      && generations[i].status.Building? && generations[j].status.Building?
                      && generations[i].key == generations[j].key :: i == j)
    && (forall t :: |BuildingIn(generations, t)| <= 2)
  }

  ghost predicate GenerationsInv(runs: map<RunId, Run>, generations: seq<Generation>, heads: map<GenerationKey, Head>) {
    && (forall i | 0 <= i < |generations| :: GenerationOk(generations[i], runs))
    && HeadsOk(heads, generations)
    && VersionsOk(heads, generations)
    && BuildingLimits(generations)
  }

  /** A generation keeps its key, links and total, and leaves BUILDING at most once. */
  predicate GenerationStep(a: Generation, b: Generation) {
    && a.key == b.key && a.links == b.links && a.total == b.total
    && (!a.status.Building? ==> a == b)
  }

  ghost predicate GenerationsStep(a: seq<Generation>, b: seq<Generation>) {
    |a| <= |b| && forall i | 0 <= i < |a| :: GenerationStep(a[i], b[i])
  }

  lemma GenerationStaysOk(g: Generation, a: map<RunId, Run>, b: map<RunId, Run>)
    requires GenerationOk(g, a)
    requires forall id | id in a :: id in b && b[id].info == a[id].info && (Terminal(a[id]) ==> b[id] == a[id])
    ensures GenerationOk(g, b)
  {
  }

  lemma RunsKeepGenerations(a: map<RunId, Run>, b: map<RunId, Run>, generations: seq<Generation>,
                            heads: map<GenerationKey, Head>)
    requires GenerationsInv(a, generations, heads)
    requires forall id | id in a :: id in b && b[id].info == a[id].info && (Terminal(a[id]) ==> b[id] == a[id])
    ensures GenerationsInv(b, generations, heads)
  {
    forall i | 0 <= i < |generations|
      ensures GenerationOk(generations[i], b)
    {
      GenerationStaysOk(generations[i], a, b);
    }
  }

  lemma {:induction false} CountAll(links: seq<Link>, runs: map<RunId, Run>, statuses: set<Status>)
    ensures CountIn(links, runs, statuses) <= |links|
    ensures CountIn(links, runs, statuses) == |links| ==> forall l | l in links ::
            l.run in runs && runs[l.run].status in statuses
  {
    if links != [] {
      var front, last := links[..|links| - 1], links[|links| - 1];
      CountAll(front, runs, statuses);
      assert forall l | l in links :: l in front || l == last;
    }
  }

  /** A generation is published only when every one of its runs has succeeded. */
  lemma RecountedOk(g: Generation, runs: map<RunId, Run>)
    requires GenerationOk(g, runs) && g.status.Building?
    ensures GenerationOk(Recounted(g, runs), runs) && GenerationStep(g, Recounted(g, runs))
  {
    CountAll(g.links, runs, {Succeeded});
  }

  /** Every publication raises the version of its head by one. */
  lemma {:induction false} PublishCounts(heads: map<GenerationKey, Head>, a: seq<Generation>, b: seq<Generation>,
                                         n: nat, key: GenerationKey)
    requires n <= |a| == |b| && GenerationsStep(a, b)
    ensures Version(Publish(heads, a, b, n), key) + PublishedBelow(a, key, n) == Version(heads, key)
            + PublishedBelow(b, key, n)
  {
    if n != 0 {
      PublishCounts(heads, a, b, n - 1, key);
      assert GenerationStep(a[n - 1], b[n - 1]);
    }
  }

  lemma {:induction false} PublishPoints(heads: map<GenerationKey, Head>, a: seq<Generation>, b: seq<Generation>,
                                         n: nat)
    requires n <= |a| == |b| && GenerationsStep(a, b) && HeadsOk(heads, a)
    ensures HeadsOk(Publish(heads, a, b, n), b)
  {
    if n == 0 {
      assert forall i | 0 <= i < |a| :: GenerationStep(a[i], b[i]);
    } else {
      PublishPoints(heads, a, b, n - 1);
    }
  }

  lemma StepKeepsLimits(a: seq<Generation>, b: seq<Generation>)
    requires BuildingLimits(a) && GenerationsStep(a, b) && |a| == |b|
    ensures BuildingLimits(b)
  {
    assert forall i | 0 <= i < |a| :: GenerationStep(a[i], b[i]);
    forall t
      ensures |BuildingIn(b, t)| <= 2
    {
      assert BuildingIn(b, t) <= BuildingIn(a, t);
      SubsetSize(BuildingIn(b, t), BuildingIn(a, t));
    }
  }

  lemma RecountSteps(generations: seq<Generation>, runs: map<RunId, Run>, run: RunId)
    requires forall i | 0 <= i < |generations| :: GenerationOk(generations[i], runs)
    ensures var after := Recount(generations, runs, run);
            GenerationsStep(generations, after) && forall i | 0 <= i < |after| :: GenerationOk(after[i], runs)
  {
    var after := Recount(generations, runs, run);
    forall i | 0 <= i < |after|
      ensures GenerationStep(generations[i], after[i]) && GenerationOk(after[i], runs)
    {
      if Affected(generations[i], run) {
        RecountedOk(generations[i], runs);
      }
    }
  }

  lemma SettleKeepsGenerations(db: Db, run: RunId)
    requires GenerationsInv(db.runs, db.generations, db.heads)
    ensures var after := Settle(db, run);
            GenerationsInv(after.runs, after.generations, after.heads)
              && GenerationsStep(db.generations, after.generations)
  {
    var after := Settle(db, run);
    RecountSteps(db.generations, db.runs, run);
    StepKeepsLimits(db.generations, after.generations);
    PublishPoints(db.heads, db.generations, after.generations, |db.generations|);
    forall k: GenerationKey
      ensures Version(after.heads, k) == PublishedBelow(after.generations, k, |after.generations|)
    {
      PublishCounts(db.heads, db.generations, after.generations, |db.generations|, k);
    }
  }

  // ---- The whole state ----

  /** An execution key is the hash of its own report. */
  ghost predicate KeysOk(runs: map<RunId, Run>) {
    forall id | id in runs && runs[id].info.executionKey.Some? ::
      runs[id].info.executionKey.value.key == runs[id].info.key
  }

  ghost predicate Inv(cfg: Config, db: Db) {
    && RunsInv(cfg, db.runs)
    && KeysOk(db.runs)
    && OccurrencesInv(db.runs, db.occurrences)
    && GenerationsInv(db.runs, db.generations, db.heads)
  }

  /** A transaction that inserts nothing and claims nothing. */
  ghost predicate Moves(a: Db, b: Db) {
    && Quiet(a.runs, b.runs) && a.runs.Keys == b.runs.Keys
    && OccurrencesStep(a.occurrences, b.occurrences) && |a.occurrences| == |b.occurrences|
    && GenerationsStep(a.generations, b.generations) && |a.generations| == |b.generations|
  }

  lemma MovesTrans(a: Db, b: Db, c: Db)
    requires Moves(a, b) && Moves(b, c)
    ensures Moves(a, c)
  {
    QuietTrans(a.runs, b.runs, c.runs);
    forall i | 0 <= i < |a.generations|
      ensures GenerationStep(a.generations[i], c.generations[i])
    {
      assert GenerationStep(a.generations[i], b.generations[i]) && GenerationStep(b.generations[i], c.generations[i]);
    }
    forall i | 0 <= i < |a.occurrences|
      ensures OccurrenceStep(a.occurrences[i], c.occurrences[i])
    {
      assert OccurrenceStep(a.occurrences[i], b.occurrences[i]) && OccurrenceStep(b.occurrences[i], c.occurrences[i]);
    }
  }

  /** Run and occurrence changes keep everything when the generations are left alone. */
  lemma MoveKeeps(cfg: Config, a: Db, b: Db)
    requires Inv(cfg, a) && Moves(a, b) && b.generations == a.generations && b.heads == a.heads
    ensures Inv(cfg, b)
  {
    QuietKeepsRuns(cfg, a.runs, b.runs);
    StepKeepsOccurrences(a.runs, b.runs, a.occurrences, b.occurrences);
    RunsKeepGenerations(a.runs, b.runs, a.generations, a.heads);
  }

  lemma UpdateKeeps(cfg: Config, a: Db, b: Db, id: RunId, r: Run)
    requires Inv(cfg, a) && id in a.runs && RunStep(a.runs[id], r)
    requires b.runs == a.runs[id := r] && b.occurrences == a.occurrences && b.generations == a.generations
             && b.heads == a.heads
    ensures Inv(cfg, b) && Moves(a, b)
  {
    QuietUpdate(a.runs, id, r);
    MoveKeeps(cfg, a, b);
  }

  lemma SettleKeeps(cfg: Config, db: Db, run: RunId)
    requires Inv(cfg, db)
    ensures Inv(cfg, Settle(db, run)) && Moves(db, Settle(db, run))
  {
    SettleKeepsGenerations(db, run);
  }

  lemma CloseMoves(db: Db, failed: RunId)
    ensures Moves(db, CloseOccurrence(db, failed))
  {
    var open := OpenOccurrence(db.occurrences, failed, |db.occurrences|);
    if open.Some? {
      QuietCancel(db.runs, LinkedRuns(db.occurrences[open.value].links) - {failed});
    }
  }

  lemma CloseKeeps(cfg: Config, db: Db, failed: RunId)
    requires Inv(cfg, db)
    ensures Inv(cfg, CloseOccurrence(db, failed)) && Moves(db, CloseOccurrence(db, failed))
  {
    CloseMoves(db, failed);
    MoveKeeps(cfg, db, CloseOccurrence(db, failed));
  }

  lemma AfterFailureKeeps(cfg: Config, db: Db, id: RunId)
    requires Inv(cfg, db) && id in db.runs
    ensures Inv(cfg, AfterFailure(db, id)) && Moves(db, AfterFailure(db, id))
  {
    if db.runs[id].info.source.Schedule? {
      var closed := CloseOccurrence(db, id);
      CloseKeeps(cfg, db, id);
      SettleKeeps(cfg, closed, id);
      MovesTrans(db, closed, Settle(closed, id));
    } else {
      SettleKeeps(cfg, db, id);
    }
  }
}
