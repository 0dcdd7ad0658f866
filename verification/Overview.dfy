/** Reading a published generation: all of its reports or none of them. */
module Overview {
  import opened Options
  import opened Catalog
  import opened ReportTables
  import opened ReportSteps
  import opened Admission
  import opened ReportInvariants
  import opened ReportActions
  import opened ReportTheorems

  datatype Freshness = Fresh | Stale | Expired

  datatype Overview = Overview(status: Freshness, items: seq<RunId>)

  function Worse(a: Freshness, b: Freshness): Freshness {
    if b.Expired? then Expired
    else if b.Stale? && a.Fresh? then Stale
    else a
  }

  /** A row the read query returns: a succeeded summary run of current versions. */
  predicate Readable(runs: map<RunId, Run>, current: set<RunId>, l: Link) {
    l.run in runs && runs[l.run].status.Succeeded? && runs[l.run].info.summary && l.run in current
  }

  function Worst(links: seq<Link>, age: map<RunId, Freshness>): Freshness {
    if links == [] then Fresh
    else
      var l := links[|links| - 1];
      Worse(Worst(links[..|links| - 1], age), if l.run in age then age[l.run] else Expired)
  }

  function Runs(links: seq<Link>): (ids: seq<RunId>)
    ensures |ids| == |links|
  {
    seq(|links|, i requires 0 <= i < |links| => links[i].run)
  }

  /** The worst freshness of any report, which is Fresh only if all are and Expired if one is. */
  lemma {:induction false} WorstIsWorst(links: seq<Link>, age: map<RunId, Freshness>)
    ensures Worst(links, age).Fresh? <==> forall l | l in links :: l.run in age && age[l.run].Fresh?
    ensures Worst(links, age).Expired? <==> exists l | l in links :: l.run !in age || age[l.run].Expired?
  {
    if links != [] {
      var front, last := links[..|links| - 1], links[|links| - 1];
      WorstIsWorst(front, age);
      assert links == front + [last];
    }
  }

  /**
   loadPublishedGeneration. current holds the runs whose definition and connection versions are
   still in force, broken those whose stored dashboard does not decode or match, age the freshness.
   */
  method LoadPublished(g: Generation, runs: map<RunId, Run>, current: set<RunId>, broken: set<RunId>,
                       age: map<RunId, Freshness>)
    returns (overview: Option<Overview>)
    requires |g.links| == g.total
    ensures overview.Some? <==> forall l | l in g.links :: Readable(runs, current, l) && l.run !in broken
    ensures overview.Some? ==>
              && overview.value.status == Worst(g.links, age)
              && overview.value.items == if Worst(g.links, age).Expired? then [] else Runs(g.links)
  {
    var items: seq<RunId> := [];
    var status := Fresh;
    for i := 0 to |g.links|
      invariant |items| <= i
      invariant |items| == i <==> forall l | l in g.links[..i] :: Readable(runs, current, l)
      invariant forall l | l in g.links[..i] && Readable(runs, current, l) :: l.run !in broken
      invariant |items| == i ==> items == Runs(g.links[..i]) && status == Worst(g.links[..i], age)
    {
      var l := g.links[i];
      assert g.links[..i + 1] == g.links[..i] + [l];
      assert Runs(g.links[..i + 1]) == Runs(g.links[..i]) + [l.run];
      if Readable(runs, current, l) {
        if l.run in broken {
          assert l in g.links;
          return None;
        }
        status := Worse(status, if l.run in age then age[l.run] else Expired);
        items := items + [l.run];
      }
    }
    assert g.links[..|g.links|] == g.links;
    if |items| != g.total {
      return None;
    }
    if status.Expired? {
      items := [];
    }
    overview := Some(Overview(status, items));
  }

  // ---- What is published can be read ----

  ghost predicate AreSummaries(links: seq<Link>, runs: map<RunId, Run>) {
    forall l | l in links :: l.run in runs && runs[l.run].info.summary
  }

  /** A refresh links only summary runs, whether it shares or inserts them. */
  lemma {:induction false} LinkItemsSummarise(runs: map<RunId, Run>, tenant: TenantId, recipient: RecipientId,
                                              items: seq<RefreshItem>, dataVersion: nat, now: int)
    ensures var linked := LinkItems(runs, tenant, recipient, items, dataVersion, now);
            AreSummaries(linked.links, linked.runs)
  {
    if items != [] {
      var front, item := items[..|items| - 1], items[|items| - 1];
      LinkItemsSummarise(runs, tenant, recipient, front, dataVersion, now);
      var done, info := LinkItems(runs, tenant, recipient, front, dataVersion, now),
        RefreshInfo(tenant, recipient, item, dataVersion, now);
      assert info.summary;
      var next := LinkItem(done, info, item.run, now);
      assert forall l | l in next.links :: l in done.links || l == next.links[|done.links|];
    }
  }

  ghost predicate GenerationsSummarise(db: Db) {
    forall g | g in db.generations :: AreSummaries(g.links, db.runs)
  }

  lemma OnlyRefreshesAdd(cfg: Config, db: Db, s: Step)
    requires Inv(cfg, db) && !s.action.DoRefresh?
    ensures |Apply(cfg, db, s).generations| == |db.generations|
  {
    if Inserts(s.action) {
      InsertsAdd(cfg, db, s);
    } else if s.action.DoClaim? {
      assert Apply(cfg, db, s) == Claim(cfg, db, s.action.run, s.action.worker, s.action.length, s.action.due, s.now);
    } else {
      UpdatesKeep(cfg, db, s);
    }
  }

  /** Runs keep their kind and generations their links. */
  lemma OldStillSummarise(a: Db, b: Db, i: nat)
    requires GenerationsSummarise(a) && Evolves(a, b) && i < |a.generations|
    ensures AreSummaries(b.generations[i].links, b.runs)
  {
    assert GenerationStep(a.generations[i], b.generations[i]);
    assert a.generations[i] in a.generations;
  }

  lemma StepSummarises(cfg: Config, db: Db, s: Step)
    requires Inv(cfg, db) && GenerationsSummarise(db)
    ensures GenerationsSummarise(Apply(cfg, db, s))
  {
    ApplyKeeps(cfg, db, s);
    var after := Apply(cfg, db, s);
    if s.action.DoRefresh? {
      var a := s.action;
      assert after == CreateRefresh(db, a.tenant, a.recipient, a.items, a.dataVersion, a.allowed, s.now);
      LinkItemsSummarise(db.runs, a.tenant, a.recipient, a.items, a.dataVersion, s.now);
    } else {
      OnlyRefreshesAdd(cfg, db, s);
    }
    forall i | 0 <= i < |after.generations|
      ensures AreSummaries(after.generations[i].links, after.runs)
    {
      if i < |db.generations| {
        OldStillSummarise(db, after, i);
      }
    }
  }

  lemma {:induction false} AlwaysSummaries(cfg: Config, history: seq<Step>)
    ensures GenerationsSummarise(Reached(cfg, history))
  {
    if history != [] {
      var front := history[..|history| - 1];
      AlwaysSummaries(cfg, front);
      ReachedOk(cfg, front);
      StepSummarises(cfg, Reached(cfg, front), history[|history| - 1]);
    }
  }

  ghost function HeadOf(cfg: Config, history: seq<Step>, key: GenerationKey): (g: nat)
    requires key in Reached(cfg, history).heads
    ensures g < |Reached(cfg, history).generations| && Reached(cfg, history).generations[g].status.Published?
  {
    ReachedOk(cfg, history);
    Reached(cfg, history).heads[key].generation
  }

  /** Each report of a generation that a head shows is a succeeded summary run. */
  lemma PublishedHeadReads(cfg: Config, history: seq<Step>, key: GenerationKey)
    requires key in Reached(cfg, history).heads
    ensures var db := Reached(cfg, history);
            var g := db.generations[HeadOf(cfg, history, key)];
            && |g.links| == g.total
            && forall l, current | l in g.links :: Readable(db.runs, current, l) <==> l.run in current
  {
    ReachedOk(cfg, history);
    AlwaysSummaries(cfg, history);
    var db := Reached(cfg, history);
    var g := db.generations[HeadOf(cfg, history, key)];
    assert GenerationOk(g, db.runs);
    forall l, current | l in g.links
      ensures Readable(db.runs, current, l) <==> l.run in current
    {
      assert l.run in LinkedRuns(g.links);
    }
  }

  /**
   In every reachable state the generation a head shows is read in full while the versions of its
   runs are in force and their dashboards decode: all its reports in order, or the status alone
   once one has expired.
   */
  method ReadHead(ghost cfg: Config, ghost history: seq<Step>, key: GenerationKey, db: Db, current: set<RunId>,
                  broken: set<RunId>, age: map<RunId, Freshness>) returns (overview: Option<Overview>)
    requires db == Reached(cfg, history) && key in db.heads
    ensures var g := db.generations[HeadOf(cfg, history, key)];
            && (overview.Some? <==> forall l | l in g.links :: l.run in current && l.run !in broken)
            && (overview.Some? ==>
                  && overview.value.status == Worst(g.links, age)
                  && overview.value.items == if Worst(g.links, age).Expired? then [] else Runs(g.links))
  {
    ghost var shown := HeadOf(cfg, history, key);
    PublishedHeadReads(cfg, history, key);
    var g := db.generations[db.heads[key].generation];
    overview := LoadPublished(g, db.runs, current, broken, age);
  }
}
