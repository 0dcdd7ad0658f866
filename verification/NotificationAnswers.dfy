/** What a notification worker does with an occurrence, in terms of its report runs and the grants. */
module NotificationAnswers {
  import opened Options
  import opened Catalog
  import opened ReportTables
  import opened NotificationWork

  /** The report is still to come: its run waits or is being worked on. */
  predicate Awaited(db: Db, l: Link) {
    l.run in db.runs && db.runs[l.run].status in {Queued, Claimed, Running}
  }

  /** The report is there: its run succeeded and its result has not expired. */
  predicate Arrived(db: Db, l: Link, now: int) {
    l.run in db.runs && db.runs[l.run].status == Succeeded && now < db.runs[l.run].expiresAt
  }

  /** The report will never be there: its run failed, was cancelled, or its result has expired. */
  predicate Gone(db: Db, l: Link, now: int) {
    l.run in db.runs ==>
      db.runs[l.run].status in {Failed, Cancelled}
      || (db.runs[l.run].status == Succeeded && db.runs[l.run].expiresAt <= now)
  }

  predicate MaySeeAll(links: seq<Link>, access: Access, recipient: RecipientId) {
    forall l | l in links :: (recipient, l.key) in access.granted
  }

  /** Every stored dashboard belongs to its report, and the periods are one or the scheduled ones. */
  predicate InContext(db: Db, links: seq<Link>, dashboards: map<RunId, Stamp>, expected: map<ReportKey, Period>)
    requires forall l | l in links :: l.run in db.runs
  {
    && (forall l | l in links && l.run in dashboards ::
          dashboards[l.run] == Stamp(l.key, db.runs[l.run].info.period))
    && ((forall a, b | a in links && b in links :: db.runs[a.run].info.period == db.runs[b.run].info.period)
        || (forall l | l in links :: l.key in expected && db.runs[l.run].info.period == expected[l.key]))
  }

  /** Everything is there, and somebody may see all of it. */
  ghost predicate Complete(db: Db, links: seq<Link>, access: Access, now: int) {
    && links != [] && (forall l | l in links :: Arrived(db, l, now))
    && (exists r | r in access.recipients :: MaySeeAll(links, access, r))
  }

  // ---- The loaded work ----

  lemma {:induction false} AllResults(db: Db, links: seq<Link>, dashboards: map<RunId, Stamp>, now: int)
    requires forall l | l in links :: Arrived(db, l, now)
    ensures var results := Results(links, db.runs, dashboards, now);
            |results| == |links| && forall k | 0 <= k < |links| ::
              links[k].run in db.runs && results[k] == ResultOf(db.runs, dashboards, links[k])
  {
    if links != [] {
      var front, l := links[..|links| - 1], links[|links| - 1];
      assert l in links && Usable(db.runs, l, now);
      AllResults(db, front, dashboards, now);
      assert forall k | 0 <= k < |front| :: links[k] == front[k];
    }
  }

  lemma {:induction false} AllKeys(db: Db, links: seq<Link>, access: Access, recipient: RecipientId, now: int)
    requires forall l | l in links :: Arrived(db, l, now)
    ensures |TargetKeys(links, db.runs, access, recipient, now)| <= |links|
    ensures |TargetKeys(links, db.runs, access, recipient, now)| == |links| <==> MaySeeAll(links, access, recipient)
    ensures MaySeeAll(links, access, recipient) ==>
              TargetKeys(links, db.runs, access, recipient, now) == Keys(links)
  {
    if links != [] {
      var front, l := links[..|links| - 1], links[|links| - 1];
      AllKeys(db, front, access, recipient, now);
      assert links == front + [l];
      assert l in links && Usable(db.runs, l, now);
      assert MaySeeAll(links, access, recipient) <==>
             MaySeeAll(front, access, recipient) && (recipient, l.key) in access.granted;
      assert Keys(links) == Keys(front) + [l.key];
    }
  }

  lemma {:induction false} AllTargets(db: Db, recipients: seq<RecipientId>, links: seq<Link>, access: Access, now: int)
    requires forall l | l in links :: Arrived(db, l, now)
    ensures forall t :: t in Targets(recipients, links, db.runs, access, now) <==>
              t.recipient in recipients && MaySeeAll(links, access, t.recipient) && t.keys == Keys(links)
  {
    if recipients != [] {
      var front, r := recipients[..|recipients| - 1], recipients[|recipients| - 1];
      AllTargets(db, front, links, access, now);
      AllKeys(db, links, access, r, now);
      assert recipients == front + [r];
    }
  }

  lemma {:induction false} AllPermitted(results: seq<ReportResult>, keys: seq<ReportKey>)
    requires forall r | r in results :: r.key in keys
    ensures PermittedReports(results, keys) == results
  {
    if results != [] {
      AllPermitted(results[..|results| - 1], keys);
      assert results == results[..|results| - 1] + [results[|results| - 1]];
    }
  }

  lemma {:induction false} AllPrepared(work: Work, targets: seq<Target>)
    requires forall t | t in targets :: Deliverable(work, t)
    ensures |PreparedFor(work, targets)| == |targets|
    ensures forall k | 0 <= k < |targets| ::
              PreparedFor(work, targets)[k] == Prepared(targets[k].recipient, targets[k].keys)
  {
    if targets != [] {
      AllPrepared(work, targets[..|targets| - 1]);
    }
  }

  /** When everything is there, the loaded work says so, and each of its targets can be served. */
  lemma WorkWhenComplete(db: Db, i: nat, access: Access, dashboards: map<RunId, Stamp>, now: int,
                         expected: map<ReportKey, Period>)
    requires i < |db.occurrences| && db.occurrences[i].links != []
    requires forall l | l in db.occurrences[i].links :: Arrived(db, l, now)
    ensures var work, links := WorkOf(db, i, access, dashboards, now), db.occurrences[i].links;
            && !work.partial && !work.pending && work.reports != []
            && (work.targets != [] <==> Complete(db, links, access, now))
            && (ValidContext(work.reports, expected) <==> InContext(db, links, dashboards, expected))
            && (forall t | t in work.targets :: Deliverable(work, t))
  {
    var work, links := WorkOf(db, i, access, dashboards, now), db.occurrences[i].links;
    forall l | l in links
      ensures Usable(db.runs, l, now) && !Unfinished(db.runs, l)
    {
      LinkIsOneOfThree(db, l, now);
    }
    AllResults(db, links, dashboards, now);
    AllTargets(db, access.recipients, links, access, now);
    TargetsWhenComplete(db, links, access, work.targets, now);
    ContextMeans(db, links, dashboards, work.reports, expected);
    forall t | t in work.targets
      ensures Deliverable(work, t)
    {
      ResultKeys(db, links, dashboards, work.reports);
      AllPermitted(work.reports, t.keys);
    }
  }

  lemma TargetsWhenComplete(db: Db, links: seq<Link>, access: Access, targets: seq<Target>, now: int)
    requires links != [] && forall l | l in links :: Arrived(db, l, now)
    requires forall t :: t in targets <==>
               t.recipient in access.recipients && MaySeeAll(links, access, t.recipient) && t.keys == Keys(links)
    ensures targets != [] <==> Complete(db, links, access, now)
  {
    forall r | r in access.recipients && MaySeeAll(links, access, r)
      ensures targets != []
    {
      assert Target(r, Keys(links)) in targets;
    }
    if targets != [] {
      assert targets[0] in targets;
    }
  }

  lemma ResultKeys(db: Db, links: seq<Link>, dashboards: map<RunId, Stamp>, reports: seq<ReportResult>)
    requires |reports| == |links|
    requires forall k | 0 <= k < |links| ::
               links[k].run in db.runs && reports[k] == ResultOf(db.runs, dashboards, links[k])
    ensures forall r | r in reports :: r.key in Keys(links)
  {
    forall r | r in reports
      ensures r.key in Keys(links)
    {
      var k :| 0 <= k < |reports| && reports[k] == r;
      assert Keys(links)[k] == r.key;
    }
  }

  lemma ContextMeans(db: Db, links: seq<Link>, dashboards: map<RunId, Stamp>, reports: seq<ReportResult>,
                     expected: map<ReportKey, Period>)
    requires links != [] && |reports| == |links| && forall l | l in links :: l.run in db.runs
    requires forall k | 0 <= k < |links| :: reports[k] == ResultOf(db.runs, dashboards, links[k])
    ensures ValidContext(reports, expected) <==> InContext(db, links, dashboards, expected)
  {
    forall l | l in links
      ensures ResultOf(db.runs, dashboards, l) in reports
    {
      var k :| 0 <= k < |links| && links[k] == l;
      assert reports[k] in reports;
    }
    forall r | r in reports
      ensures exists l | l in links :: r == ResultOf(db.runs, dashboards, l)
    {
      var k :| 0 <= k < |reports| && reports[k] == r;
      assert links[k] in links;
    }
    assert links[0] in links && reports[0] in reports && reports[0] == ResultOf(db.runs, dashboards, links[0]);
  }

  /** The answer is to wait, to send, or else to give up. */
  ghost predicate Answers(db: Db, links: seq<Link>, access: Access, dashboards: map<RunId, Stamp>, now: int,
                          expected: map<ReportKey, Period>, renders: bool, verdict: Verdict)
  {
    && (verdict == Later <==> (exists l | l in links :: Awaited(db, l)) && !exists l | l in links :: Gone(db, l, now))
    && (verdict.Send? <==>
          Complete(db, links, access, now) && InContext(db, links, dashboards, expected) && renders)
    && (verdict.Send? ==>
          forall p :: p in verdict.prepared <==>
            p.recipient in access.recipients && MaySeeAll(links, access, p.recipient) && p.keys == Keys(links))
    && (verdict == GiveUp("REPORT_SET_INCOMPLETE") <==> exists l | l in links :: Gone(db, l, now))
  }

  lemma LinkIsOneOfThree(db: Db, l: Link, now: int)
    ensures Unfinished(db.runs, l) == Awaited(db, l) && Usable(db.runs, l, now) == Arrived(db, l, now)
    ensures Gone(db, l, now) == (!Unfinished(db.runs, l) && !Usable(db.runs, l, now))
    ensures !(Awaited(db, l) && Arrived(db, l, now))
  {
  }

  lemma AnswerOf(db: Db, i: nat, access: Access, dashboards: map<RunId, Stamp>, now: int,
                 expected: map<ReportKey, Period>, renders: bool)
    requires i < |db.occurrences|
    ensures Answers(db, db.occurrences[i].links, access, dashboards, now, expected, renders,
                    VerdictOn(WorkOf(db, i, access, dashboards, now), expected, renders))
  {
    var work, links := WorkOf(db, i, access, dashboards, now), db.occurrences[i].links;
    forall l | l in links
      ensures Unfinished(db.runs, l) == Awaited(db, l) && Usable(db.runs, l, now) == Arrived(db, l, now)
      ensures Gone(db, l, now) == (!Unfinished(db.runs, l) && !Usable(db.runs, l, now))
      ensures !(Awaited(db, l) && Arrived(db, l, now))
    {
      LinkIsOneOfThree(db, l, now);
    }
    if links == [] {
      assert work.reports == [];
    } else if forall l | l in links :: Arrived(db, l, now) {
      WorkWhenComplete(db, i, access, dashboards, now, expected);
      AllTargets(db, access.recipients, links, access, now);
      AllPrepared(work, work.targets);
      PreparedMeans(work.targets, PreparedFor(work, work.targets));
    }
  }

  lemma PreparedMeans(targets: seq<Target>, prepared: seq<Prepared>)
    requires |prepared| == |targets|
    requires forall k | 0 <= k < |targets| :: prepared[k] == Prepared(targets[k].recipient, targets[k].keys)
    ensures forall p :: p in prepared <==> Target(p.recipient, p.keys) in targets
  {
    forall p: Prepared | Target(p.recipient, p.keys) in targets
      ensures p in prepared
    {
      var k :| 0 <= k < |targets| && targets[k] == Target(p.recipient, p.keys);
      assert prepared[k] == p;
    }
  }

  /**
   From the rows of an occurrence to the worker's answer: it waits exactly while a report is awaited
   and none is gone, and sends exactly when all reports are there and in context, somebody may see
   all of them and every card renders, then to all who may.
   */
  method ProcessOne(db: Db, i: nat, access: Access, dashboards: map<RunId, Stamp>, now: int,
                    expected: map<ReportKey, Period>, renders: bool) returns (verdict: Verdict)
    requires i < |db.occurrences|
    ensures var links := db.occurrences[i].links;
            verdict == Later <==> (exists l | l in links :: Awaited(db, l)) && !exists l | l in links :: Gone(db, l, now)
    ensures var links := db.occurrences[i].links;
            verdict.Send? <==>
              Complete(db, links, access, now) && InContext(db, links, dashboards, expected) && renders
    ensures var links := db.occurrences[i].links;
            verdict.Send? ==>
              forall p :: p in verdict.prepared <==>
                p.recipient in access.recipients && MaySeeAll(links, access, p.recipient) && p.keys == Keys(links)
    ensures verdict == GiveUp("REPORT_SET_INCOMPLETE") <==> exists l | l in db.occurrences[i].links :: Gone(db, l, now)
  {
    var work := LoadWork(db, i, access, dashboards, now);
    verdict := Decide(work, expected, renders);
    AnswerOf(db, i, access, dashboards, now, expected, renders);
  }
}
