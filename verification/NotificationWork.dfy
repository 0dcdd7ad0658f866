/** What a notification worker reads about an occurrence and what it decides from it. */
module NotificationWork {
  import opened Options
  import opened Catalog
  import opened ReportTables

  /** The recipients of the schedule, and which of them are active and permitted for which report. */
  datatype Access = Access(recipients: seq<RecipientId>, granted: set<(RecipientId, ReportKey)>)

  /** The report key and period recorded in a stored dashboard. */
  datatype Stamp = Stamp(key: ReportKey, period: Period)

  datatype ReportResult = ReportResult(run: RunId, key: ReportKey, period: Period, dashboard: Option<Stamp>)

  datatype Target = Target(recipient: RecipientId, keys: seq<ReportKey>)

  datatype Work = Work(occurrence: nat, pending: bool, partial: bool, reports: seq<ReportResult>, targets: seq<Target>)

  function Keys(links: seq<Link>): (keys: seq<ReportKey>)
    ensures |keys| == |links|
  {
    seq(|links|, i requires 0 <= i < |links| => links[i].key)
  }

  // ---- loadNotificationWork ----

  predicate Usable(runs: map<RunId, Run>, l: Link, now: int) {
    l.run in runs && runs[l.run].status.Succeeded? && now < runs[l.run].expiresAt
  }

  predicate Unfinished(runs: map<RunId, Run>, l: Link) {
    l.run in runs && (runs[l.run].status.Queued? || Active(runs[l.run]))
  }

  function ResultOf(runs: map<RunId, Run>, dashboards: map<RunId, Stamp>, l: Link): ReportResult
    requires l.run in runs
  {
    ReportResult(l.run, l.key, runs[l.run].info.period, if l.run in dashboards then Some(dashboards[l.run]) else None)
  }

  function Results(links: seq<Link>, runs: map<RunId, Run>, dashboards: map<RunId, Stamp>,
                   now: int): seq<ReportResult> {
    if links == [] then []
    else
      var l := links[|links| - 1];
      Results(links[..|links| - 1], runs, dashboards, now) + if Usable(runs, l, now) then
        [ResultOf(runs, dashboards, l)] else []
  }

  /** The permitted, usable reports of one recipient, in link order. */
  function TargetKeys(links: seq<Link>, runs: map<RunId, Run>, access: Access, recipient: RecipientId,
                      now: int): seq<ReportKey> {
    if links == [] then []
    else
      var l := links[|links| - 1];
      TargetKeys(links[..|links| - 1], runs, access, recipient, now) +
      if Usable(runs, l, now) && (recipient, l.key) in access.granted then [l.key] else []
  }

  /** Recipients are targets only when they may see every report. */
  function Targets(recipients: seq<RecipientId>, links: seq<Link>, runs: map<RunId, Run>, access: Access,
                   now: int): seq<Target> {
    if recipients == [] then []
    else
      var r := recipients[|recipients| - 1];
      var keys := TargetKeys(links, runs, access, r, now);
      Targets(recipients[..|recipients| - 1], links, runs, access, now) + if |keys| == |links| then [Target(r, keys)]
        else []
  }

  ghost function WorkOf(db: Db, i: nat, access: Access, dashboards: map<RunId, Stamp>, now: int): Work
    requires i < |db.occurrences|
  {
    var links := db.occurrences[i].links;
    var pending := exists l | l in links :: Unfinished(db.runs, l);
    Work(i, pending, exists l | l in links :: !Unfinished(db.runs, l) && !Usable(db.runs, l, now),
         Results(links, db.runs, dashboards, now),
         if pending then [] else Targets(access.recipients, links, db.runs, access, now))
  }

  method LoadReports(links: seq<Link>, runs: map<RunId, Run>, dashboards: map<RunId, Stamp>, now: int)
    returns (pending: bool, partial: bool, reports: seq<ReportResult>)
    ensures pending == exists l | l in links :: Unfinished(runs, l)
    ensures partial == exists l | l in links :: !Unfinished(runs, l) && !Usable(runs, l, now)
    ensures reports == Results(links, runs, dashboards, now)
  {
    pending, partial, reports := false, false, [];
    for k := 0 to |links|
      invariant pending == exists l | l in links[..k] :: Unfinished(runs, l)
      invariant partial == exists l | l in links[..k] :: !Unfinished(runs, l) && !Usable(runs, l, now)
      invariant reports == Results(links[..k], runs, dashboards, now)
    {
      assert links[..k + 1] == links[..k] + [links[k]];
      if Unfinished(runs, links[k]) {
        pending := true;
      } else if Usable(runs, links[k], now) {
        reports := reports + [ResultOf(runs, dashboards, links[k])];
      } else {
        partial := true;
      }
    }
    assert links[..|links|] == links;
  }

  method LoadWork(db: Db, i: nat, access: Access, dashboards: map<RunId, Stamp>, now: int) returns (work: Work)
    requires i < |db.occurrences|
    ensures work == WorkOf(db, i, access, dashboards, now)
  {
    var links := db.occurrences[i].links;
    var pending, partial, reports := LoadReports(links, db.runs, dashboards, now);
    work := Work(i, pending, partial, reports, []);
    if !pending {
      var targets := LoadTargets(links, db.runs, access, now);
      work := work.(targets := targets);
    }
  }

  method LoadTargets(links: seq<Link>, runs: map<RunId, Run>, access: Access, now: int) returns (targets: seq<Target>)
    ensures targets == Targets(access.recipients, links, runs, access, now)
  {
    targets := [];
    for k := 0 to |access.recipients|
      invariant targets == Targets(access.recipients[..k], links, runs, access, now)
    {
      var keys: seq<ReportKey> := [];
      for j := 0 to |links|
        invariant keys == TargetKeys(links[..j], runs, access, access.recipients[k], now)
      {
        assert links[..j + 1][..j] == links[..j];
        if Usable(runs, links[j], now) && (access.recipients[k], links[j].key) in access.granted {
          keys := keys + [links[j].key];
        }
      }
      assert links[..|links|] == links;
      assert access.recipients[..k + 1][..k] == access.recipients[..k];
      if |keys| == |links| {
        targets := targets + [Target(access.recipients[k], keys)];
      }
    }
    assert access.recipients[..|access.recipients|] == access.recipients;
  }

  lemma {:induction false} TargetKeysFull(links: seq<Link>, runs: map<RunId, Run>, access: Access,
                                          recipient: RecipientId, now: int)
    ensures |TargetKeys(links, runs, access, recipient, now)| <= |links|
    ensures |TargetKeys(links, runs, access, recipient, now)| == |links| ==>
              TargetKeys(links, runs, access, recipient, now) == Keys(links)
              && forall l | l in links :: Usable(runs, l, now) && (recipient, l.key) in access.granted
  {
    if links != [] {
      var front, l := links[..|links| - 1], links[|links| - 1];
      TargetKeysFull(front, runs, access, recipient, now);
      assert links == front + [l];
      assert Keys(links) == Keys(front) + [l.key];
    }
  }

  predicate AscendingIds(ids: seq<RecipientId>) {
    forall i, j | 0 <= i < j < |ids| :: ids[i] < ids[j]
  }

  /** Every target is a recipient of the schedule, appears once, and carries all linked reports. */
  lemma {:induction false} TargetsAreComplete(recipients: seq<RecipientId>, links: seq<Link>, runs: map<RunId, Run>,
                                              access: Access, now: int)
    ensures var targets := Targets(recipients, links, runs, access, now);
            && (forall t | t in targets :: t.recipient in recipients && t.keys == Keys(links)
                                           && forall l | l in links ::
                                              Usable(runs, l, now) && (t.recipient, l.key) in access.granted)
            && (AscendingIds(recipients) ==> forall a, b | 0 <= a < b < |targets| ::
                targets[a].recipient < targets[b].recipient)
  {
    if recipients != [] {
      var front, r := recipients[..|recipients| - 1], recipients[|recipients| - 1];
      TargetsAreComplete(front, links, runs, access, now);
      TargetKeysFull(links, runs, access, r, now);
      assert recipients == front + [r];
    }
  }

  // ---- The worker's decision ----

  datatype Prepared = Prepared(recipient: RecipientId, keys: seq<ReportKey>)

  datatype Verdict =
    | GiveUp(code: string)
    | Later
    | Send(prepared: seq<Prepared>)

  function PermittedReports(results: seq<ReportResult>, keys: seq<ReportKey>): seq<ReportResult> {
    if results == [] then []
    else PermittedReports(results[..|results| - 1], keys) +
         if results[|results| - 1].key in keys then [results[|results| - 1]] else []
  }

  predicate Deliverable(work: Work, t: Target) {
    0 < |PermittedReports(work.reports, t.keys)| == |t.keys|
  }

  function PreparedFor(work: Work, targets: seq<Target>): seq<Prepared> {
    if targets == [] then []
    else
      var t := targets[|targets| - 1];
      PreparedFor(work, targets[..|targets| - 1]) + if Deliverable(work, t) then [Prepared(t.recipient, t.keys)] else []
  }

  /** expected is the effective period of each report for the occurrence, empty when it cannot be resolved. */
  predicate ValidContext(reports: seq<ReportResult>, expected: map<ReportKey, Period>) {
    && reports != []
    && (forall r | r in reports :: r.dashboard.Some? ==> r.dashboard.value == Stamp(r.key, r.period))
    && ((forall r | r in reports :: r.period == reports[0].period)
        || (forall r | r in reports :: r.key in expected && expected[r.key] == r.period))
  }

  method CheckContext(reports: seq<ReportResult>, expected: map<ReportKey, Period>) returns (ok: bool)
    ensures ok == ValidContext(reports, expected)
  {
    if |reports| == 0 {
      return false;
    }
    var mixed := false;
    for k := 0 to |reports|
      invariant mixed <==> exists r | r in reports[..k] :: r.period != reports[0].period
      invariant forall r | r in reports[..k] :: r.dashboard.Some? ==> r.dashboard.value == Stamp(r.key, r.period)
    {
      assert reports[..k + 1] == reports[..k] + [reports[k]];
      mixed := mixed || reports[k].period != reports[0].period;
      if reports[k].dashboard.Some? && reports[k].dashboard.value != Stamp(reports[k].key, reports[k].period) {
        assert reports[k] in reports;
        return false;
      }
    }
    assert reports[..|reports|] == reports;
    if !mixed {
      return true;
    }
    for k := 0 to |reports|
      invariant forall r | r in reports[..k] :: r.key in expected && expected[r.key] == r.period
    {
      assert reports[..k + 1] == reports[..k] + [reports[k]];
      if reports[k].key !in expected || expected[reports[k].key] != reports[k].period {
        assert reports[k] in reports;
        return false;
      }
    }
    return true;
  }

  /** ProcessOne after the claim; renders says whether every card could be rendered. */
  function VerdictOn(work: Work, expected: map<ReportKey, Period>, renders: bool): Verdict {
    if work.partial then GiveUp("REPORT_SET_INCOMPLETE")
    else if work.pending then Later
    else if work.reports == [] then GiveUp("ALL_REPORTS_FAILED")
    else if work.targets == [] then GiveUp("NO_ELIGIBLE_RECIPIENTS")
    else if !ValidContext(work.reports, expected) then GiveUp("FLEX_REPORT_CONTEXT_INVALID")
    else if PreparedFor(work, work.targets) == [] then GiveUp("NO_ELIGIBLE_RECIPIENTS")
    else if !renders then GiveUp("FLEX_RENDER_FAILED")
    else Send(PreparedFor(work, work.targets))
  }

  method Decide(work: Work, expected: map<ReportKey, Period>, renders: bool) returns (verdict: Verdict)
    ensures verdict == VerdictOn(work, expected, renders)
  {
    if work.partial {
      return GiveUp("REPORT_SET_INCOMPLETE");
    }
    if work.pending {
      return Later;
    }
    if |work.reports| == 0 {
      return GiveUp("ALL_REPORTS_FAILED");
    }
    if |work.targets| == 0 {
      return GiveUp("NO_ELIGIBLE_RECIPIENTS");
    }
    var valid := CheckContext(work.reports, expected);
    if !valid {
      return GiveUp("FLEX_REPORT_CONTEXT_INVALID");
    }
    var prepared: seq<Prepared> := [];
    for k := 0 to |work.targets|
      invariant prepared == PreparedFor(work, work.targets[..k])
      invariant renders || prepared == []
    {
      assert work.targets[..k + 1][..k] == work.targets[..k];
      var target := work.targets[k];
      var reports := PermittedReports(work.reports, target.keys);
      if |reports| == 0 || |reports| != |target.keys| {
        continue;
      }
      if !renders {
        PreparedGrows(work, k + 1, |work.targets|);
        assert work.targets[..|work.targets|] == work.targets;
        return GiveUp("FLEX_RENDER_FAILED");
      }
      prepared := prepared + [Prepared(target.recipient, target.keys)];
    }
    assert work.targets[..|work.targets|] == work.targets;
    if |prepared| == 0 {
      return GiveUp("NO_ELIGIBLE_RECIPIENTS");
    }
    verdict := Send(prepared);
  }

  lemma {:induction false} PreparedGrows(work: Work, k: nat, n: nat)
    requires k <= n <= |work.targets|
    ensures |PreparedFor(work, work.targets[..k])| <= |PreparedFor(work, work.targets[..n])|
    decreases n
  {
    if k < n {
      PreparedGrows(work, k, n - 1);
      assert work.targets[..n][..n - 1] == work.targets[..n - 1];
    }
  }

  lemma {:induction false} PreparedAreTargets(work: Work, targets: seq<Target>)
    requires forall a, b | 0 <= a < b < |targets| :: targets[a].recipient < targets[b].recipient
    ensures forall p | p in PreparedFor(work, targets) :: Target(p.recipient, p.keys) in targets
    ensures forall a, b | 0 <= a < b < |PreparedFor(work, targets)| ::
              PreparedFor(work, targets)[a].recipient < PreparedFor(work, targets)[b].recipient
  {
    if targets != [] {
      var front, t := targets[..|targets| - 1], targets[|targets| - 1];
      PreparedAreTargets(work, front);
      assert targets == front + [t];
    }
  }

  /** When the worker sends anything, every card covers the whole set of linked reports. */
  lemma SentCardsAreComplete(db: Db, i: nat, access: Access, dashboards: map<RunId, Stamp>, now: int,
                             expected: map<ReportKey, Period>, renders: bool)
    requires i < |db.occurrences| && AscendingIds(access.recipients)
    ensures var verdict := VerdictOn(WorkOf(db, i, access, dashboards, now), expected, renders);
            verdict.Send? ==>
              && (forall p | p in verdict.prepared :: p.keys == Keys(db.occurrences[i].links))
              && (forall a, b | 0 <= a < b < |verdict.prepared| ::
                  verdict.prepared[a].recipient < verdict.prepared[b].recipient)
              && (forall l | l in db.occurrences[i].links :: Usable(db.runs, l, now))
  {
    var work := WorkOf(db, i, access, dashboards, now);
    if VerdictOn(work, expected, renders).Send? {
      TargetsAreComplete(access.recipients, db.occurrences[i].links, db.runs, access, now);
      PreparedAreTargets(work, work.targets);
    }
  }

  // ---- Publish ----

  /** granted records what the recipient was permitted to see when the delivery was published. */
  datatype Delivery = Delivery(occurrence: nat, recipient: RecipientId, keys: seq<ReportKey>, granted: set<ReportKey>)

  /** count(distinct report_key): permitted reports of the delivery whose linked run has succeeded. */
  function PermissionCount(links: seq<Link>, runs: map<RunId, Run>, access: Access, recipient: RecipientId,
                           keys: seq<ReportKey>): nat {
    if links == [] then 0
    else
      var l := links[|links| - 1];
      PermissionCount(links[..|links| - 1], runs, access, recipient, keys) +
      if l.key in keys && (recipient, l.key) in access.granted && l.run in runs && runs[l.run].status.Succeeded? then 1
      else 0
  }

  predicate Entitled(db: Db, i: nat, access: Access, p: Prepared)
    requires i < |db.occurrences|
  {
    p.recipient in access.recipients
      && PermissionCount(db.occurrences[i].links, db.runs, access, p.recipient, p.keys) == |p.keys|
  }

  function GrantedTo(access: Access, recipient: RecipientId): set<ReportKey> {
    set g | g in access.granted && g.0 == recipient :: g.1
  }

  /** The deliveries Publish inserts: those that are still entitled at that moment. */
  function Inserted(db: Db, i: nat, access: Access, prepared: seq<Prepared>): seq<Delivery>
    requires i < |db.occurrences|
  {
    if prepared == [] then []
    else
      var p := prepared[|prepared| - 1];
      Inserted(db, i, access, prepared[..|prepared| - 1]) +
      if Entitled(db, i, access, p) then [Delivery(i, p.recipient, p.keys, GrantedTo(access, p.recipient))] else []
  }
}
