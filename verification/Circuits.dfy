/**
 What reaches a circuit, what it counts and when it opens. A completion starts the count again.
 */
module Circuits {
  import opened Options
  import opened Units
  import opened Catalog
  import opened ReportTables
  import opened ReportSteps
  import opened Admission
  import opened ReportInvariants
  import opened ReportActions
  import opened ReportTheorems
  import opened Cooldown

  // ---- Windows ----

  /** Where the window of the last failure started: a failure outside the window starts its own. */
  function WindowStart(times: seq<int>, length: int): nat
    requires times != []
    ensures WindowStart(times, length) < |times|
  {
    var n := |times| - 1;
    if n == 0 then 0
    else
      var before := WindowStart(times[..n], length);
      if times[before] < times[n] - length then n else before
  }

  /** How many failures the window of the last one holds. */
  function InWindow(times: seq<int>, length: int): nat {
    if times == [] then 0 else |times| - WindowStart(times, length)
  }

  // ---- Tenants ----

  /** What reaches the circuit of a tenant: a failed connection, or an outcome that stays unknown. */
  datatype Mark = Missed(at: int) | Unknown(at: int, until: int)

  function Marked(marks: seq<Mark>): Circuit {
    if marks == [] then Circuit(0, None, None, None) else WithMark(Marked(marks[..|marks| - 1]), marks[|marks| - 1])
  }

  function WithMark(c: Circuit, m: Mark): Circuit {
    match m
    case Missed(at) => TenantFailure(c, at)
    case Unknown(at, until) => Uncertain(c, at, until)
  }

  /** Failed connections count, and so does an unknown outcome that comes first. */
  function Counted(marks: seq<Mark>): seq<int> {
    if marks == [] then []
    else
      var front, last := marks[..|marks| - 1], marks[|marks| - 1];
      if last.Missed? || front == [] then Counted(front) + [last.at] else Counted(front)
  }

  lemma {:induction false} CountsMarks(marks: seq<Mark>)
    requires marks != []
    ensures var c, times := Marked(marks), Counted(marks);
            times != [] && c.windowStart == Some(times[WindowStart(times, 10 * MINUTE)])
            && c.failures == InWindow(times, 10 * MINUTE)
  {
    var front := marks[..|marks| - 1];
    if front != [] {
      CountsMarks(front);
    }
  }

  /** Mark k is a failed connection that is at least third in its ten-minute window. */
  predicate Third(marks: seq<Mark>, k: nat) {
    k < |marks| && marks[k].Missed? && 3 <= InWindow(Counted(marks[..k + 1]), 10 * MINUTE)
  }

  /** Mark k opens the circuit, and no third failure has set its end anew since. */
  predicate Opening(marks: seq<Mark>, k: nat) {
    && k < |marks| && (marks[k].Unknown? || Third(marks, k))
    && forall j: nat | k < j < |marks| :: !Third(marks, j)
  }

  function EndOf(m: Mark): int {
    match m
    case Missed(at) => at + 15 * MINUTE
    case Unknown(_, until) => until
  }

  /** The ends of what keeps the circuit open. */
  ghost function Ends(marks: seq<Mark>): set<int> {
    set k: nat | k < |marks| && Opening(marks, k) :: EndOf(marks[k])
  }

  predicate Latest(ends: set<int>, until: Option<int>) {
    match until
    case None => ends == {}
    case Some(u) => u in ends && forall e | e in ends :: e <= u
  }

  predicate Forward(marks: seq<Mark>) {
    forall k | 0 <= k < |marks| && marks[k].Unknown? :: marks[k].at <= marks[k].until
  }

  lemma ThirdInFront(marks: seq<Mark>, k: nat)
    requires k + 1 < |marks|
    ensures Third(marks, k) == Third(marks[..|marks| - 1], k)
  {
    assert marks[..|marks| - 1][..k + 1] == marks[..k + 1];
  }

  lemma OpeningInFront(marks: seq<Mark>, k: nat)
    requires k + 1 < |marks|
    ensures Opening(marks, k) <==> Opening(marks[..|marks| - 1], k) && !Third(marks, |marks| - 1)
  {
    var n := |marks| - 1;
    ThirdInFront(marks, k);
    forall j: nat | k < j < n
      ensures Third(marks, j) == Third(marks[..n], j)
    {
      ThirdInFront(marks, j);
    }
    if Opening(marks[..n], k) && !Third(marks, n) {
      assert forall j: nat | k < j < |marks| :: j == n || !Third(marks[..n], j);
    }
  }

  /** A third failure replaces the ends before it, and an unknown outcome adds one. */
  lemma EndsNext(marks: seq<Mark>)
    requires marks != []
    ensures var n := |marks| - 1;
            Ends(marks) == (if Third(marks, n) then {} else Ends(marks[..n]))
                           + (if Third(marks, n) || marks[n].Unknown? then {EndOf(marks[n])} else {})
  {
    var n := |marks| - 1;
    var front := marks[..n];
    forall k: nat | k < n
      ensures Opening(marks, k) <==> Opening(front, k) && !Third(marks, n)
    {
      OpeningInFront(marks, k);
    }
    assert Opening(marks, n) <==> marks[n].Unknown? || Third(marks, n);
    forall e | e in Ends(front) && !Third(marks, n)
      ensures e in Ends(marks)
    {
      var k: nat :| k < |front| && Opening(front, k) && EndOf(front[k]) == e;
      assert Opening(marks, k) && EndOf(marks[k]) == e;
    }
  }

  lemma {:induction false} OpenUntil(marks: seq<Mark>)
    requires Forward(marks)
    ensures Latest(Ends(marks), Marked(marks).openUntil)
  {
    if marks != [] {
      var n := |marks| - 1;
      OpenUntil(marks[..n]);
      EndsNext(marks);
      LastOpens(marks);
      NextLatest(Ends(marks[..n]), Marked(marks[..n]).openUntil, Third(marks, n), marks[n]);
    }
  }

  lemma LastOpens(marks: seq<Mark>)
    requires marks != []
    ensures var n := |marks| - 1;
            Marked(marks).openUntil == NextOpen(Marked(marks[..n]).openUntil, Third(marks, n), marks[n])
  {
    CountsMarks(marks);
    assert marks[..|marks| - 1 + 1] == marks;
  }

  function NextOpen(until: Option<int>, third: bool, m: Mark): Option<int> {
    if third then Some(EndOf(m))
    else if m.Unknown? then Some(Max(until.GetOr(m.at), m.until))
    else until
  }

  lemma NextLatest(ends: set<int>, until: Option<int>, third: bool, m: Mark)
    requires Latest(ends, until) && (m.Unknown? ==> m.at <= m.until && !third)
    ensures Latest((if third then {} else ends) + (if third || m.Unknown? then {EndOf(m)} else {}),
                   NextOpen(until, third, m))
  {
  }

  /** The marks that a recovery batch makes: one for every run of the tenant it finds RUNNING and expired. */
  ghost function RecoveryMarks(db: Db, ids: seq<RunId>, now: int, tenant: TenantId): seq<Mark> {
    if ids == [] then []
    else
      var front, x := ids[..|ids| - 1], ids[|ids| - 1];
      RecoveryMarks(db, front, now, tenant) + RecoveryMark(RecoverAll(db, front, now), x, now, tenant)
  }

  ghost function RecoveryMark(db: Db, x: RunId, now: int, tenant: TenantId): seq<Mark> {
    if LeaseExpired(db.runs, x, now) && db.runs[x].status.Running? && db.runs[x].info.tenant == tenant
    then [Unknown(now, now + 10 * MINUTE)] else []
  }

  /** The caller holds a run of the tenant. */
  predicate HoldsFor(db: Db, id: RunId, worker: WorkerId, now: int, tenant: TenantId) {
    Holds(db.runs, id, worker, now) && db.runs[id].info.tenant == tenant
  }

  /** The marks a call makes on the circuit of the tenant. */
  ghost function MarksOf(db: Db, s: Step, tenant: TenantId): seq<Mark> {
    match s.action
    case DoFail(id, w, connection) =>
      if connection && HoldsFor(db, id, w, s.now, tenant) then [Missed(s.now)] else []
    case DoFailUnknown(id, w, until) =>
      if s.now < until && HoldsFor(db, id, w, s.now, tenant) then [Unknown(s.now, until)] else []
    case DoRecover(ids) => RecoveryMarks(db, ids, s.now, tenant)
    case _ => []
  }

  /** The marks of a history since one of the tenant's runs last completed. */
  ghost function TenantMarks(cfg: Config, history: seq<Step>, tenant: TenantId): seq<Mark> {
    if history == [] then []
    else
      var front, s := history[..|history| - 1], history[|history| - 1];
      if CompletesFor(Reached(cfg, front), s, tenant) then []
      else TenantMarks(cfg, front, tenant) + MarksOf(Reached(cfg, front), s, tenant)
  }

  /** After at most one more mark. */
  function WithAtMostOne(c: Circuit, marks: seq<Mark>): Circuit {
    if marks == [] then c else WithMark(c, marks[0])
  }

  lemma MarkedJoin(marks: seq<Mark>, more: seq<Mark>)
    requires |more| <= 1
    ensures Marked(marks + more) == WithAtMostOne(Marked(marks), more)
  {
    if more == [] {
      assert marks + more == marks;
    } else {
      assert (marks + more)[..|marks|] == marks;
    }
  }

  lemma RecoverOneMarks(db: Db, x: RunId, now: int, tenant: TenantId)
    ensures CircuitOf(RecoverOne(db, x, now).circuits, tenant)
            == WithAtMostOne(CircuitOf(db.circuits, tenant), RecoveryMark(db, x, now, tenant))
  {
  }

  lemma {:induction false} RecoveryMarksCircuit(db: Db, ids: seq<RunId>, now: int, tenant: TenantId, marks: seq<Mark>)
    requires CircuitOf(db.circuits, tenant) == Marked(marks)
    ensures CircuitOf(RecoverAll(db, ids, now).circuits, tenant) == Marked(marks + RecoveryMarks(db, ids, now, tenant))
  {
    if ids == [] {
      assert marks + [] == marks;
    } else {
      var front, x := ids[..|ids| - 1], ids[|ids| - 1];
      var before := RecoverAll(db, front, now);
      var made, last := RecoveryMarks(db, front, now, tenant), RecoveryMark(before, x, now, tenant);
      RecoveryMarksCircuit(db, front, now, tenant, marks);
      RecoverOneMarks(before, x, now, tenant);
      MarkedJoin(marks + made, last);
      assert marks + (made + last) == (marks + made) + last;
    }
  }

  lemma {:induction false} RecoveryMarksForward(db: Db, ids: seq<RunId>, now: int, tenant: TenantId)
    ensures Forward(RecoveryMarks(db, ids, now, tenant))
  {
    if ids != [] {
      RecoveryMarksForward(db, ids[..|ids| - 1], now, tenant);
    }
  }

  lemma FailureMarks(cfg: Config, db: Db, s: Step, tenant: TenantId, marks: seq<Mark>)
    requires Fails(s.action) && CircuitOf(db.circuits, tenant) == Marked(marks)
    ensures CircuitOf(Apply(cfg, db, s).circuits, tenant) == Marked(marks + MarksOf(db, s, tenant))
  {
    MarkedJoin(marks, MarksOf(db, s, tenant));
    match s.action
    case DoFail(id, w, connection) =>
      FailMarks(db, id, w, connection, s.now, tenant);
    case DoFailUnknown(id, w, until) =>
      UnknownMarks(db, id, w, s.now, until, tenant);
    case DoFailPreRequest(id, w) =>
      PreRequestMarks(cfg, db, id, w, s.now, tenant);
  }

  lemma FailMarks(db: Db, id: RunId, worker: WorkerId, connection: bool, now: int, tenant: TenantId)
    ensures CircuitOf(Fail(db, id, worker, connection, now).circuits, tenant) ==
              if connection && HoldsFor(db, id, worker, now, tenant)
              then TenantFailure(CircuitOf(db.circuits, tenant), now) else CircuitOf(db.circuits, tenant)
  {
  }

  lemma UnknownMarks(db: Db, id: RunId, worker: WorkerId, now: int, until: int, tenant: TenantId)
    ensures CircuitOf(FailRemoteUnknown(db, id, worker, now, until).circuits, tenant) ==
              if now < until && HoldsFor(db, id, worker, now, tenant)
              then Uncertain(CircuitOf(db.circuits, tenant), now, until) else CircuitOf(db.circuits, tenant)
  {
  }

  lemma PreRequestMarks(cfg: Config, db: Db, id: RunId, worker: WorkerId, now: int, tenant: TenantId)
    ensures CircuitOf(FailPreRequestFailure(cfg, db, id, worker, now).circuits, tenant)
            == CircuitOf(db.circuits, tenant)
  {
  }

  lemma TenantStep(cfg: Config, db: Db, s: Step, tenant: TenantId, marks: seq<Mark>)
    requires CircuitOf(db.circuits, tenant) == Marked(marks) && !CompletesFor(db, s, tenant)
    ensures CircuitOf(Apply(cfg, db, s).circuits, tenant) == Marked(marks + MarksOf(db, s, tenant))
  {
    if Fails(s.action) {
      FailureMarks(cfg, db, s, tenant, marks);
    } else if s.action.DoRecover? {
      assert Apply(cfg, db, s) == RecoverAll(db, s.action.expired, s.now);
      RecoveryMarksCircuit(db, s.action.expired, s.now, tenant, marks);
    } else {
      assert MarksOf(db, s, tenant) == [] && marks + [] == marks;
      OtherCompletions(cfg, db, s, tenant);
    }
  }

  lemma MarksForward(db: Db, s: Step, tenant: TenantId)
    ensures Forward(MarksOf(db, s, tenant))
  {
    if s.action.DoRecover? {
      RecoveryMarksForward(db, s.action.expired, s.now, tenant);
    }
  }

  lemma OtherCompletions(cfg: Config, db: Db, s: Step, tenant: TenantId)
    requires !Fails(s.action) && !s.action.DoRecover? && !CompletesFor(db, s, tenant)
    ensures CircuitOf(Apply(cfg, db, s).circuits, tenant) == CircuitOf(db.circuits, tenant)
  {
    if s.action.DoComplete? {
      assert Apply(cfg, db, s) == Complete(cfg, db, s.action.run, s.action.worker, s.now);
    } else {
      OthersLeaveCircuits(cfg, db, s);
    }
  }

  lemma CompletionCloses(cfg: Config, db: Db, s: Step, tenant: TenantId)
    requires CompletesFor(db, s, tenant)
    ensures CircuitOf(Apply(cfg, db, s).circuits, tenant) == CLOSED
  {
    assert Apply(cfg, db, s) == Complete(cfg, db, s.action.run, s.action.worker, s.now);
  }

  /**
   In every reachable state, by what happened to the tenant since one of its runs last completed:
   the circuit counts the failures in the window of the last one, and is open until the latest of
   the ends of unknown outcomes and fifteen minutes after a failure that was at least third in its
   ten-minute window; the latter replaces every end before it.
   */
  lemma {:induction false} TenantCircuit(cfg: Config, history: seq<Step>, tenant: TenantId)
    ensures var c, marks := CircuitOf(Reached(cfg, history).circuits, tenant), TenantMarks(cfg, history, tenant);
            && c == Marked(marks) && Forward(marks)
            && Latest(Ends(marks), c.openUntil)
            && c.failures == InWindow(Counted(marks), 10 * MINUTE)
  {
    var marks := TenantMarks(cfg, history, tenant);
    if history != [] {
      var front, s := history[..|history| - 1], history[|history| - 1];
      var db := Reached(cfg, front);
      TenantCircuit(cfg, front, tenant);
      if CompletesFor(db, s, tenant) {
        CompletionCloses(cfg, db, s, tenant);
      } else {
        TenantStep(cfg, db, s, tenant, TenantMarks(cfg, front, tenant));
        MarksForward(db, s, tenant);
      }
    }
    OpenUntil(marks);
    if marks != [] {
      CountsMarks(marks);
    }
  }

  // ---- Hosts ----

  function HostFailures(times: seq<int>): Circuit {
    if times == [] then Circuit(0, None, None, None)
    else HostFailure(HostFailures(times[..|times| - 1]), times[|times| - 1])
  }

  /** The end of the last cooldown that a series of failures on the host has opened. */
  function HostOpening(times: seq<int>): Option<int> {
    if times == [] then None
    else
      var before, last := HostOpening(times[..|times| - 1]), times[|times| - 1];
      if 2 <= InWindow(times, 2 * MINUTE) then Some(Max(before.GetOr(last), last + 5 * MINUTE)) else before
  }

  lemma {:induction false} HostCounted(times: seq<int>)
    ensures var c := HostFailures(times);
            && c.failures == InWindow(times, 2 * MINUTE) && c.openUntil == HostOpening(times)
            && (times != [] ==> c.windowStart == Some(times[WindowStart(times, 2 * MINUTE)]))
  {
    if times != [] {
      HostCounted(times[..|times| - 1]);
    }
  }

  /** The caller holds a run of a tenant on the host. */
  predicate OnHost(cfg: Config, db: Db, id: RunId, worker: WorkerId, now: int, host: HostId) {
    && Holds(db.runs, id, worker, now)
    && db.runs[id].info.tenant in cfg.hostOf && cfg.hostOf[db.runs[id].info.tenant] == host
  }

  ghost predicate HostCounts(cfg: Config, db: Db, s: Step, host: HostId) {
    && (s.action.DoRetryPreRequest? || s.action.DoFailPreRequest?)
    && OnHost(cfg, db, s.action.run, s.action.worker, s.now, host)
  }

  ghost predicate HostClears(cfg: Config, db: Db, s: Step, host: HostId) {
    && s.action.DoComplete? && OnHost(cfg, db, s.action.run, s.action.worker, s.now, host)
    && db.runs[s.action.run].status.Running?
  }

  /** The failures before a request on the host since a run on it last completed. */
  ghost function HostTimes(cfg: Config, history: seq<Step>, host: HostId): seq<int> {
    if history == [] then []
    else
      var front, s := history[..|history| - 1], history[|history| - 1];
      if HostClears(cfg, Reached(cfg, front), s, host) then []
      else if HostCounts(cfg, Reached(cfg, front), s, host) then HostTimes(cfg, front, host) + [s.now]
      else HostTimes(cfg, front, host)
  }

  lemma {:induction false} RecoveryLeavesHosts(db: Db, ids: seq<RunId>, now: int)
    ensures RecoverAll(db, ids, now).hosts == db.hosts
  {
    if ids != [] {
      RecoveryLeavesHosts(db, ids[..|ids| - 1], now);
    }
  }

  lemma OthersLeaveHosts(cfg: Config, db: Db, s: Step)
    requires !s.action.DoRetryPreRequest? && !s.action.DoFailPreRequest? && !s.action.DoComplete?
    ensures Apply(cfg, db, s).hosts == db.hosts
  {
    if Notes(s.action) {
      NotesTouchOccurrences(cfg, db, s);
    } else if OneRow(s.action) {
      RowCallsLeaveHosts(cfg, db, s);
    } else if Inserts(s.action) {
      InsertsAdd(cfg, db, s);
    } else {
      match s.action
      case DoClaim(id, w, length, due) => assert Apply(cfg, db, s) == Claim(cfg, db, id, w, length, due, s.now);
      case DoRecover(ids) => RecoveryLeavesHosts(db, ids, s.now);
      case DoFail(id, w, connection) => assert Apply(cfg, db, s) == Fail(db, id, w, connection, s.now);
      case DoFailUnknown(id, w, until) => assert Apply(cfg, db, s) == FailRemoteUnknown(db, id, w, s.now, until);
      case DoArchive(t) => assert Apply(cfg, db, s) == ArchiveQueue(db, t);
    }
  }

  lemma RowCallsLeaveHosts(cfg: Config, db: Db, s: Step)
    requires OneRow(s.action) && !s.action.DoRetryPreRequest?
    ensures Apply(cfg, db, s).hosts == db.hosts
  {
    match s.action
    case DoRetry(id, w, at) => assert Apply(cfg, db, s) == Retry(db, id, w, at, s.now);
    case DoExtend(id, w, length) => assert Apply(cfg, db, s) == ExtendLease(db, id, w, length, s.now);
    case DoProgress(id, w, phase) => assert Apply(cfg, db, s) == UpdateProgress(db, id, w, phase, s.now);
    case DoMarkRunning(id, w, length) => assert Apply(cfg, db, s) == MarkRunning(db, id, w, length, s.now);
    case DoCancel(id) => assert Apply(cfg, db, s) == Cancel(db, id);
  }

  lemma HostStep(cfg: Config, db: Db, s: Step, host: HostId)
    ensures var c := CircuitOf(db.hosts, host);
            CircuitOf(Apply(cfg, db, s).hosts, host) ==
              if HostClears(cfg, db, s, host) then CLOSED
              else if HostCounts(cfg, db, s, host) then HostFailure(c, s.now) else c
  {
    match s.action
    case DoRetryPreRequest(id, w, at) => RetryOnHost(cfg, db, id, w, at, s.now, host);
    case DoFailPreRequest(id, w) => FailOnHost(cfg, db, id, w, s.now, host);
    case DoComplete(id, w) => CompleteOnHost(cfg, db, id, w, s.now, host);
    case _ => OthersLeaveHosts(cfg, db, s);
  }

  lemma RetryOnHost(cfg: Config, db: Db, id: RunId, worker: WorkerId, at: int, now: int, host: HostId)
    ensures CircuitOf(RetryPreRequestFailure(cfg, db, id, worker, at, now).hosts, host) ==
              if OnHost(cfg, db, id, worker, now, host) then HostFailure(CircuitOf(db.hosts, host), now)
              else CircuitOf(db.hosts, host)
  {
  }

  lemma FailOnHost(cfg: Config, db: Db, id: RunId, worker: WorkerId, now: int, host: HostId)
    ensures CircuitOf(FailPreRequestFailure(cfg, db, id, worker, now).hosts, host) ==
              if OnHost(cfg, db, id, worker, now, host) then HostFailure(CircuitOf(db.hosts, host), now)
              else CircuitOf(db.hosts, host)
  {
  }

  lemma CompleteOnHost(cfg: Config, db: Db, id: RunId, worker: WorkerId, now: int, host: HostId)
    ensures CircuitOf(Complete(cfg, db, id, worker, now).hosts, host) ==
              if OnHost(cfg, db, id, worker, now, host) && db.runs[id].status.Running? then CLOSED
              else CircuitOf(db.hosts, host)
  {
  }

  /** The same for a host, which opens for five minutes at the second failure in two minutes. */
  lemma {:induction false} HostCircuit(cfg: Config, history: seq<Step>, host: HostId)
    ensures var c, times := CircuitOf(Reached(cfg, history).hosts, host), HostTimes(cfg, history, host);
            && c == HostFailures(times)
            && c.failures == InWindow(times, 2 * MINUTE)
            && c.openUntil == HostOpening(times)
  {
    if history != [] {
      HostCircuit(cfg, history[..|history| - 1], host);
      HostStep(cfg, Reached(cfg, history[..|history| - 1]), history[|history| - 1], host);
    }
    HostCounted(HostTimes(cfg, history, host));
  }
}
