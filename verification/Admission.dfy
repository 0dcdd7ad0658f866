/**
 Entry to the queue: the checks of Enqueue in their order, and the dashboard refresh that joins
 or starts a generation. Tenant state and recipient permission are inputs; hashes are their preimages.
 */
module Admission {
  import opened Options
  import opened Units
  import opened Catalog
  import opened ReportTables
  import opened ReportSteps
  import opened Ranking

  predicate Open(r: Run) {
    r.status.Queued? || Active(r)
  }

  // ---- Enqueue ----

  /** dataVersion is None when the caller gives no execution key; kind is None when left blank. */
  datatype EnqueueInput = EnqueueInput(
    tenant: TenantId,
    key: ReportKey,
    source: Source,
    idempotencyKey: string,
    period: Period,
    requestedBy: Option<RecipientId>,
    kind: Option<bool>,
    priority: int,
    dataVersion: Option<nat>
  )

  datatype Refusal = IdempotencyConflict | Forbidden | NotFound | CircuitOpen | ConcurrencyLimit | InsertConflict

  datatype Outcome = Refused(why: Refusal) | Replayed | Joined | Created(info: RunInfo)

  /** What the other tables say about the tenant and the requesting recipient. */
  datatype Standing = Standing(tenantActive: bool, permitted: bool, expectedP90: nat)

  function ExecutionKeyOf(key: ReportKey, period: Period, dataVersion: nat): ExecutionKey {
    ExecutionKey(key, period.dateFrom, period.dateTo, dataVersion)
  }

  function DefaultPriority(source: Source, key: ReportKey): int {
    match source
    case Schedule => 100
    case Dashboard => 90
    case Background =>
      match RefreshClassOf(key)
      case Fast => 30
      case Standard => 25
      case Heavy => 20
  }

  function InfoOf(input: EnqueueInput, expectedP90: nat, now: int): RunInfo {
    RunInfo(input.tenant, input.key, input.source,
            input.kind.GetOr(!input.source.Dashboard?),
            if input.priority == 0 then DefaultPriority(input.source, input.key) else input.priority,
            input.idempotencyKey, input.period, input.requestedBy,
            if input.dataVersion.Some? then Some(ExecutionKeyOf(input.key, input.period, input.dataVersion.value))
            else None,
            now, expectedP90)
  }

  function SameRequest(runs: map<RunId, Run>, input: EnqueueInput): set<RunId> {
    set id | id in runs && runs[id].info.tenant == input.tenant && runs[id].info.source == input.source
             && runs[id].info.idempotencyKey == input.idempotencyKey
  }

  function OpenRuns(runs: map<RunId, Run>, tenant: TenantId, source: Source): set<RunId> {
    set id | id in runs && runs[id].info.tenant == tenant && runs[id].info.source == source && Open(runs[id])
  }

  function SameExecution(runs: map<RunId, Run>, info: RunInfo): set<RunId> {
    set id | id in OpenRuns(runs, info.tenant, Background) && runs[id].info.executionKey == info.executionKey
  }

  /** The same recipient asked for the same report and dates within the last minute. */
  function RecentRuns(runs: map<RunId, Run>, info: RunInfo, now: int): set<RunId> {
    set id | id in OpenRuns(runs, info.tenant, Dashboard)
             && runs[id].info.requestedBy == info.requestedBy && runs[id].info.key == info.key
             && runs[id].info.period.dateFrom == info.period.dateFrom
                && runs[id].info.period.dateTo == info.period.dateTo
             && now - MINUTE <= runs[id].info.createdAt
  }

  /** The unique index on open summary runs per execution key. */
  function SummaryConflicts(runs: map<RunId, Run>, info: RunInfo): set<RunId> {
    if info.source.Schedule? || !info.summary || info.executionKey.None? then {}
    else
      set id | id in runs && runs[id].info.tenant == info.tenant && !runs[id].info.source.Schedule?
               && runs[id].info.summary && runs[id].info.executionKey == info.executionKey && Open(runs[id])
  }

  /** The half-open branch: entered once open_until has passed, it demands open_until in the future. */
  predicate ProbeReserved(c: Circuit, now: int) {
    c.openUntil.Some? && now < c.openUntil.value && c.halfOpen.None?
  }

  predicate MalformedBackground(input: EnqueueInput) {
    input.source.Background? && (input.requestedBy.Some? || input.dataVersion.None? || input.kind != Some(true))
  }

  ghost function Enqueue(db: Db, input: EnqueueInput, standing: Standing, now: int): Outcome {
    var info := InfoOf(input, standing.expectedP90, now);
    var same := SameRequest(db.runs, input);
    var circuit := CircuitOf(db.circuits, input.tenant);
    if |input.idempotencyKey| < 8 || 200 < |input.idempotencyKey| then Refused(IdempotencyConflict)
    else if MalformedBackground(input) then Refused(Forbidden)
    else if exists id | id in same :: db.runs[id].info.key != input.key || db.runs[id].info.period != input.period then
      Refused(IdempotencyConflict)
    else if !standing.tenantActive then Refused(NotFound)
    else if input.source.Dashboard? && (input.requestedBy.None? || !standing.permitted) then Refused(Forbidden)
    else if same != {} then Replayed
    else if input.source.Dashboard? && circuit.openUntil.Some?
      && (now < circuit.openUntil.value || circuit.halfOpen.Some?) then
      Refused(CircuitOpen)
    else if input.source.Background? && SameExecution(db.runs, info) != {} then Joined
    else if input.source.Background? && 10 <= |OpenRuns(db.runs, input.tenant, Background)| then
      Refused(ConcurrencyLimit)
    else if input.source.Dashboard? && RecentRuns(db.runs, info, now) != {} then Joined
    else if input.source.Dashboard? && 2 <= |OpenRuns(db.runs, input.tenant, Dashboard)| then Refused(ConcurrencyLimit)
    else if SummaryConflicts(db.runs, info) != {} then Refused(InsertConflict)
    else if input.source.Dashboard? && circuit.openUntil.Some? && !ProbeReserved(circuit, now) then Refused(CircuitOpen)
    else Created(info)
  }

  function QueuedRun(info: RunInfo, expiresAt: int, now: int): Run {
    Run(info, Queued, now, None, None, 0, 0, expiresAt)
  }

  ghost function EnqueueDb(db: Db, input: EnqueueInput, standing: Standing, id: RunId, now: int): Db {
    match Enqueue(db, input, standing, now)
    case Created(info) =>
      if id in db.runs then db else db.(runs := db.runs[id := QueuedRun(info, now + DAY, now)])
    case _ => db
  }

  ghost function WithoutCircuit(db: Db, tenant: TenantId): Db {
    db.(circuits := db.circuits - {tenant})
  }

  /**
   The half-open probe: the circuit lets an interactive request in exactly when open_until is
   null. A circuit whose time has passed still refuses.
   */
  lemma InteractiveAdmission(db: Db, input: EnqueueInput, standing: Standing, now: int)
    requires input.source.Dashboard?
    ensures Enqueue(db, input, standing, now).Created? <==>
              Enqueue(WithoutCircuit(db, input.tenant), input, standing, now).Created?
              && CircuitOf(db.circuits, input.tenant).openUntil.None?
  {
    assert WithoutCircuit(db, input.tenant).runs == db.runs;
    assert CircuitOf(WithoutCircuit(db, input.tenant).circuits, input.tenant) == Circuit(0, None, None, None);
  }

  // ---- Dashboard generations ----

  predicate KeyBefore(a: (ReportKey, Period), b: (ReportKey, Period)) {
    KeyOrder(a.0) < KeyOrder(b.0)
  }

  /** One report of a refresh; run and idempotencyKey are drawn for the case that a run is inserted. */
  datatype RefreshItem = RefreshItem(key: ReportKey, period: Period, run: RunId, idempotencyKey: string)

  function Pairs(items: seq<RefreshItem>): (pairs: seq<(ReportKey, Period)>)
    ensures |pairs| == |items|
  {
    seq(|items|, i requires 0 <= i < |items| => (items[i].key, items[i].period))
  }

  /** describeDashboardGeneration */
  function GenerationKeyOf(tenant: TenantId, items: seq<RefreshItem>, dataVersion: nat): GenerationKey {
    GenerationKey(tenant, Sort(Pairs(items), KeyBefore), dataVersion)
  }

  predicate DistinctKeys(items: seq<RefreshItem>) {
    forall i, j | 0 <= i < j < |items| :: items[i].key != items[j].key
  }

  lemma PairsAreOrdered(items: seq<RefreshItem>)
    requires DistinctKeys(items)
    ensures Distinct(Pairs(items)) && TotalOn(Elements(Pairs(items)), KeyBefore)
  {
    var pairs := Pairs(items);
    forall x, y | x in Elements(pairs) && y in Elements(pairs) && x.0 == y.0
      ensures x == y
    {
      var i :| 0 <= i < |pairs| && pairs[i] == x;
      var j :| 0 <= j < |pairs| && pairs[j] == y;
    }
  }

  /**
   Two requests share a generation exactly when they come from one tenant, see one data source
   version and ask for the same reports and periods, in whatever order.
   */
  lemma SameGeneration(tenantA: TenantId, a: seq<RefreshItem>, versionA: nat, tenantB: TenantId, b: seq<RefreshItem>,
                       versionB: nat)
    requires DistinctKeys(a) && DistinctKeys(b)
    ensures GenerationKeyOf(tenantA, a, versionA) == GenerationKeyOf(tenantB, b, versionB) <==>
              tenantA == tenantB && versionA == versionB && Elements(Pairs(a)) == Elements(Pairs(b))
  {
    PairsAreOrdered(a);
    PairsAreOrdered(b);
    SortCorrect(Pairs(a), KeyBefore);
    SortCorrect(Pairs(b), KeyBefore);
    if Elements(Pairs(a)) == Elements(Pairs(b)) {
      SortIgnoresOrder(Pairs(a), Pairs(b), KeyBefore);
    }
  }

  function RefreshPriority(key: ReportKey): int {
    match RefreshClassOf(key)
    case Fast => 85
    case Standard => 84
    case Heavy => 83
  }

  function RefreshInfo(tenant: TenantId, recipient: RecipientId, item: RefreshItem, dataVersion: nat,
                       now: int): RunInfo {
    RunInfo(tenant, item.key, Dashboard, true, RefreshPriority(item.key), item.idempotencyKey, item.period,
            Some(recipient),
            Some(ExecutionKeyOf(item.key, item.period, dataVersion)), now, 0)
  }

  /** order by queued_at, id limit 1 */
  ghost predicate FirstQueued(runs: map<RunId, Run>, among: set<RunId>, id: RunId)
    requires among <= runs.Keys
  {
    id in among && forall o | o in among && o != id ::
      runs[id].queuedAt < runs[o].queuedAt || (runs[id].queuedAt == runs[o].queuedAt && id < o)
  }

  /** The open summary run a refresh item is coalesced with. */
  ghost function CoalescedRun(runs: map<RunId, Run>, info: RunInfo): (r: Option<RunId>)
    ensures r.Some? ==> r.value in SummaryConflicts(runs, info)
  {
    var open := SummaryConflicts(runs, info);
    if exists id | id in open :: FirstQueued(runs, open, id) then
      var id :| id in open && FirstQueued(runs, open, id); Some(id)
    else None
  }

  datatype Linking = Linking(runs: map<RunId, Run>, links: seq<Link>)

  ghost function LinkItem(done: Linking, info: RunInfo, id: RunId, now: int): Linking {
    match CoalescedRun(done.runs, info)
    case Some(open) => done.(links := done.links + [Link(info.key, open)])
    case None => Linking(done.runs[id := QueuedRun(info, now + DAY, now)], done.links + [Link(info.key, id)])
  }

  ghost function LinkItems(runs: map<RunId, Run>, tenant: TenantId, recipient: RecipientId, items: seq<RefreshItem>,
                           dataVersion: nat, now: int): Linking
  {
    if items == [] then Linking(runs, [])
    else
      var item := items[|items| - 1];
      LinkItem(LinkItems(runs, tenant, recipient, items[..|items| - 1], dataVersion, now),
               RefreshInfo(tenant, recipient, item, dataVersion, now), item.run, now)
  }

  function DrawnIds(items: seq<RefreshItem>): (ids: seq<RunId>)
    ensures |ids| == |items|
  {
    seq(|items|, i requires 0 <= i < |items| => items[i].run)
  }

  function BuildingWith(generations: seq<Generation>, key: GenerationKey): set<nat> {
    set i | 0 <= i < |generations| && generations[i].status.Building? && generations[i].key == key
  }

  function BuildingIn(generations: seq<Generation>, tenant: TenantId): set<nat> {
    set i | 0 <= i < |generations| && generations[i].status.Building? && generations[i].key.tenant == tenant
  }

  /** A new generation is started: the request neither joins one nor exceeds two per tenant. */
  ghost predicate StartsRefresh(db: Db, tenant: TenantId, items: seq<RefreshItem>, dataVersion: nat, allowed: bool) {
    && allowed && 1 <= |items| && DistinctKeys(items) && Fresh(db, DrawnIds(items))
    && BuildingWith(db.generations, GenerationKeyOf(tenant, items, dataVersion)) == {}
    && |BuildingIn(db.generations, tenant)| < 2
  }

  ghost function CreateRefresh(db: Db, tenant: TenantId, recipient: RecipientId, items: seq<RefreshItem>,
                               dataVersion: nat, allowed: bool, now: int): Db
  {
    if StartsRefresh(db, tenant, items, dataVersion, allowed) then
      var linked := LinkItems(db.runs, tenant, recipient, items, dataVersion, now);
      db.(runs := linked.runs,
          generations := db.generations +
                         [Generation(GenerationKeyOf(tenant, items, dataVersion), linked.links, |items|, Building, 0,
                                     0)])
    else db
  }
}
