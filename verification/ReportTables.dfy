/**
 The rows the report protocol works on, as values. Identifiers are natural numbers standing for
 the UUIDs; times are microseconds; a missing circuit row is the same as an all-zero one.
 */
module ReportTables {
  import opened Options
  import opened Catalog

  type RunId = nat
  type TenantId = nat
  type HostId = nat
  type WorkerId = nat
  type RecipientId = nat
  type ScheduleId = nat

  datatype Source = Dashboard | Schedule | Background

  datatype Status = Queued | Claimed | Running | Succeeded | Failed | Cancelled

  /** The injective hash a summary run is coalesced by. */
  datatype ExecutionKey = ExecutionKey(key: ReportKey, dateFrom: string, dateTo: string, dataVersion: nat)

  /** The columns of a run that no statement updates. */
  datatype RunInfo = RunInfo(
    tenant: TenantId,
    key: ReportKey,
    source: Source,
    summary: bool,
    priority: int,
    idempotencyKey: string,
    period: Period,
    requestedBy: Option<RecipientId>,
    executionKey: Option<ExecutionKey>,
    createdAt: int,
    expectedP90: nat
  )

  datatype Run = Run(
    info: RunInfo,
    status: Status,
    queuedAt: int,
    claimedBy: Option<WorkerId>,
    lease: Option<int>,
    attempt: nat,
    phase: nat,
    expiresAt: int
  )

  datatype Circuit = Circuit(failures: nat, windowStart: Option<int>, openUntil: Option<int>, halfOpen: Option<RunId>)

  const CLOSED: Circuit := Circuit(0, None, None, None)

  /** A report run linked to an occurrence or a generation; the position is the index. */
  datatype Link = Link(key: ReportKey, run: RunId)

  datatype OccurrenceStatus = Collecting | Sending | Completed | PartialFailed | Closed

  /** A row of notification_runs with its linked report runs. */
  datatype Occurrence = Occurrence(
    tenant: TenantId,
    schedule: ScheduleId,
    scheduledFor: int,
    links: seq<Link>,
    status: OccurrenceStatus,
    claimedBy: Option<WorkerId>,
    lease: Option<int>,
    nextAttempt: int
  )

  datatype GenerationStatus = Building | Published | Broken

  /** The injective hash a generation is published under. */
  datatype GenerationKey = GenerationKey(tenant: TenantId, items: seq<(ReportKey, Period)>, dataVersion: nat)

  datatype Generation = Generation(
    key: GenerationKey,
    links: seq<Link>,
    total: nat,
    status: GenerationStatus,
    completed: nat,
    failed: nat
  )

  datatype Head = Head(generation: nat, version: nat)

  /** Occurrences and generations are numbered in the order of their insertion. */
  datatype Db = Db(
    runs: map<RunId, Run>,
    circuits: map<TenantId, Circuit>,
    hosts: map<HostId, Circuit>,
    occurrences: seq<Occurrence>,
    generations: seq<Generation>,
    heads: map<GenerationKey, Head>,
    lastClaimed: map<TenantId, int>
  )

  const EMPTY: Db := Db(map[], map[], map[], [], [], map[], map[])

  /** The two caps, and the endpoint host of each tenant with a connection. */
  datatype Config = Config(globalCap: nat, hostCap: nat, hostOf: map<TenantId, HostId>)

  predicate Active(r: Run) {
    r.status.Claimed? || r.status.Running?
  }

  predicate Terminal(r: Run) {
    r.status.Succeeded? || r.status.Failed? || r.status.Cancelled?
  }

  function CircuitOf(circuits: map<nat, Circuit>, id: nat): Circuit {
    if id in circuits then circuits[id] else Circuit(0, None, None, None)
  }

  predicate OpenAt(c: Circuit, now: int) {
    c.openUntil.Some? && now < c.openUntil.value
  }

  function LinkedRuns(links: seq<Link>): set<RunId> {
    set l | l in links :: l.run
  }
}
