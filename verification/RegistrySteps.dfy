/**
 Recipients, memberships, permissions, invitations and schedules, and what each administrative
 transaction does to them. A refused call returns the registry unchanged. Hashes of invitation
 references and LINE identities are opaque numbers.
 */
module RegistrySteps {
  import opened Options
  import opened Units
  import opened Catalog
  import opened ReportTables

  datatype Standing = Pending | Current | Revoked

  datatype Identity = Identity(standing: Standing, lineHash: Option<nat>)

  datatype Membership = Membership(standing: Standing, version: nat)

  datatype Invitation = Invitation(tenant: TenantId, pending: RecipientId, expiresAt: int, used: bool)

  datatype PlanStatus = Draft | Live | Paused | Archived

  /** A notification schedule with its reports and recipients; the name is in lower case. */
  datatype Plan = Plan(tenant: TenantId, name: string, status: PlanStatus, keys: seq<ReportKey>,
                       recipients: seq<RecipientId>, nextRun: Option<int>, version: nat)

  /** What the operator enters for a schedule, as far as the rules of this module go. */
  datatype PlanInput = PlanInput(name: string, keys: seq<ReportKey>, recipients: seq<RecipientId>)

  datatype Tenant = Tenant(active: bool, accessEndsAt: int, smlReady: bool, archived: bool, version: nat)

  type Seat = (TenantId, RecipientId)

  datatype Registry = Registry(
    tenants: map<TenantId, Tenant>,
    identities: map<RecipientId, Identity>,
    memberships: map<Seat, Membership>,
    permissions: set<(TenantId, RecipientId, ReportKey)>,
    invitations: map<nat, Invitation>,
    plans: map<ScheduleId, Plan>
  )

  // ---- Recipients ----

  /** The tenant exists, identity and seat are new, and no invitation has the reference or the seat yet. */
  predicate Invitable(r: Registry, tenant: TenantId, id: RecipientId, reference: nat) {
    && tenant in r.tenants && id !in r.identities && (tenant, id) !in r.memberships && reference !in r.invitations
    && (forall s | s in r.memberships :: s.1 != id)
    && (forall h | h in r.invitations :: r.invitations[h].pending != id)
  }

  function CreateInvitation(r: Registry, tenant: TenantId, id: RecipientId, reference: nat, expiresAt: int): Registry {
    if Invitable(r, tenant, id, reference) then
      r.(identities := r.identities[id := Identity(Pending, None)],
         memberships := r.memberships[(tenant, id) := Membership(Pending, 1)],
         invitations := r.invitations[reference := Invitation(tenant, id, expiresAt, false)])
    else r
  }

  predicate BothPending(r: Registry, tenant: TenantId, id: RecipientId) {
    && id in r.identities && r.identities[id].standing.Pending?
    && (tenant, id) in r.memberships && r.memberships[(tenant, id)].standing.Pending?
  }

  /** The reference belongs to an invitation to the seat. */
  predicate Invites(r: Registry, reference: nat, tenant: TenantId, id: RecipientId) {
    reference in r.invitations && r.invitations[reference].tenant == tenant && r.invitations[reference].pending == id
  }

  /** previous is the reference the invitation of the seat has now. */
  function ReissueInvitation(r: Registry, tenant: TenantId, id: RecipientId, previous: nat, reference: nat,
                             expiresAt: int): Registry {
    if BothPending(r, tenant, id) && Invites(r, previous, tenant, id) && reference !in r.invitations then
      r.(invitations := (r.invitations - {previous})[reference := Invitation(tenant, id, expiresAt, false)])
    else r
  }

  predicate Redeemable(r: Registry, reference: nat, now: int) {
    reference in r.invitations && !r.invitations[reference].used && now < r.invitations[reference].expiresAt
  }

  function HoldersOf(r: Registry, lineHash: nat): set<RecipientId> {
    set id | id in r.identities && r.identities[id].lineHash == Some(lineHash)
  }

  /** What the one may see, granted to the other. */
  function GrantsOf(r: Registry, tenant: TenantId, from: RecipientId,
                    to: RecipientId): set<(TenantId, RecipientId, ReportKey)> {
    set p | p in r.permissions && p.0 == tenant && p.1 == from :: (tenant, to, p.2)
  }

  /** Every permission but those of one seat. */
  function WithoutGrants(r: Registry, tenant: TenantId, id: RecipientId): set<(TenantId, RecipientId, ReportKey)> {
    set p | p in r.permissions && !(p.0 == tenant && p.1 == id)
  }

  /** The pending seat is given up and its permissions go to the identity already known. */
  function Merge(r: Registry, tenant: TenantId, pending: RecipientId, known: RecipientId): Registry
    requires pending in r.identities && (tenant, pending) in r.memberships
  {
    var seat := (tenant, known);
    var version := if seat in r.memberships then r.memberships[seat].version else 1;
    var left := r.memberships[(tenant, pending)].(standing := Revoked);
    r.(memberships := r.memberships[seat := Membership(Current, version)][(tenant, pending) := left],
       permissions := r.permissions + GrantsOf(r, tenant, pending, known),
       identities := r.identities[pending := r.identities[pending].(standing := Revoked)])
  }

  function Bind(r: Registry, tenant: TenantId, pending: RecipientId, lineHash: nat): Registry
    requires (tenant, pending) in r.memberships
  {
    r.(identities := r.identities[pending := Identity(Current, Some(lineHash))],
       memberships := r.memberships[(tenant, pending) := r.memberships[(tenant, pending)].(standing := Current)])
  }

  function MarkUsed(r: Registry, reference: nat): Registry
    requires reference in r.invitations
  {
    r.(invitations := r.invitations[reference := r.invitations[reference].(used := true)])
  }

  function KnownAs(r: Registry, lineHash: nat): set<RecipientId> {
    set id | id in HoldersOf(r, lineHash) && r.identities[id].standing.Current?
  }

  /** Some current row with the LINE identity; the schema allows no second one. */
  ghost function OneKnown(r: Registry, lineHash: nat): (id: RecipientId)
    requires KnownAs(r, lineHash) != {}
    ensures id in KnownAs(r, lineHash)
  {
    var id :| id in KnownAs(r, lineHash); id
  }

  /** The LINE identity is known already, is bound now, or belongs to another row and is refused. */
  ghost function RedeemInvitation(r: Registry, reference: nat, lineHash: nat, now: int): Registry {
    if !Redeemable(r, reference, now) then r
    else
      var i := r.invitations[reference];
      if i.pending !in r.identities || (i.tenant, i.pending) !in r.memberships then r
      else if KnownAs(r, lineHash) != {} then
        var known := OneKnown(r, lineHash);
        MarkUsed(if known != i.pending then Merge(r, i.tenant, i.pending, known) else r, reference)
      else if HoldersOf(r, lineHash) - {i.pending} != {} then r
      else MarkUsed(Bind(r, i.tenant, i.pending, lineHash), reference)
  }

  predicate Seated(r: Registry, tenant: TenantId, id: RecipientId) {
    (tenant, id) in r.memberships && !r.memberships[(tenant, id)].standing.Revoked?
  }

  /** Live plans of the tenant that send to the recipient. */
  function LivePlansOf(r: Registry, tenant: TenantId, id: RecipientId): set<ScheduleId> {
    set s | s in r.plans && r.plans[s].tenant == tenant && r.plans[s].status.Live? && id in r.plans[s].recipients
  }

  /** A deprecated report is never added to a selection, but may stay in one. */
  predicate Selectable(deprecated: set<ReportKey>, keys: set<ReportKey>, selected: set<ReportKey>) {
    forall k | k in keys && k in deprecated :: k in selected
  }

  function KeysOf(r: Registry, tenant: TenantId, id: RecipientId): set<ReportKey> {
    set p | p in r.permissions && p.0 == tenant && p.1 == id :: p.2
  }

  predicate Replaceable(r: Registry, tenant: TenantId, id: RecipientId, keys: set<ReportKey>,
                        deprecated: set<ReportKey>, version: nat) {
    && Seated(r, tenant, id) && r.memberships[(tenant, id)].version == version
    && Selectable(deprecated, keys, KeysOf(r, tenant, id))
    && forall s | s in LivePlansOf(r, tenant, id) :: forall k | k in r.plans[s].keys :: k in keys
  }

  function ReplacePermissions(r: Registry, tenant: TenantId, id: RecipientId, keys: set<ReportKey>,
                              deprecated: set<ReportKey>, version: nat): Registry {
    if Replaceable(r, tenant, id, keys, deprecated, version) then
      r.(permissions := WithoutGrants(r, tenant, id) + set k | k in keys :: (tenant, id, k),
         memberships := r.memberships[(tenant, id) := r.memberships[(tenant, id)].(version := version + 1)])
    else r
  }

  function InvitationsExpired(invitations: map<nat, Invitation>, tenant: TenantId, id: RecipientId,
                              now: int): map<nat, Invitation>
  {
    map h | h in invitations ::
      if invitations[h].tenant == tenant && invitations[h].pending == id && !invitations[h].used
      then invitations[h].(expiresAt := Min(invitations[h].expiresAt, now)) else invitations[h]
  }

  /** Unused invitations of the seat expire at once, and a pending identity goes with its seat. */
  function Revoke(r: Registry, tenant: TenantId, id: RecipientId, now: int): Registry {
    if Seated(r, tenant, id) && LivePlansOf(r, tenant, id) == {} then
      var seat := (tenant, id);
      r.(memberships := r.memberships[seat := Membership(Revoked, r.memberships[seat].version + 1)],
         permissions := WithoutGrants(r, tenant, id),
         invitations := InvitationsExpired(r.invitations, tenant, id, now),
         identities := if r.memberships[seat].standing.Pending? && id in r.identities
           && r.identities[id].standing.Pending?
                       then r.identities[id := r.identities[id].(standing := Revoked)] else r.identities)
    else r
  }

  // ---- Schedules ----

  predicate Permitted(r: Registry, tenant: TenantId, keys: seq<ReportKey>, recipients: seq<RecipientId>) {
    forall id | id in recipients :: forall k | k in keys :: (tenant, id, k) in r.permissions
  }

  predicate NoRepeats<T(==)>(s: seq<T>) {
    forall i, j | 0 <= i < j < |s| :: s[i] != s[j]
  }

  /**
   replaceScheduleChildren: reports and recipients do not repeat, the recipients belong to the
   tenant and may see every report, and no deprecated report is new.
   */
  predicate ChildrenOk(r: Registry, tenant: TenantId, input: PlanInput, deprecated: set<ReportKey>,
                       selected: seq<ReportKey>) {
    && NoRepeats(input.keys) && NoRepeats(input.recipients)
    && Selectable(deprecated, set k | k in input.keys, set k | k in selected)
    && (forall id | id in input.recipients :: (tenant, id) in r.memberships)
    && Permitted(r, tenant, input.keys, input.recipients)
  }

  /** unique (tenant_id, lower(name)); archived schedules keep their names. */
  predicate NameFree(r: Registry, s: ScheduleId, tenant: TenantId, name: string) {
    forall other | other in r.plans && other != s && r.plans[other].tenant == tenant :: r.plans[other].name != name
  }

  predicate Creatable(r: Registry, s: ScheduleId, tenant: TenantId, input: PlanInput, deprecated: set<ReportKey>) {
    && s !in r.plans && tenant in r.tenants && NameFree(r, s, tenant, input.name)
    && ChildrenOk(r, tenant, input, deprecated, [])
  }

  function CreatePlan(r: Registry, s: ScheduleId, tenant: TenantId, input: PlanInput,
                      deprecated: set<ReportKey>): Registry {
    if Creatable(r, s, tenant, input, deprecated) then
      r.(plans := r.plans[s := Plan(tenant, input.name, Draft, input.keys, input.recipients, None, 1)])
    else r
  }

  predicate Editable(r: Registry, s: ScheduleId) {
    s in r.plans && (r.plans[s].status.Draft? || r.plans[s].status.Paused?)
  }

  predicate Updatable(r: Registry, s: ScheduleId, input: PlanInput, deprecated: set<ReportKey>, version: nat) {
    && Editable(r, s) && r.plans[s].version == version
    && NameFree(r, s, r.plans[s].tenant, input.name)
    && ChildrenOk(r, r.plans[s].tenant, input, deprecated, r.plans[s].keys)
  }

  function UpdatePlan(r: Registry, s: ScheduleId, input: PlanInput, deprecated: set<ReportKey>,
                      version: nat): Registry {
    if Updatable(r, s, input, deprecated, version) then
      r.(plans := r.plans[s := r.plans[s].(name := input.name, keys := input.keys, recipients := input.recipients,
                                           version := version + 1)])
    else r
  }

  datatype Blocker = TenantInactive | SmlNotReady | RecipientNotActive | RecipientPermissionMismatch

  predicate InUse(r: Registry, tenant: TenantId, id: RecipientId) {
    && (tenant, id) in r.memberships && r.memberships[(tenant, id)].standing.Current?
    && id in r.identities && r.identities[id].standing.Current?
  }

  predicate TenantOpen(r: Registry, tenant: TenantId, now: int) {
    tenant in r.tenants && r.tenants[tenant].active && now < r.tenants[tenant].accessEndsAt
  }

  /** scheduleReadiness */
  function Blockers(r: Registry, s: ScheduleId, now: int): set<Blocker>
    requires s in r.plans
  {
    var p := r.plans[s];
    (if TenantOpen(r, p.tenant, now) then {} else {TenantInactive}) +
    (if p.tenant in r.tenants && r.tenants[p.tenant].smlReady then {} else {SmlNotReady}) +
    (if forall id | id in p.recipients :: InUse(r, p.tenant, id) then {} else {RecipientNotActive}) +
    (if Permitted(r, p.tenant, p.keys, p.recipients) then {} else {RecipientPermissionMismatch})
  }

  function WithPlan(r: Registry, s: ScheduleId, status: PlanStatus, nextRun: Option<int>): Registry
    requires s in r.plans
  {
    r.(plans := r.plans[s := r.plans[s].(status := status, nextRun := nextRun, version := r.plans[s].version + 1)])
  }

  function ActivatePlan(r: Registry, s: ScheduleId, nextRun: int, now: int): Registry {
    if now < nextRun && Editable(r, s) && Blockers(r, s, now) == {} then WithPlan(r, s, Live, Some(nextRun)) else r
  }

  function PausePlan(r: Registry, s: ScheduleId): Registry {
    if s in r.plans && r.plans[s].status.Live? then WithPlan(r, s, Paused, None) else r
  }

  function ArchivePlan(r: Registry, s: ScheduleId, version: nat): Registry {
    if Editable(r, s) && r.plans[s].version == version then WithPlan(r, s, Archived, None) else r
  }

  function RestorePlan(r: Registry, s: ScheduleId, version: nat): Registry {
    if s in r.plans && r.plans[s].status.Archived? && r.plans[s].version == version then WithPlan(r, s, Draft, None)
    else r
  }

  predicate DuePlan(r: Registry, s: ScheduleId, now: int) {
    s in r.plans && r.plans[s].status.Live? && r.plans[s].nextRun.Some? && r.plans[s].nextRun.value <= now
  }

  /**
   A due schedule is paused when something blocks it, and moves on to its next time otherwise. Both
   insert a row for the due time, so both are rolled back when that time is taken.
   */
  function MaterializeDue(r: Registry, s: ScheduleId, taken: bool, following: int, now: int): Registry {
    if !DuePlan(r, s, now) || taken then r
    else if Blockers(r, s, now) != {} then WithPlan(r, s, Paused, None)
    else r.(plans := r.plans[s := r.plans[s].(nextRun := Some(following))])
  }

  // ---- Tenants ----

  function IdentitiesGone(identities: map<RecipientId, Identity>, memberships: map<Seat, Membership>,
                          tenant: TenantId): map<RecipientId, Identity>
  {
    map id | id in identities ::
      if identities[id].standing.Pending? && (tenant, id) in memberships
      then identities[id].(standing := Revoked) else identities[id]
  }

  function SeatsGone(memberships: map<Seat, Membership>, tenant: TenantId): map<Seat, Membership> {
    map s | s in memberships :: if s.0 == tenant then memberships[s].(standing := Revoked) else memberships[s]
  }

  function InvitationsGone(invitations: map<nat, Invitation>, tenant: TenantId): map<nat, Invitation> {
    map h | h in invitations ::
      if invitations[h].tenant == tenant then invitations[h].(used := true) else invitations[h]
  }

  function PlansPaused(plans: map<ScheduleId, Plan>, tenant: TenantId): map<ScheduleId, Plan> {
    map s | s in plans ::
      if plans[s].tenant == tenant && plans[s].status.Live?
      then plans[s].(status := Paused, nextRun := None, version := plans[s].version + 1) else plans[s]
  }

  function ArchiveTenant(r: Registry, tenant: TenantId, version: nat): Registry {
    if tenant in r.tenants && !r.tenants[tenant].archived && r.tenants[tenant].version == version then
      Registry(r.tenants[tenant := r.tenants[tenant].(active := false, archived := true, version := version + 1)],
               IdentitiesGone(r.identities, r.memberships, tenant), SeatsGone(r.memberships, tenant),
               r.permissions, InvitationsGone(r.invitations, tenant), PlansPaused(r.plans, tenant))
    else r
  }

  /** Edits of the tenant row and connection tests. */
  function EditTenant(r: Registry, tenant: TenantId, row: Tenant): Registry {
    r.(tenants := r.tenants[tenant := row])
  }
}
