/**
 The rule that links live schedules, memberships, identities and permissions, and its
 preservation by every administrative transaction under a clock that does not run backwards.

 The rule could break from several sides: a recipient is revoked or loses a permission, an
 invitation is redeemed by a known identity so that two recipients become one, a schedule is
 activated or edited, a tenant is archived. Each transaction refuses what would break it, or
 removes what depends on it; together they keep it through every history of changes.
 */
module AccessRules {
  import opened Options
  import opened Catalog
  import opened ReportTables
  import opened RegistrySteps

  /** Every recipient of a live schedule is active and may see each of its reports. */
  ghost predicate PlanServed(r: Registry, p: Plan) {
    p.status.Live? ==>
      && (forall id | id in p.recipients :: InUse(r, p.tenant, id))
      && Permitted(r, p.tenant, p.keys, p.recipients)
  }

  ghost predicate LivePlansServed(r: Registry) {
    forall s | s in r.plans :: PlanServed(r, r.plans[s])
  }

  /** An open invitation belongs to a pending identity with a pending seat. */
  ghost predicate InvitationOk(r: Registry, i: Invitation, clock: int) {
    !i.used && clock < i.expiresAt ==> BothPending(r, i.tenant, i.pending)
  }

  ghost predicate InvitationsOk(r: Registry, clock: int) {
    forall h | h in r.invitations :: InvitationOk(r, r.invitations[h], clock)
  }

  /** A pending identity has one seat. */
  ghost predicate PendingAlone(r: Registry) {
    forall s, t | s in r.memberships && t in r.memberships && s.1 == t.1 && s.1 in r.identities
      && r.identities[s.1].standing.Pending? :: s == t
  }

  /** unique (tenant_id, pending_recipient_id) */
  ghost predicate OneInvitationPerSeat(r: Registry) {
    forall a, b | a in r.invitations && b in r.invitations && r.invitations[a].tenant == r.invitations[b].tenant
                  && r.invitations[a].pending == r.invitations[b].pending :: a == b
  }

  /** No two schedules of a tenant share a name. */
  ghost predicate NamesApart(r: Registry) {
    forall s | s in r.plans :: NameFree(r, s, r.plans[s].tenant, r.plans[s].name)
  }

  ghost predicate Rules(r: Registry, clock: int) {
    LivePlansServed(r) && InvitationsOk(r, clock) && PendingAlone(r) && OneInvitationPerSeat(r) && NamesApart(r)
  }

  /** Serving a plan only needs its seats, identities and permissions to stay. */
  ghost predicate SeatsStay(a: Registry, b: Registry, p: Plan) {
    forall id | id in p.recipients && InUse(a, p.tenant, id) ::
      InUse(b, p.tenant, id) && forall k | k in p.keys && (p.tenant, id, k) in a.permissions ::
        (p.tenant, id, k) in b.permissions
  }

  lemma ServedStays(a: Registry, b: Registry, p: Plan)
    requires PlanServed(a, p) && SeatsStay(a, b, p)
    ensures PlanServed(b, p)
  {
    if p.status.Live? {
      forall id, k | id in p.recipients && k in p.keys
        ensures (p.tenant, id, k) in b.permissions
      {
        assert InUse(a, p.tenant, id) && (p.tenant, id, k) in a.permissions;
      }
    }
  }

  lemma PlansStayServed(a: Registry, b: Registry)
    requires LivePlansServed(a) && b.plans == a.plans
    requires forall s | s in a.plans && a.plans[s].status.Live? :: SeatsStay(a, b, a.plans[s])
    ensures LivePlansServed(b)
  {
    forall s | s in b.plans
      ensures PlanServed(b, b.plans[s])
    {
      if a.plans[s].status.Live? {
        ServedStays(a, b, a.plans[s]);
      }
    }
  }

  // ---- Recipients ----

  lemma CreateInvitationKeeps(r: Registry, clock: int, tenant: TenantId, id: RecipientId, reference: nat,
                              expiresAt: int)
    requires Rules(r, clock)
    ensures Rules(CreateInvitation(r, tenant, id, reference, expiresAt), clock)
  {
    var after := CreateInvitation(r, tenant, id, reference, expiresAt);
    if Invitable(r, tenant, id, reference) {
      PlansStayServed(r, after);
      forall h | h in after.invitations
        ensures InvitationOk(after, after.invitations[h], clock)
      {
        if h != reference {
          assert InvitationOk(r, r.invitations[h], clock);
        }
      }
    }
  }

  lemma ReissueKeeps(r: Registry, clock: int, tenant: TenantId, id: RecipientId, previous: nat, reference: nat,
                     expiresAt: int)
    requires Rules(r, clock)
    ensures Rules(ReissueInvitation(r, tenant, id, previous, reference, expiresAt), clock)
  {
    var after := ReissueInvitation(r, tenant, id, previous, reference, expiresAt);
    if after != r {
      PlansStayServed(r, after);
      forall h | h in after.invitations
        ensures InvitationOk(after, after.invitations[h], clock)
      {
        if h != reference {
          assert InvitationOk(r, r.invitations[h], clock);
        }
      }
    }
  }

  /** Nobody but the invited seat waits for the invitation. */
  lemma OthersNotPending(r: Registry, clock: int, reference: nat, h: nat)
    requires Rules(r, clock) && Redeemable(r, reference, clock) && h in r.invitations && h != reference
    requires !r.invitations[h].used && clock < r.invitations[h].expiresAt
    ensures r.invitations[h].pending != r.invitations[reference].pending
  {
    assert InvitationOk(r, r.invitations[h], clock) && InvitationOk(r, r.invitations[reference], clock);
  }

  lemma MergeKeeps(r: Registry, clock: int, reference: nat, known: RecipientId)
    requires Rules(r, clock) && Redeemable(r, reference, clock)
    requires known in r.identities && r.identities[known].standing.Current?
    requires BothPending(r, r.invitations[reference].tenant, r.invitations[reference].pending)
    ensures Rules(MarkUsed(Merge(r, r.invitations[reference].tenant, r.invitations[reference].pending, known),
                           reference), clock)
  {
    var i := r.invitations[reference];
    var after := MarkUsed(Merge(r, i.tenant, i.pending, known), reference);
    PlansStayServed(r, after);
    forall h | h in after.invitations
      ensures InvitationOk(after, after.invitations[h], clock)
    {
      assert InvitationOk(r, r.invitations[h], clock);
      if h != reference && !r.invitations[h].used && clock < r.invitations[h].expiresAt {
        OthersNotPending(r, clock, reference, h);
      }
    }
  }

  lemma BindKeeps(r: Registry, clock: int, reference: nat, lineHash: nat)
    requires Rules(r, clock) && Redeemable(r, reference, clock)
    requires BothPending(r, r.invitations[reference].tenant, r.invitations[reference].pending)
    ensures Rules(MarkUsed(Bind(r, r.invitations[reference].tenant, r.invitations[reference].pending, lineHash),
                           reference), clock)
  {
    var i := r.invitations[reference];
    var after := MarkUsed(Bind(r, i.tenant, i.pending, lineHash), reference);
    PlansStayServed(r, after);
    forall h | h in after.invitations
      ensures InvitationOk(after, after.invitations[h], clock)
    {
      assert InvitationOk(r, r.invitations[h], clock);
      if h != reference && !r.invitations[h].used && clock < r.invitations[h].expiresAt {
        OthersNotPending(r, clock, reference, h);
      }
    }
  }

  lemma RedeemKeeps(r: Registry, clock: int, reference: nat, lineHash: nat)
    requires Rules(r, clock)
    ensures Rules(RedeemInvitation(r, reference, lineHash, clock), clock)
  {
    if Redeemable(r, reference, clock) {
      var i := r.invitations[reference];
      assert InvitationOk(r, i, clock);
      if KnownAs(r, lineHash) != {} {
        MergeKeeps(r, clock, reference, OneKnown(r, lineHash));
      } else {
        BindKeeps(r, clock, reference, lineHash);
      }
    }
  }

  lemma ReplacePermissionsKeeps(r: Registry, clock: int, tenant: TenantId, id: RecipientId, keys: set<ReportKey>,
                                deprecated: set<ReportKey>, version: nat)
    requires Rules(r, clock)
    ensures Rules(ReplacePermissions(r, tenant, id, keys, deprecated, version), clock)
  {
    var after := ReplacePermissions(r, tenant, id, keys, deprecated, version);
    if after != r {
      forall s | s in r.plans && r.plans[s].status.Live?
        ensures SeatsStay(r, after, r.plans[s])
      {
        if r.plans[s].tenant == tenant && id in r.plans[s].recipients {
          assert s in LivePlansOf(r, tenant, id);
        }
      }
      PlansStayServed(r, after);
      forall h | h in after.invitations
        ensures InvitationOk(after, after.invitations[h], clock)
      {
        assert InvitationOk(r, r.invitations[h], clock);
      }
    }
  }

  lemma RevokeKeeps(r: Registry, clock: int, tenant: TenantId, id: RecipientId)
    requires Rules(r, clock)
    ensures Rules(Revoke(r, tenant, id, clock), clock)
  {
    var after := Revoke(r, tenant, id, clock);
    if after != r {
      forall s | s in r.plans && r.plans[s].status.Live?
        ensures SeatsStay(r, after, r.plans[s])
      {
        assert r.plans[s].tenant != tenant || id !in r.plans[s].recipients || s in LivePlansOf(r, tenant, id);
      }
      PlansStayServed(r, after);
      forall h | h in after.invitations
        ensures InvitationOk(after, after.invitations[h], clock)
      {
        assert InvitationOk(r, r.invitations[h], clock);
      }
    }
  }

  // ---- Schedules ----

  /** Changing one plan that stays dormant, or is served, keeps the rules. */
  lemma PlanChangeKeeps(r: Registry, clock: int, s: ScheduleId, p: Plan)
    requires Rules(r, clock) && PlanServed(r, p) && NameFree(r, s, p.tenant, p.name)
    ensures Rules(r.(plans := r.plans[s := p]), clock)
  {
    var after := r.(plans := r.plans[s := p]);
    forall x | x in after.plans
      ensures PlanServed(after, after.plans[x])
    {
      ServedStays(r, after, after.plans[x]);
    }
    forall h | h in after.invitations
      ensures InvitationOk(after, after.invitations[h], clock)
    {
      assert InvitationOk(r, r.invitations[h], clock);
    }
  }

  /** Without blockers a schedule may go live. */
  lemma NoBlockersServes(r: Registry, s: ScheduleId, now: int, p: Plan)
    requires s in r.plans && Blockers(r, s, now) == {}
    requires p.tenant == r.plans[s].tenant && p.keys == r.plans[s].keys && p.recipients == r.plans[s].recipients
    ensures PlanServed(r, p)
  {
    assert RecipientNotActive !in Blockers(r, s, now) && RecipientPermissionMismatch !in Blockers(r, s, now);
  }

  /** The only blockers a live schedule can meet are its tenant's: it never loses a recipient. */
  lemma LiveBlockers(r: Registry, clock: int, s: ScheduleId, now: int)
    requires Rules(r, clock) && s in r.plans && r.plans[s].status.Live?
    ensures Blockers(r, s, now) <= {TenantInactive, SmlNotReady}
  {
    assert PlanServed(r, r.plans[s]);
  }

  lemma ArchivePlanServed(r: Registry, tenant: TenantId, version: nat, s: ScheduleId)
    requires LivePlansServed(r) && s in r.plans
    ensures s in ArchiveTenant(r, tenant, version).plans
    ensures PlanServed(ArchiveTenant(r, tenant, version), ArchiveTenant(r, tenant, version).plans[s])
  {
    var after := ArchiveTenant(r, tenant, version);
    assert PlanServed(r, r.plans[s]);
    if after != r && after.plans[s].status.Live? {
      ServedStays(r, after, r.plans[s]);
    }
  }

  lemma ArchiveInvitationOk(r: Registry, clock: int, tenant: TenantId, version: nat, h: nat)
    requires InvitationsOk(r, clock) && PendingAlone(r) && h in r.invitations
    ensures h in ArchiveTenant(r, tenant, version).invitations
    ensures InvitationOk(ArchiveTenant(r, tenant, version), ArchiveTenant(r, tenant, version).invitations[h], clock)
  {
    var i := r.invitations[h];
    assert InvitationOk(r, i, clock);
    if i.tenant != tenant && BothPending(r, i.tenant, i.pending) {
      assert (tenant, i.pending) !in r.memberships;
    }
  }

  lemma ArchivePendingAlone(r: Registry, tenant: TenantId, version: nat)
    requires PendingAlone(r)
    ensures PendingAlone(ArchiveTenant(r, tenant, version))
  {
  }

  lemma ArchiveOnePerSeat(r: Registry, tenant: TenantId, version: nat)
    requires OneInvitationPerSeat(r)
    ensures OneInvitationPerSeat(ArchiveTenant(r, tenant, version))
  {
  }

  lemma ArchiveLivePlans(r: Registry, tenant: TenantId, version: nat)
    requires LivePlansServed(r)
    ensures LivePlansServed(ArchiveTenant(r, tenant, version))
  {
    var after := ArchiveTenant(r, tenant, version);
    forall s | s in after.plans
      ensures PlanServed(after, after.plans[s])
    {
      ArchivePlanServed(r, tenant, version, s);
    }
  }

  lemma ArchiveTenantKeeps(r: Registry, clock: int, tenant: TenantId, version: nat)
    requires Rules(r, clock)
    ensures Rules(ArchiveTenant(r, tenant, version), clock)
  {
    var after := ArchiveTenant(r, tenant, version);
    forall h | h in after.invitations
      ensures InvitationOk(after, after.invitations[h], clock)
    {
      ArchiveInvitationOk(r, clock, tenant, version, h);
    }
    ArchiveLivePlans(r, tenant, version);
    ArchivePendingAlone(r, tenant, version);
    ArchiveOnePerSeat(r, tenant, version);
  }

  lemma TimePasses(r: Registry, clock: int, now: int)
    requires Rules(r, clock) && clock <= now
    ensures Rules(r, now)
  {
    forall h | h in r.invitations
      ensures InvitationOk(r, r.invitations[h], now)
    {
      assert InvitationOk(r, r.invitations[h], clock);
    }
  }

  // ---- Histories ----

  datatype Change =
    | Invite(tenant: TenantId, id: RecipientId, reference: nat, expiresAt: int)
    | Reissue(tenant: TenantId, id: RecipientId, previous: nat, reference: nat, expiresAt: int)
    | Redeem(reference: nat, lineHash: nat)
    | Permit(tenant: TenantId, id: RecipientId, allowed: set<ReportKey>, deprecated: set<ReportKey>, version: nat)
    | Expel(tenant: TenantId, id: RecipientId)
    | NewPlan(plan: ScheduleId, tenant: TenantId, input: PlanInput, deprecated: set<ReportKey>)
    | EditPlan(plan: ScheduleId, input: PlanInput, deprecated: set<ReportKey>, version: nat)
    | Activate(plan: ScheduleId, nextRun: int)
    | Pause(plan: ScheduleId)
    | Shelve(plan: ScheduleId, version: nat)
    | Unshelve(plan: ScheduleId, version: nat)
    | ComeDue(plan: ScheduleId, taken: bool, following: int)
    | CloseTenant(tenant: TenantId, version: nat)
    | EditTenantRow(tenant: TenantId, row: Tenant)

  datatype TimedChange = TimedChange(now: int, change: Change)

  ghost function Make(r: Registry, c: TimedChange): Registry {
    match c.change
    case Invite(t, id, reference, expiresAt) => CreateInvitation(r, t, id, reference, expiresAt)
    case Reissue(t, id, previous, reference, expiresAt) => ReissueInvitation(r, t, id, previous, reference, expiresAt)
    case Redeem(reference, lineHash) => RedeemInvitation(r, reference, lineHash, c.now)
    case Permit(t, id, keys, deprecated, version) => ReplacePermissions(r, t, id, keys, deprecated, version)
    case Expel(t, id) => Revoke(r, t, id, c.now)
    case NewPlan(s, t, input, deprecated) => CreatePlan(r, s, t, input, deprecated)
    case EditPlan(s, input, deprecated, version) => UpdatePlan(r, s, input, deprecated, version)
    case Activate(s, nextRun) => ActivatePlan(r, s, nextRun, c.now)
    case Pause(s) => PausePlan(r, s)
    case Shelve(s, version) => ArchivePlan(r, s, version)
    case Unshelve(s, version) => RestorePlan(r, s, version)
    case ComeDue(s, taken, following) => MaterializeDue(r, s, taken, following, c.now)
    case CloseTenant(t, version) => ArchiveTenant(r, t, version)
    case EditTenantRow(t, row) => EditTenant(r, t, row)
  }

  lemma PlanStepKeeps(r: Registry, c: TimedChange)
    requires Rules(r, c.now)
    requires c.change.NewPlan? || c.change.EditPlan? || c.change.Activate? || c.change.Pause? || c.change.Shelve?
             || c.change.Unshelve? || c.change.ComeDue?
    ensures Rules(Make(r, c), c.now)
  {
    var s, after := c.change.plan, Make(r, c);
    if after != r {
      assert after == r.(plans := r.plans[s := after.plans[s]]);
      if c.change.Activate? {
        NoBlockersServes(r, s, c.now, after.plans[s]);
      } else if c.change.ComeDue? {
        assert PlanServed(r, r.plans[s]);
      }
      PlanChangeKeeps(r, c.now, s, after.plans[s]);
    }
  }

  lemma EditTenantKeeps(r: Registry, clock: int, tenant: TenantId, row: Tenant)
    requires Rules(r, clock)
    ensures Rules(EditTenant(r, tenant, row), clock)
  {
    var after := EditTenant(r, tenant, row);
    PlansStayServed(r, after);
    forall h | h in after.invitations
      ensures InvitationOk(after, after.invitations[h], clock)
    {
      assert InvitationOk(r, r.invitations[h], clock);
    }
  }

  lemma MakeKeeps(r: Registry, c: TimedChange)
    requires Rules(r, c.now)
    ensures Rules(Make(r, c), c.now)
  {
    match c.change
    case Invite(t, id, reference, expiresAt) => CreateInvitationKeeps(r, c.now, t, id, reference, expiresAt);
    case Reissue(t, id, previous, reference, expiresAt) =>
      ReissueKeeps(r, c.now, t, id, previous, reference, expiresAt);
    case Redeem(reference, lineHash) => RedeemKeeps(r, c.now, reference, lineHash);
    case Permit(t, id, keys, deprecated, version) =>
      ReplacePermissionsKeeps(r, c.now, t, id, keys, deprecated, version);
    case Expel(t, id) => RevokeKeeps(r, c.now, t, id);
    case CloseTenant(t, version) => ArchiveTenantKeeps(r, c.now, t, version);
    case EditTenantRow(t, row) => EditTenantKeeps(r, c.now, t, row);
    case _ => PlanStepKeeps(r, c);
  }

  ghost function MakeAll(r: Registry, changes: seq<TimedChange>): Registry {
    if changes == [] then r else Make(MakeAll(r, changes[..|changes| - 1]), changes[|changes| - 1])
  }

  predicate Ordered(changes: seq<TimedChange>, start: int) {
    && (forall i | 0 <= i < |changes| :: start <= changes[i].now)
    && (forall i, j | 0 <= i < j < |changes| :: changes[i].now <= changes[j].now)
  }

  function Clock(changes: seq<TimedChange>, start: int): int {
    if changes == [] then start else changes[|changes| - 1].now
  }

  const NOBODY: Registry := Registry(map[], map[], map[], {}, map[], map[])

  /**
   After every history of changes, each recipient of each live schedule has an active seat and
   identity and a permission for every report of the schedule.
   */
  lemma {:induction false} RulesHold(changes: seq<TimedChange>, start: int)
    requires Ordered(changes, start)
    ensures Rules(MakeAll(NOBODY, changes), Clock(changes, start))
  {
    if changes != [] {
      var front, last := changes[..|changes| - 1], changes[|changes| - 1];
      RulesHold(front, start);
      TimePasses(MakeAll(NOBODY, front), Clock(front, start), last.now);
      MakeKeeps(MakeAll(NOBODY, front), last);
    }
  }

  /** So a due schedule is only ever paused because its tenant is closed or its connection is not ready. */
  lemma DuePausesOnlyForTenant(changes: seq<TimedChange>, start: int, s: ScheduleId, taken: bool, following: int,
                               now: int)
    requires Ordered(changes, start)
    requires var r := MakeAll(NOBODY, changes);
             DuePlan(r, s, now) && MaterializeDue(r, s, taken, following, now).plans[s].status.Paused?
    ensures var r := MakeAll(NOBODY, changes);
            Blockers(r, s, now) <= {TenantInactive, SmlNotReady} && Blockers(r, s, now) != {}
  {
    RulesHold(changes, start);
    LiveBlockers(MakeAll(NOBODY, changes), Clock(changes, start), s, now);
  }
}
