/**
 The recipient, schedule and tenant stores' administrative transactions on shared tables.

 As in the report store, a method makes its statements in turn and is proved to leave the tables
 that the function of its transaction gives. Its result says exactly when the call goes ahead, and
 its other clauses what then holds of the rows a caller sees: who is seated, what may be redeemed,
 which schedules are live or due, and that rows of others are as they were.
 */
module RegistryStore {
  import opened Options
  import opened Units
  import opened Catalog
  import opened ReportTables
  import opened RegistrySteps

  class Store {
    var tenants: map<TenantId, Tenant>
    var identities: map<RecipientId, Identity>
    var memberships: map<Seat, Membership>
    var permissions: set<(TenantId, RecipientId, ReportKey)>
    var invitations: map<nat, Invitation>
    var plans: map<ScheduleId, Plan>

    constructor ()
      ensures Rows() == Registry(map[], map[], map[], {}, map[], map[])
    {
      tenants, identities, memberships, permissions, invitations, plans := map[], map[], map[], {}, map[], map[];
    }

    function Rows(): Registry
      reads this
    {
      Registry(tenants, identities, memberships, permissions, invitations, plans)
    }

    // ---- Recipients ----

    method CreateInvitation(tenant: TenantId, id: RecipientId, reference: nat, expiresAt: int) returns (ok: bool)
      modifies this
      ensures ok == Invitable(old(Rows()), tenant, id, reference)
      ensures Rows() == RegistrySteps.CreateInvitation(old(Rows()), tenant, id, reference, expiresAt)
      ensures ok ==> BothPending(Rows(), tenant, id) && Invites(Rows(), reference, tenant, id)
      ensures ok ==> forall now | now < expiresAt :: Redeemable(Rows(), reference, now)
    {
      ok := Invitable(Rows(), tenant, id, reference);
      if ok {
        identities := identities[id := Identity(Pending, None)];
        memberships := memberships[(tenant, id) := Membership(Pending, 1)];
        invitations := invitations[reference := Invitation(tenant, id, expiresAt, false)];
      }
    }

    /**
     previous is the reference the seat has. A repeated call with it is a replay while the
     invitation is open; otherwise the old reference stops working and the new one starts to.
     */
    method ReissueInvitation(tenant: TenantId, id: RecipientId, previous: nat, reference: nat, expiresAt: int, now: int)
      returns (ok: bool)
      modifies this
      ensures Rows() == RegistrySteps.ReissueInvitation(old(Rows()), tenant, id, previous, reference, expiresAt)
      ensures ok == (BothPending(old(Rows()), tenant, id) && Invites(old(Rows()), previous, tenant, id)
                     && (reference !in old(invitations)
                         || (reference == previous && Redeemable(old(Rows()), previous, now))))
      ensures ok ==> Invites(Rows(), reference, tenant, id) && (previous in invitations ==> previous == reference)
      ensures ok && now < expiresAt ==> Redeemable(Rows(), reference, now)
    {
      ok := false;
      if !BothPending(Rows(), tenant, id) || !Invites(Rows(), previous, tenant, id) {
        return;
      }
      if previous == reference {
        ok := Redeemable(Rows(), previous, now);
        return;
      }
      if reference !in invitations {
        invitations := (invitations - {previous})[reference := Invitation(tenant, id, expiresAt, false)];
        ok := true;
      }
    }

    /** The identity that is known takes over the seat and what it may see. */
    method MergeSeats(tenant: TenantId, pending: RecipientId, known: RecipientId)
      requires pending in identities && (tenant, pending) in memberships
      modifies this
      ensures Rows() == Merge(old(Rows()), tenant, pending, known)
    {
      var seat, pendingSeat := (tenant, known), memberships[(tenant, pending)];
      var version := if seat in memberships then memberships[seat].version else 1;
      memberships := memberships[seat := Membership(Current, version)];
      permissions := permissions + set p | p in permissions && p.0 == tenant && p.1 == pending :: (tenant, known, p.2);
      memberships := memberships[(tenant, pending) := pendingSeat.(standing := Revoked)];
      identities := identities[pending := identities[pending].(standing := Revoked)];
    }

    /** bound is the identity that now holds the seat; line_user_id_hash is unique. */
    method RedeemInvitation(reference: nat, lineHash: nat, now: int) returns (bound: Option<RecipientId>)
      requires |HoldersOf(Rows(), lineHash)| <= 1
      modifies this
      ensures Rows() == RegistrySteps.RedeemInvitation(old(Rows()), reference, lineHash, now)
      ensures bound.Some? ==> Redeemable(old(Rows()), reference, now) && !Redeemable(Rows(), reference, now)
      ensures bound.None? ==> Rows() == old(Rows())
      ensures bound.Some? <==>
                && Redeemable(old(Rows()), reference, now)
                && var i := old(invitations)[reference];
                && i.pending in old(identities) && (i.tenant, i.pending) in old(memberships)
                && (KnownAs(old(Rows()), lineHash) != {} || HoldersOf(old(Rows()), lineHash) <= {i.pending})
      ensures bound.Some? ==> bound.value in KnownAs(Rows(), lineHash)
    {
      if !Redeemable(Rows(), reference, now) {
        return None;
      }
      var i := invitations[reference];
      if i.pending !in identities || (i.tenant, i.pending) !in memberships {
        return None;
      }
      var known := KnownAs(Rows(), lineHash);
      if known != {} {
        var id :| id in known;
        OneHolder(Rows(), lineHash, id);
        if id != i.pending {
          MergeSeats(i.tenant, i.pending, id);
        }
        invitations := invitations[reference := i.(used := true)];
        return Some(id);
      }
      if HoldersOf(Rows(), lineHash) - {i.pending} != {} {
        return None;
      }
      identities := identities[i.pending := Identity(Current, Some(lineHash))];
      memberships := memberships[(i.tenant, i.pending) := memberships[(i.tenant, i.pending)].(standing := Current)];
      invitations := invitations[reference := i.(used := true)];
      return Some(i.pending);
    }

    method ClearGrants(tenant: TenantId, id: RecipientId)
      modifies this`permissions
      ensures permissions == WithoutGrants(old(Rows()), tenant, id)
    {
      permissions := set p | p in permissions && !(p.0 == tenant && p.1 == id);
    }

    /** Refused while a live schedule sends one of the withdrawn reports to the recipient. */
    method ReplacePermissions(tenant: TenantId, id: RecipientId, keys: set<ReportKey>, deprecated: set<ReportKey>,
                              version: nat)
      returns (ok: bool)
      modifies this
      ensures Rows() == RegistrySteps.ReplacePermissions(old(Rows()), tenant, id, keys, deprecated, version)
      ensures ok == Replaceable(old(Rows()), tenant, id, keys, deprecated, version)
      ensures ok ==> forall k :: (tenant, id, k) in permissions <==> k in keys
      ensures ok ==> memberships[(tenant, id)].version == version + 1
      ensures forall t, other, k | t != tenant || other != id ::
                (t, other, k) in permissions <==> (t, other, k) in old(permissions)
    {
      ok := false;
      if !Seated(Rows(), tenant, id) || memberships[(tenant, id)].version != version {
        return;
      }
      if !Selectable(deprecated, keys, KeysOf(Rows(), tenant, id)) {
        return;
      }
      if exists s | s in LivePlansOf(Rows(), tenant, id) :: exists k | k in plans[s].keys :: k !in keys {
        return;
      }
      ClearGrants(tenant, id);
      permissions := permissions + set k | k in keys :: (tenant, id, k);
      memberships := memberships[(tenant, id) := memberships[(tenant, id)].(version := version + 1)];
      ok := true;
    }

    method ExpireInvitations(tenant: TenantId, id: RecipientId, now: int)
      modifies this`invitations
      ensures invitations == InvitationsExpired(old(invitations), tenant, id, now)
    {
      invitations := map h | h in invitations ::
        if invitations[h].tenant == tenant && invitations[h].pending == id && !invitations[h].used
        then invitations[h].(expiresAt := Min(invitations[h].expiresAt, now)) else invitations[h];
    }

    method Revoke(tenant: TenantId, id: RecipientId, now: int) returns (ok: bool)
      modifies this
      ensures Rows() == RegistrySteps.Revoke(old(Rows()), tenant, id, now)
      ensures ok == (Seated(old(Rows()), tenant, id) && LivePlansOf(old(Rows()), tenant, id) == {})
      ensures ok ==> SeatGone(Rows(), tenant, id, now)
    {
      RevokeLeavesNoSeat(Rows(), tenant, id, now);
      ok := Seated(Rows(), tenant, id) && LivePlansOf(Rows(), tenant, id) == {};
      if ok {
        var seat := (tenant, id);
        var wasPending := memberships[seat].standing.Pending?;
        memberships := memberships[seat := Membership(Revoked, memberships[seat].version + 1)];
        ClearGrants(tenant, id);
        ExpireInvitations(tenant, id, now);
        if wasPending && id in identities && identities[id].standing.Pending? {
          identities := identities[id := identities[id].(standing := Revoked)];
        }
      }
    }

    // ---- Schedules ----

    method Create(s: ScheduleId, tenant: TenantId, input: PlanInput, deprecated: set<ReportKey>) returns (ok: bool)
      modifies this
      ensures Rows() == CreatePlan(old(Rows()), s, tenant, input, deprecated)
      ensures ok == Creatable(old(Rows()), s, tenant, input, deprecated)
      ensures ok ==> s in plans && plans[s].status.Draft? && plans[s].version == 1
      ensures ok ==> Permitted(Rows(), tenant, input.keys, input.recipients) && NameFree(Rows(), s, tenant, input.name)
    {
      if tenant !in tenants {
        return false;
      }
      ok := s !in plans && NameFree(Rows(), s, tenant, input.name) && ChildrenOk(Rows(), tenant, input, deprecated, []);
      if ok {
        plans := plans[s := Plan(tenant, input.name, Draft, input.keys, input.recipients, None, 1)];
      }
    }

    method Update(s: ScheduleId, input: PlanInput, deprecated: set<ReportKey>, version: nat) returns (ok: bool)
      modifies this
      ensures Rows() == UpdatePlan(old(Rows()), s, input, deprecated, version)
      ensures ok == Updatable(old(Rows()), s, input, deprecated, version)
      ensures ok ==> Editable(Rows(), s) && plans[s].version == version + 1 && plans[s].status == old(plans)[s].status
      ensures ok ==> Permitted(Rows(), plans[s].tenant, plans[s].keys, plans[s].recipients)
      ensures ok ==> NameFree(Rows(), s, plans[s].tenant, plans[s].name)
    {
      if !Editable(Rows(), s) || plans[s].version != version {
        return false;
      }
      ok := NameFree(Rows(), s, plans[s].tenant, input.name)
            && ChildrenOk(Rows(), plans[s].tenant, input, deprecated, plans[s].keys);
      if ok {
        plans := plans[s := plans[s].(name := input.name, keys := input.keys, recipients := input.recipients,
                                      version := version + 1)];
      }
    }

    /** blockers is what keeps a draft or paused schedule from going live. */
    method Activate(s: ScheduleId, nextRun: int, now: int) returns (ok: bool, blockers: set<Blocker>)
      modifies this
      ensures Rows() == ActivatePlan(old(Rows()), s, nextRun, now)
      ensures ok == (now < nextRun && s in old(plans)
                     && (old(plans)[s].status.Live?
                         || (Editable(old(Rows()), s) && Blockers(old(Rows()), s, now) == {})))
      ensures ok ==> s in plans && plans[s].status.Live?
      ensures ok && Editable(old(Rows()), s) ==>
              plans[s].nextRun == Some(nextRun) && plans[s].version == old(plans)[s].version + 1
      ensures !ok && now < nextRun && Editable(old(Rows()), s) ==> blockers == Blockers(old(Rows()), s, now) != {}
    {
      if nextRun <= now || s !in plans {
        return false, {};
      }
      if plans[s].status.Live? {
        return true, {};
      }
      if !plans[s].status.Draft? && !plans[s].status.Paused? {
        return false, {};
      }
      blockers := Blockers(Rows(), s, now);
      if blockers != {} {
        return false, blockers;
      }
      plans := plans[s := plans[s].(status := Live, nextRun := Some(nextRun), version := plans[s].version + 1)];
      ok := true;
    }

    method Pause(s: ScheduleId) returns (ok: bool)
      modifies this
      ensures Rows() == PausePlan(old(Rows()), s)
      ensures ok == (s in old(plans) && (old(plans)[s].status.Live? || old(plans)[s].status.Paused?))
      ensures ok ==> plans[s].status.Paused? && forall now :: !DuePlan(Rows(), s, now)
    {
      ok := s in plans && (plans[s].status.Live? || plans[s].status.Paused?);
      if ok && plans[s].status.Live? {
        plans := plans[s := plans[s].(status := Paused, nextRun := None, version := plans[s].version + 1)];
      }
    }

    /** An archived schedule is a replay, whatever version is sent. */
    method Archive(s: ScheduleId, version: nat) returns (ok: bool)
      modifies this
      ensures Rows() == ArchivePlan(old(Rows()), s, version)
      ensures ok == (s in old(plans)
                     && (old(plans)[s].status.Archived?
                         || (Editable(old(Rows()), s) && old(plans)[s].version == version)))
      ensures ok ==> plans[s].status.Archived? && !Editable(Rows(), s)
      ensures ok && Editable(old(Rows()), s) ==> plans[s].nextRun.None? && plans[s].version == version + 1
    {
      if s in plans && plans[s].status.Archived? {
        return true;
      }
      ok := Editable(Rows(), s) && plans[s].version == version;
      if ok {
        plans := plans[s := plans[s].(status := Archived, nextRun := None, version := plans[s].version + 1)];
      }
    }

    method Restore(s: ScheduleId, version: nat) returns (ok: bool)
      modifies this
      ensures Rows() == RestorePlan(old(Rows()), s, version)
      ensures ok == (s in old(plans) && old(plans)[s].status.Archived? && old(plans)[s].version == version)
      ensures ok ==> Editable(Rows(), s) && plans[s].status.Draft?
      ensures ok ==> plans[s].nextRun.None? && plans[s].version == version + 1
    {
      ok := s in plans && plans[s].status.Archived? && plans[s].version == version;
      if ok {
        plans := plans[s := plans[s].(status := Draft, nextRun := None, version := plans[s].version + 1)];
      }
    }

    /**
     The schedule row's part of MaterializeDue. taken says that the schedule has a row for its due
     time already, which refuses the insertion; following is the next occurrence after the due time.
     */
    method MaterializeDue(s: ScheduleId, taken: bool, following: int, now: int)
      returns (ok: bool, blockers: set<Blocker>)
      requires DuePlan(Rows(), s, now)
      modifies this
      ensures Rows() == RegistrySteps.MaterializeDue(old(Rows()), s, taken, following, now)
      ensures ok == !taken && blockers == Blockers(old(Rows()), s, now)
      ensures !ok ==> Rows() == old(Rows()) && DuePlan(Rows(), s, now)
      ensures ok && blockers != {} ==> plans[s].status.Paused? && plans[s].nextRun.None?
      ensures ok && blockers == {} ==> plans[s] == old(plans)[s].(nextRun := Some(following))
    {
      blockers := Blockers(Rows(), s, now);
      ok := !taken;
      if !ok {
        return;
      }
      if blockers != {} {
        plans := plans[s := plans[s].(status := Paused, nextRun := None, version := plans[s].version + 1)];
      } else {
        plans := plans[s := plans[s].(nextRun := Some(following))];
      }
    }

    // ---- Tenants ----

    /** The statements of the archival. */
    method PausePlans(tenant: TenantId)
      modifies this`plans
      ensures plans == PlansPaused(old(plans), tenant)
    {
      plans := map s | s in plans ::
        if plans[s].tenant == tenant && plans[s].status.Live?
        then plans[s].(status := Paused, nextRun := None, version := plans[s].version + 1) else plans[s];
    }

    method RevokePending(tenant: TenantId)
      modifies this`identities
      ensures identities == IdentitiesGone(old(identities), memberships, tenant)
    {
      identities := map id | id in identities ::
        if identities[id].standing.Pending? && (tenant, id) in memberships
        then identities[id].(standing := Revoked) else identities[id];
    }

    method UseInvitations(tenant: TenantId)
      modifies this`invitations
      ensures invitations == InvitationsGone(old(invitations), tenant)
    {
      invitations := map h | h in invitations ::
        if invitations[h].tenant == tenant then invitations[h].(used := true) else invitations[h];
    }

    method RevokeSeats(tenant: TenantId)
      modifies this`memberships
      ensures memberships == SeatsGone(old(memberships), tenant)
    {
      memberships := map s | s in memberships ::
        if s.0 == tenant then memberships[s].(standing := Revoked) else memberships[s];
    }

    method ArchiveTenant(tenant: TenantId, version: nat) returns (ok: bool)
      modifies this
      ensures Rows() == RegistrySteps.ArchiveTenant(old(Rows()), tenant, version)
      ensures ok == (tenant in old(tenants) && !old(tenants)[tenant].archived
                     && old(tenants)[tenant].version == version)
      ensures ok ==> NothingOpen(Rows(), tenant)
      ensures OthersUnchanged(old(Rows()), Rows(), tenant)
    {
      ArchiveLeavesNothingOpen(Rows(), tenant, version);
      ok := tenant in tenants && !tenants[tenant].archived && tenants[tenant].version == version;
      if ok {
        PausePlans(tenant);
        RevokePending(tenant);
        UseInvitations(tenant);
        RevokeSeats(tenant);
        tenants := tenants[tenant := tenants[tenant].(active := false, archived := true, version := version + 1)];
      }
    }
  }

  /** No schedule of the tenant is live, nobody has a seat, and no invitation can be redeemed. */
  ghost predicate NothingOpen(r: Registry, tenant: TenantId) {
    && tenant in r.tenants && r.tenants[tenant].archived && !r.tenants[tenant].active
    && (forall s | s in r.plans && r.plans[s].tenant == tenant :: !r.plans[s].status.Live?)
    && (forall id :: !Seated(r, tenant, id))
    && (forall h, now | h in r.invitations && r.invitations[h].tenant == tenant :: !Redeemable(r, h, now))
  }

  /** Tenants, schedules, seats and invitations of other tenants are as they were, and so is every permission. */
  ghost predicate OthersUnchanged(a: Registry, b: Registry, tenant: TenantId) {
    && a.permissions == b.permissions
    && a.tenants.Keys == b.tenants.Keys && (forall t | t in a.tenants && t != tenant :: b.tenants[t] == a.tenants[t])
    && a.plans.Keys == b.plans.Keys
       && (forall s | s in a.plans && a.plans[s].tenant != tenant :: b.plans[s] == a.plans[s])
    && a.memberships.Keys == b.memberships.Keys
    && (forall s | s in a.memberships && s.0 != tenant :: b.memberships[s] == a.memberships[s])
    && a.invitations.Keys == b.invitations.Keys
    && (forall h | h in a.invitations && a.invitations[h].tenant != tenant :: b.invitations[h] == a.invitations[h])
  }

  lemma ArchiveLeavesNothingOpen(r: Registry, tenant: TenantId, version: nat)
    ensures var after := RegistrySteps.ArchiveTenant(r, tenant, version);
            && (tenant in r.tenants && !r.tenants[tenant].archived && r.tenants[tenant].version == version ==>
                NothingOpen(after, tenant))
            && OthersUnchanged(r, after, tenant)
  {
  }

  /** Nobody sits there, nothing is permitted, and no invitation to the seat can be redeemed any more. */
  ghost predicate SeatGone(r: Registry, tenant: TenantId, id: RecipientId, now: int) {
    && !Seated(r, tenant, id)
    && (forall k :: (tenant, id, k) !in r.permissions)
    && (forall h, later | Invites(r, h, tenant, id) && now <= later :: !Redeemable(r, h, later))
  }

  lemma RevokeLeavesNoSeat(r: Registry, tenant: TenantId, id: RecipientId, now: int)
    ensures Seated(r, tenant, id) && LivePlansOf(r, tenant, id) == {} ==>
              SeatGone(RegistrySteps.Revoke(r, tenant, id, now), tenant, id, now)
  {
  }

  lemma OneHolder(r: Registry, lineHash: nat, id: RecipientId)
    requires |HoldersOf(r, lineHash)| <= 1 && id in HoldersOf(r, lineHash)
    ensures forall x | x in HoldersOf(r, lineHash) :: x == id
  {
    var rest := HoldersOf(r, lineHash) - {id};
    assert HoldersOf(r, lineHash) == {id} + rest && |HoldersOf(r, lineHash)| == 1 + |rest|;
  }
}
