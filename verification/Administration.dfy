/**
 When an administrative call goes ahead and what it leaves, in terms of the rows of the tables: who
 takes over an invitation, what replacing and revoking keep, which inputs fit a schedule, and when it
 may go live, moves on or is paused.
 */
module Administration {
  import opened Options
  import opened Units
  import opened Catalog
  import opened ReportTables
  import opened RegistrySteps

  // ---- Invitations ----

  /** An invitation that can still be taken up, for a seat that exists. */
  predicate Open(r: Registry, reference: nat, now: int) {
    && reference in r.invitations && !r.invitations[reference].used && now < r.invitations[reference].expiresAt
    && r.invitations[reference].pending in r.identities
    && (r.invitations[reference].tenant, r.invitations[reference].pending) in r.memberships
  }

  /** The row has this LINE identity. */
  predicate HasLine(r: Registry, id: RecipientId, lineHash: nat) {
    id in r.identities && r.identities[id].lineHash == Some(lineHash)
  }

  predicate Used(r: Registry, reference: nat, after: Registry) {
    && reference in r.invitations
    && after.invitations == r.invitations[reference := r.invitations[reference].(used := true)]
    && after.plans == r.plans && after.tenants == r.tenants
  }

  /** The seat of the one and what it may see have gone to the other. */
  ghost predicate TakenOver(r: Registry, tenant: TenantId, from: RecipientId, to: RecipientId, after: Registry) {
    && from in r.identities && (tenant, from) in r.memberships && (tenant, to) in after.memberships
    && after.memberships[(tenant, to)].standing == Current
    && after.memberships == r.memberships[(tenant, to) := after.memberships[(tenant, to)]]
         [(tenant, from) := r.memberships[(tenant, from)].(standing := Revoked)]
    && after.identities == r.identities[from := r.identities[from].(standing := Revoked)]
    && forall t, x, k :: (t, x, k) in after.permissions <==>
         (t, x, k) in r.permissions || (t == tenant && x == to && (tenant, from, k) in r.permissions)
  }

  /**
   An open invitation is used up when the LINE identity is current already, and then seat and
   permissions go to its row; or when no other row has it, and then it is bound to the invited one.
   Otherwise nothing changes.
   */
  lemma RedeemMeans(r: Registry, reference: nat, lineHash: nat, now: int)
    ensures var after := RedeemInvitation(r, reference, lineHash, now);
            if Open(r, reference, now) && exists x :: HasLine(r, x, lineHash) && r.identities[x].standing == Current then
              var i := r.invitations[reference];
              && Used(r, reference, after)
              && exists x | HasLine(r, x, lineHash) && r.identities[x].standing == Current ::
                   if x == i.pending then after == r.(invitations := after.invitations)
                   else TakenOver(r, i.tenant, i.pending, x, after)
            else if Open(r, reference, now)
                    && forall x | HasLine(r, x, lineHash) :: x == r.invitations[reference].pending then
              var i := r.invitations[reference];
              && Used(r, reference, after) && after.permissions == r.permissions
              && after.identities == r.identities[i.pending := Identity(Current, Some(lineHash))]
              && after.memberships == r.memberships[(i.tenant, i.pending) :=
                                        r.memberships[(i.tenant, i.pending)].(standing := Current)]
            else after == r
  {
    forall x
      ensures HasLine(r, x, lineHash) && r.identities[x].standing == Current <==> x in KnownAs(r, lineHash)
    {
    }
    if Open(r, reference, now) && KnownAs(r, lineHash) != {} {
      KnownTakesOver(r, reference, lineHash, now);
    } else if Open(r, reference, now) {
      var pending := r.invitations[reference].pending;
      forall x
        ensures HasLine(r, x, lineHash) && x != pending <==> x in HoldersOf(r, lineHash) - {pending}
      {
      }
    }
  }

  lemma KnownTakesOver(r: Registry, reference: nat, lineHash: nat, now: int)
    requires Open(r, reference, now) && KnownAs(r, lineHash) != {}
    ensures var i, after := r.invitations[reference], RedeemInvitation(r, reference, lineHash, now);
            && Used(r, reference, after)
            && exists x | HasLine(r, x, lineHash) && r.identities[x].standing == Current ::
                 if x == i.pending then after == r.(invitations := after.invitations)
                 else TakenOver(r, i.tenant, i.pending, x, after)
  {
    var i, after := r.invitations[reference], RedeemInvitation(r, reference, lineHash, now);
    var x := OneKnown(r, lineHash);
    assert HasLine(r, x, lineHash) && r.identities[x].standing == Current;
    if x != i.pending {
      GrantsMean(r, i.tenant, i.pending, x);
      assert TakenOver(r, i.tenant, i.pending, x, after);
    }
  }

  lemma GrantsMean(r: Registry, tenant: TenantId, from: RecipientId, to: RecipientId)
    ensures forall t, x, k :: (t, x, k) in GrantsOf(r, tenant, from, to) <==>
              t == tenant && x == to && (tenant, from, k) in r.permissions
  {
    forall k | (tenant, from, k) in r.permissions
      ensures (tenant, to, k) in GrantsOf(r, tenant, from, to)
    {
      assert (tenant, from, k).0 == tenant && (tenant, from, k).1 == from && (tenant, from, k).2 == k;
    }
  }

  /** A new invitation needs a tenant, an unknown recipient and an unused reference. */
  lemma InviteMeans(r: Registry, tenant: TenantId, id: RecipientId, reference: nat, expiresAt: int)
    ensures var after := CreateInvitation(r, tenant, id, reference, expiresAt);
            if tenant in r.tenants && id !in r.identities && reference !in r.invitations
               && (forall s | s in r.memberships :: s.1 != id)
               && (forall h | h in r.invitations :: r.invitations[h].pending != id)
            then after == r.(identities := r.identities[id := Identity(Pending, None)],
                             memberships := r.memberships[(tenant, id) := Membership(Pending, 1)],
                             invitations := r.invitations[reference := Invitation(tenant, id, expiresAt, false)])
            else after == r
  {
    assert (tenant, id) in r.memberships ==> (tenant, id).1 == id;
  }

  /** A pending recipient gets a new reference in the place of the old one. */
  lemma ReissueMeans(r: Registry, tenant: TenantId, id: RecipientId, previous: nat, reference: nat, expiresAt: int)
    ensures var after := ReissueInvitation(r, tenant, id, previous, reference, expiresAt);
            if && id in r.identities && r.identities[id].standing == Pending
               && (tenant, id) in r.memberships && r.memberships[(tenant, id)].standing == Pending
               && previous in r.invitations && r.invitations[previous].tenant == tenant
               && r.invitations[previous].pending == id && reference !in r.invitations
            then
              && after == r.(invitations := after.invitations)
              && after.invitations.Keys == r.invitations.Keys - {previous} + {reference}
              && after.invitations[reference] == Invitation(tenant, id, expiresAt, false)
              && forall h | h in r.invitations && h != previous :: after.invitations[h] == r.invitations[h]
            else after == r
  {
  }

  // ---- Permissions and seats ----

  /** A live schedule of the tenant sends the report to the recipient. */
  ghost predicate Sends(r: Registry, tenant: TenantId, id: RecipientId, k: ReportKey) {
    exists s | s in r.plans :: r.plans[s].tenant == tenant && r.plans[s].status == Live && id in r.plans[s].recipients
                               && k in r.plans[s].keys
  }

  predicate Sits(r: Registry, tenant: TenantId, id: RecipientId) {
    (tenant, id) in r.memberships && r.memberships[(tenant, id)].standing in {Pending, Current}
  }

  /**
   Permissions are replaced exactly in the version read, for somebody with a seat, when no
   deprecated report is new and every report that a live schedule sends is kept.
   */
  lemma ReplaceMeans(r: Registry, tenant: TenantId, id: RecipientId, keys: set<ReportKey>, deprecated: set<ReportKey>,
                     version: nat)
    ensures var after := ReplacePermissions(r, tenant, id, keys, deprecated, version);
            if && Sits(r, tenant, id) && r.memberships[(tenant, id)].version == version
               && (forall k | k in keys && k in deprecated :: (tenant, id, k) in r.permissions)
               && (forall k | Sends(r, tenant, id, k) :: k in keys)
            then
              && (forall t, x, k :: (t, x, k) in after.permissions <==>
                    if t == tenant && x == id then k in keys else (t, x, k) in r.permissions)
              && after == r.(permissions := after.permissions, memberships := r.memberships[(tenant, id) :=
                             r.memberships[(tenant, id)].(version := version + 1)])
            else after == r
  {
    forall k
      ensures k in KeysOf(r, tenant, id) <==> (tenant, id, k) in r.permissions
    {
      if (tenant, id, k) in r.permissions {
        assert (tenant, id, k).2 == k;
      }
    }
    KeepsWhatIsSent(r, tenant, id, keys);
  }

  lemma KeepsWhatIsSent(r: Registry, tenant: TenantId, id: RecipientId, keys: set<ReportKey>)
    ensures (forall s | s in LivePlansOf(r, tenant, id) :: forall k | k in r.plans[s].keys :: k in keys) <==>
            (forall k | Sends(r, tenant, id, k) :: k in keys)
  {
    if forall k | Sends(r, tenant, id, k) :: k in keys {
      forall s, k | s in LivePlansOf(r, tenant, id) && k in r.plans[s].keys
        ensures k in keys
      {
        assert Sends(r, tenant, id, k);
      }
    }
  }

  /** A seat is revoked exactly when no live schedule sends to it; its permissions and open invitations go with it. */
  lemma RevokeMeans(r: Registry, tenant: TenantId, id: RecipientId, now: int)
    ensures var after, seat := Revoke(r, tenant, id, now), (tenant, id);
            if && Sits(r, tenant, id)
               && forall s | s in r.plans && r.plans[s].tenant == tenant && r.plans[s].status == Live ::
                    id !in r.plans[s].recipients
            then
              && after.memberships == r.memberships[seat := Membership(Revoked, r.memberships[seat].version + 1)]
              && (forall t, x, k :: (t, x, k) in after.permissions <==>
                    (t, x, k) in r.permissions && !(t == tenant && x == id))
              && after.invitations.Keys == r.invitations.Keys
              && (forall h | h in r.invitations :: after.invitations[h] ==
                    var i := r.invitations[h];
                    if i.tenant == tenant && i.pending == id && !i.used && now < i.expiresAt
                    then i.(expiresAt := now) else i)
              && after.identities == (if r.memberships[seat].standing == Pending && id in r.identities
                                         && r.identities[id].standing == Pending
                                      then r.identities[id := r.identities[id].(standing := Revoked)] else r.identities)
              && after.plans == r.plans && after.tenants == r.tenants
            else after == r
  {
    assert LivePlansOf(r, tenant, id) == {} <==>
           forall s | s in r.plans && r.plans[s].tenant == tenant && r.plans[s].status == Live ::
             id !in r.plans[s].recipients by {
      assert forall s | s in r.plans && r.plans[s].tenant == tenant && r.plans[s].status == Live
               && id in r.plans[s].recipients :: s in LivePlansOf(r, tenant, id);
    }
  }

  // ---- Schedules ----

  /** Everyone in the list may see every report of it. */
  predicate AllSee(r: Registry, tenant: TenantId, keys: seq<ReportKey>, ids: seq<RecipientId>) {
    forall i, j | 0 <= i < |ids| && 0 <= j < |keys| :: (tenant, ids[i], keys[j]) in r.permissions
  }

  /** Nothing repeats, everybody belongs to the tenant and may see every report, and no deprecated one is new. */
  predicate Fits(r: Registry, tenant: TenantId, input: PlanInput, deprecated: set<ReportKey>, selected: seq<ReportKey>) {
    && (forall i, j | 0 <= i < j < |input.keys| :: input.keys[i] != input.keys[j])
    && (forall i, j | 0 <= i < j < |input.recipients| :: input.recipients[i] != input.recipients[j])
    && (forall i | 0 <= i < |input.recipients| :: (tenant, input.recipients[i]) in r.memberships)
    && (forall i | 0 <= i < |input.keys| :: input.keys[i] in deprecated ==> input.keys[i] in selected)
    && AllSee(r, tenant, input.keys, input.recipients)
  }

  lemma FitsMeans(r: Registry, tenant: TenantId, input: PlanInput, deprecated: set<ReportKey>, selected: seq<ReportKey>)
    ensures ChildrenOk(r, tenant, input, deprecated, selected) <==> Fits(r, tenant, input, deprecated, selected)
    ensures Permitted(r, tenant, input.keys, input.recipients) <==> AllSee(r, tenant, input.keys, input.recipients)
  {
    assert forall i | 0 <= i < |input.recipients| :: input.recipients[i] in input.recipients;
    assert forall i | 0 <= i < |input.keys| :: input.keys[i] in input.keys;
    assert forall i | 0 <= i < |input.keys| :: input.keys[i] in set k | k in input.keys;
  }

  /** A schedule is created as a draft exactly with a new name and an input that fits. */
  lemma CreateMeans(r: Registry, s: ScheduleId, tenant: TenantId, input: PlanInput, deprecated: set<ReportKey>)
    ensures var after := CreatePlan(r, s, tenant, input, deprecated);
            if && s !in r.plans && tenant in r.tenants && Fits(r, tenant, input, deprecated, [])
               && forall x | x in r.plans && r.plans[x].tenant == tenant :: r.plans[x].name != input.name
            then after == r.(plans := r.plans[s :=
                   Plan(tenant, input.name, Draft, input.keys, input.recipients, None, 1)])
            else after == r
  {
    FitsMeans(r, tenant, input, deprecated, []);
  }

  /** A draft or paused schedule is edited exactly in the version read, under the same conditions. */
  lemma UpdateMeans(r: Registry, s: ScheduleId, input: PlanInput, deprecated: set<ReportKey>, version: nat)
    ensures var after := UpdatePlan(r, s, input, deprecated, version);
            if && s in r.plans && r.plans[s].status in {Draft, Paused} && r.plans[s].version == version
               && Fits(r, r.plans[s].tenant, input, deprecated, r.plans[s].keys)
               && forall x | x in r.plans && x != s && r.plans[x].tenant == r.plans[s].tenant ::
                    r.plans[x].name != input.name
            then after == r.(plans := r.plans[s := r.plans[s].(name := input.name, keys := input.keys,
                                                              recipients := input.recipients, version := version + 1)])
            else after == r
  {
    if s in r.plans {
      FitsMeans(r, r.plans[s].tenant, input, deprecated, r.plans[s].keys);
    }
  }

  /** The tenant is active, its access not over, its connection works, and everyone sent to may see everything. */
  predicate MaySend(r: Registry, p: Plan, now: int) {
    && p.tenant in r.tenants && r.tenants[p.tenant].active && now < r.tenants[p.tenant].accessEndsAt
    && r.tenants[p.tenant].smlReady
    && (forall i | 0 <= i < |p.recipients| ::
          && (p.tenant, p.recipients[i]) in r.memberships
          && r.memberships[(p.tenant, p.recipients[i])].standing == Current
          && p.recipients[i] in r.identities && r.identities[p.recipients[i]].standing == Current)
    && AllSee(r, p.tenant, p.keys, p.recipients)
  }

  lemma NothingBlocks(r: Registry, s: ScheduleId, now: int)
    requires s in r.plans
    ensures Blockers(r, s, now) == {} <==> MaySend(r, r.plans[s], now)
  {
    var p := r.plans[s];
    FitsMeans(r, p.tenant, PlanInput(p.name, p.keys, p.recipients), {}, []);
    assert forall i | 0 <= i < |p.recipients| :: p.recipients[i] in p.recipients;
    assert TenantInactive in Blockers(r, s, now) <==> !TenantOpen(r, p.tenant, now);
    assert SmlNotReady in Blockers(r, s, now) <==> !(p.tenant in r.tenants && r.tenants[p.tenant].smlReady);
    assert RecipientNotActive in Blockers(r, s, now) <==> !(forall id | id in p.recipients :: InUse(r, p.tenant, id));
    assert RecipientPermissionMismatch in Blockers(r, s, now) <==> !Permitted(r, p.tenant, p.keys, p.recipients);
  }

  /** A draft or paused schedule goes live exactly when it may send and its next run lies ahead. */
  lemma ActivateMeans(r: Registry, s: ScheduleId, nextRun: int, now: int)
    ensures var after := ActivatePlan(r, s, nextRun, now);
            if s in r.plans && r.plans[s].status in {Draft, Paused} && now < nextRun && MaySend(r, r.plans[s], now)
            then after == r.(plans := r.plans[s := r.plans[s].(status := Live, nextRun := Some(nextRun),
                                                              version := r.plans[s].version + 1)])
            else after == r
  {
    if s in r.plans {
      NothingBlocks(r, s, now);
    }
  }

  /** A live schedule whose time has come moves on when it may send, and is paused otherwise. */
  lemma DueMeans(r: Registry, s: ScheduleId, taken: bool, following: int, now: int)
    ensures var after := MaterializeDue(r, s, taken, following, now);
            if s in r.plans && r.plans[s].status == Live && r.plans[s].nextRun.Some? && r.plans[s].nextRun.value <= now
               && !taken
            then after == r.(plans := r.plans[s :=
                   if MaySend(r, r.plans[s], now) then r.plans[s].(nextRun := Some(following))
                   else r.plans[s].(status := Paused, nextRun := None, version := r.plans[s].version + 1)])
            else after == r
  {
    if s in r.plans {
      NothingBlocks(r, s, now);
    }
  }

  /** The schedule gets a new status and version, and loses its next run; nothing else changes. */
  predicate Moved(r: Registry, s: ScheduleId, status: PlanStatus, after: Registry) {
    && s in r.plans
    && after == r.(plans := r.plans[s :=
         r.plans[s].(status := status, nextRun := None, version := r.plans[s].version + 1)])
  }

  /** Live schedules are paused; drafts and paused ones archived, and archived ones restored, in the version read. */
  lemma LifecycleMeans(r: Registry, s: ScheduleId, version: nat)
    ensures if s in r.plans && r.plans[s].status == Live then Moved(r, s, Paused, PausePlan(r, s))
            else PausePlan(r, s) == r
    ensures if s in r.plans && r.plans[s].status in {Draft, Paused} && r.plans[s].version == version
            then Moved(r, s, Archived, ArchivePlan(r, s, version)) else ArchivePlan(r, s, version) == r
    ensures if s in r.plans && r.plans[s].status == Archived && r.plans[s].version == version
            then Moved(r, s, Draft, RestorePlan(r, s, version)) else RestorePlan(r, s, version) == r
  {
  }

  // ---- Tenants ----

  /**
   An open tenant is archived exactly in the version read: its live schedules are paused, its seats
   and the pending identities in them revoked, and its invitations used up.
   */
  lemma ArchiveTenantMeans(r: Registry, tenant: TenantId, version: nat)
    ensures var after := ArchiveTenant(r, tenant, version);
            if tenant in r.tenants && !r.tenants[tenant].archived && r.tenants[tenant].version == version then
              && after.tenants == r.tenants[tenant :=
                   r.tenants[tenant].(active := false, archived := true, version := version + 1)]
              && after.permissions == r.permissions
              && after.plans.Keys == r.plans.Keys
              && (forall s | s in r.plans :: after.plans[s] ==
                    var p := r.plans[s];
                    if p.tenant == tenant && p.status == Live
                    then p.(status := Paused, nextRun := None, version := p.version + 1) else p)
              && after.memberships.Keys == r.memberships.Keys
              && (forall t, x | (t, x) in r.memberships :: after.memberships[(t, x)] ==
                    if t == tenant then r.memberships[(t, x)].(standing := Revoked) else r.memberships[(t, x)])
              && after.identities.Keys == r.identities.Keys
              && (forall x | x in r.identities :: after.identities[x] ==
                    if r.identities[x].standing == Pending && (tenant, x) in r.memberships
                    then r.identities[x].(standing := Revoked) else r.identities[x])
              && after.invitations.Keys == r.invitations.Keys
              && (forall h | h in r.invitations :: after.invitations[h] ==
                    if r.invitations[h].tenant == tenant then r.invitations[h].(used := true) else r.invitations[h])
            else after == r
  {
    assert forall t, x: nat | (t, x) in r.memberships :: (t, x).0 == t;
  }
}
