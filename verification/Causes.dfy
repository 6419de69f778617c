/**
 Why the tables change: every status change, ledger row, membership and admin
 role that appears or disappears in one request has its one permitted cause.
 */
module Causes {
  import opened Types
  import opened Filtering
  import opened Schema
  import opened Endpoints
  import opened DailyJob
  import opened Invariants
  import opened Tables
  import opened Preservation
  import opened Deletion
  import opened JobTheorems
  import opened Runs
  import opened History

  // ---------------------------------------------------------------------------
  // Statuses
  // ---------------------------------------------------------------------------

  ghost predicate StatusesStay(before: Instances, after: Instances) {
    forall id :: id in before && id in after ==> after[id].status == before[id].status
  }

  predicate AssigneeOrAdmin(s: DB, inst: Instance, u: Id) {
    inst.assignee == Some(u) || AdminIn(s.memberships, inst.household, u)
  }

  /** The request that may turn `a` into `b` when their statuses differ. */
  predicate Explains(s: DB, r: Request, id: Id, a: Instance, b: Instance) {
    match b.status
    case Pending => false
    case Overdue => r.DailyJobReq? && a.status == Pending && a.due < r.today
    case Cancelled =>
      && r.DeleteDefinitionReq? && a.status == Pending && a.definition == Some(r.definition)
      && AdminIn(s.memberships, a.household, r.actor)
    case Dismissed =>
      && r.DismissReq? && r.instance == id && a.status in {Pending, Overdue} && AssigneeOrAdmin(s, a, r.actor)
      && b.completedAt == Some(r.now)
    case Complete =>
      && r.CompleteReq? && r.instance == id && a.status in {Pending, Overdue} && AssigneeOrAdmin(s, a, r.actor)
      && b.completedAt == Some(r.now) && b.assignee == a.assignee
      && a.definition.Some? && a.definition.value in s.definitions
      && b.points == Some(EffortPoints(s.definitions[a.definition.value].effort))
  }

  /**
   A chore changes status only through its assignee or an admin closing it, an
   admin deleting its series while it is pending, or the job once it is past due.
   */
  lemma StatusChangeHasACause(s: DB, r: Request, id: Id)
    requires Inv(s) && Fits(s, r) && ChangesStatus(s, Step(s, r).0, id)
    ensures Explains(s, r, id, s.instances[id], Step(s, r).0.instances[id])
  {
    hide Inv, Enumerates, ReadsForDeletion, Explains, JoinsLast;
    match r
    case CompleteReq(actor, h, x, now) => CompletionExplained(s, actor, h, x, now, id);
    case DismissReq(actor, h, x, now) => DismissalExplained(s, actor, h, x, now, id);
    case DeleteDefinitionReq(actor, h, d) => CancellationExplained(s, actor, h, d, id);
    case DailyJobReq(order, today) => FlaggingExplained(s, order, today, id);
    case _ => OtherRequestsKeepStatuses(s, r);
  }

  lemma CompletionExplained(s: DB, actor: Id, h: Id, x: Id, now: Time, id: Id)
    requires Inv(s) && ChangesStatus(s, CompleteChore(s, actor, h, x, now).0, id)
    ensures Explains(s, CompleteReq(actor, h, x, now), id, s.instances[id],
        CompleteChore(s, actor, h, x, now).0.instances[id])
  {
    hide Inv, AdminIn, ActiveIn;
    OpenIsAssigned(s, id);
    if TerminalGate(s, actor, h, x) == Done {
      OpenWhenGatePasses(s, actor, h, x);
    }
  }

  lemma OpenIsAssigned(s: DB, id: Id)
    requires Inv(s) && id in s.instances && s.instances[id].status in {Pending, Overdue}
    ensures s.instances[id].assignee.Some?
  {
    hide MembershipsOk, AdminsOk, DefinitionsOk, InstancesOk, PairsUnique, LedgerOk, InvitesOk, PointersOk, KeysOk;
  }

  lemma DismissalExplained(s: DB, actor: Id, h: Id, x: Id, now: Time, id: Id)
    requires ChangesStatus(s, DismissChore(s, actor, h, x, now).0, id)
    ensures Explains(s, DismissReq(actor, h, x, now), id, s.instances[id],
        DismissChore(s, actor, h, x, now).0.instances[id])
  {
    hide AdminIn, ActiveIn;
    if TerminalGate(s, actor, h, x) == Done {
      OpenWhenGatePasses(s, actor, h, x);
    }
  }

  lemma CancellationExplained(s: DB, actor: Id, h: Id, d: Id, id: Id)
    requires Inv(s) && ChangesStatus(s, DeleteDefinition(s, actor, h, d).0, id)
    ensures Explains(s, DeleteDefinitionReq(actor, h, d), id, s.instances[id],
        DeleteDefinition(s, actor, h, d).0.instances[id])
  {
    hide Inv, AdminIn, ActiveIn;
    OwnHousehold(s, id);
  }

  lemma OwnHousehold(s: DB, id: Id)
    requires Inv(s) && id in s.instances
    ensures var d := s.instances[id].definition;
            d.Some? && d.value in s.definitions && s.definitions[d.value].household == s.instances[id].household
  {
    hide MembershipsOk, AdminsOk, DefinitionsOk, PairsUnique, Served, LedgerOk, InvitesOk, PointersOk, KeysOk;
    hide ShapeOk;
  }

  lemma FlaggingExplained(s: DB, order: seq<Id>, today: Day, id: Id)
    requires Inv(s) && ChangesStatus(s, Step(s, DailyJobReq(order, today)).0, id)
    ensures Explains(s, DailyJobReq(order, today), id, s.instances[id],
        Step(s, DailyJobReq(order, today)).0.instances[id])
  {
    hide Inv, FillSlots, Slots, Below;
    KeysBelow(s);
    if forall d :: d in order ==> d in s.definitions {
      SlotsKnown(s.definitions, order, today);
      FillSlotsExtends(s, Slots(s.definitions, order, today));
    }
  }

  lemma OtherRequestsKeepStatuses(s: DB, r: Request)
    requires Inv(s) && !r.CompleteReq? && !r.DismissReq? && !r.DeleteDefinitionReq? && !r.DailyJobReq?
    ensures StatusesStay(s.instances, Step(s, r).0.instances)
  {
    hide Inv, RequireAdmin, RequireMember, MemberLeaves, DeleteHouseholds, StatusesStay, CountAdmins, AdminIn;
    hide ActiveIn, CreateChore, ReassignChore;
    hide DeleteAccount;
    StatusesSame(s.instances);
    match r
    case DeleteHouseholdReq(_, h, _) => CascadeKeepsStatuses(s, {h});
    case RemoveMemberReq(_, h, target, rows) => LeavingTouches(s, h, target, rows);
    case LeaveReq(actor, h, rows) => LeavingTouches(s, h, actor, rows);
    case DeleteAccountReq(actor, order, rows) => AccountDeletionKeepsStatuses(s, actor, order, rows);
    case CreateChoreReq(actor, h, draft) => CreationKeepsStatuses(s, actor, h, draft);
    case ReassignReq(actor, h, id, assignee) => ReassignmentKeepsStatuses(s, actor, h, id, assignee);
    case _ => InstancesUntouched(s, r);
  }

  lemma StatusesSame(instances: Instances)
    ensures StatusesStay(instances, instances)
  {
  }

  lemma InstancesUntouched(s: DB, r: Request)
    requires || r.RegisterUser? || r.CreateHouseholdReq? || r.CreateInviteReq? || r.AcceptInviteReq?
        || r.RevokeInviteReq?
             || r.UpdateRoleReq? || r.UpdateDefinitionReq?
    ensures Step(s, r).0.instances == s.instances
  {
    hide RequireAdmin, ActiveIn, CountAdmins, WithRole, InvitesExpired;
  }

  lemma ReassignmentKeepsStatuses(s: DB, actor: Id, h: Id, id: Id, assignee: Option<Id>)
    ensures StatusesStay(s.instances, ReassignChore(s, actor, h, id, assignee).0.instances)
  {
    hide RequireAdmin, AutoAssign, ActiveIn;
    AutoAssignTouchesPointerOnly(s, h);
  }

  lemma CascadeKeepsStatuses(s: DB, hs: set<Id>)
    requires Inv(s)
    ensures StatusesStay(s.instances, DeleteHouseholds(s, hs).instances)
    ensures forall id :: id in DeleteHouseholds(s, hs).instances ==> id in s.instances
  {
    CascadeLeavesNoDanglingRows(s, hs);
    hide Inv, DeleteHouseholds;
  }

  lemma LeavingTouches(s: DB, h: Id, u: Id, rows: seq<Id>)
    ensures var s' := MemberLeaves(s, h, u, rows);
            && StatusesStay(s.instances, s'.instances)
            && s'.ledger == s.ledger && s'.memberships == Deactivated(s.memberships, {h}, u)
  {
    hide Redistributed, Deactivated;
    RedistributionTouches(s.(memberships := Deactivated(s.memberships, {h}, u)), h, u, rows);
  }

  lemma AccountDeletionKeepsStatuses(s: DB, actor: Id, order: seq<Id>, rows: map<Id, seq<Id>>)
    requires Inv(s)
    ensures StatusesStay(s.instances, DeleteAccount(s, actor, order, rows).0.instances)
  {
    hide Inv, DeleteHouseholds, Deactivated, LeaveEach, ToLeave, ToDelete, SoleAdminAmongOthers, Filter;
    CascadeKeepsStatuses(s, AsSet(ToDelete(s, order)));
    LeaveEachTouches(Prepared(s, actor, order), actor, ToLeave(s, order), rows);
  }

  lemma CreationKeepsStatuses(s: DB, actor: Id, h: Id, draft: Draft)
    requires Inv(s)
    ensures StatusesStay(s.instances, CreateChore(s, actor, h, draft).0.instances)
  {
    hide Inv, CreateChore;
    KeysBelow(s);
    FailuresChangeNothing(s, CreateChoreReq(actor, h, draft));
    if CreateChore(s, actor, h, draft).1 == Done {
      CreateChoreAdds(s, actor, h, draft);
    }
  }

  // ---------------------------------------------------------------------------
  // Points
  // ---------------------------------------------------------------------------

  /** The row that completing `id` awards: its definition's effort points to its assignee. */
  ghost predicate AwardOf(s: DB, row: LedgerRow, id: Id, now: Time) {
    && id in s.instances && row.instance == Some(id)
    && row.household == s.instances[id].household && s.instances[id].assignee == Some(row.user)
    && s.instances[id].definition.Some? && s.instances[id].definition.value in s.definitions
    && row.points == EffortPoints(s.definitions[s.instances[id].definition.value].effort)
    && row.awardedAt == now
  }

  ghost predicate LedgerShrinks(before: seq<LedgerRow>, after: seq<LedgerRow>) {
    forall row :: row in after ==> row in before
  }

  /** Points appear only as the award of a completion. */
  lemma PointsHaveACause(s: DB, r: Request, row: LedgerRow)
    requires Inv(s) && Fits(s, r) && row in Step(s, r).0.ledger && row !in s.ledger
    ensures r.CompleteReq? && AwardOf(s, row, r.instance, r.now)
    ensures r.CompleteReq? && Step(s, r).0.ledger == s.ledger + [row]
  {
    hide Inv, Fits, AdminIn, ActiveIn, AwardOf, Step;
    if r.CompleteReq? {
      CompletionAwards(s, r.actor, r.household, r.instance, r.now, row);
    } else {
      OtherRequestsAwardNothing(s, r);
    }
  }

  lemma CompletionAwards(s: DB, actor: Id, h: Id, id: Id, now: Time, row: LedgerRow)
    requires row in Step(s, CompleteReq(actor, h, id, now)).0.ledger && row !in s.ledger
    ensures AwardOf(s, row, id, now)
    ensures Step(s, CompleteReq(actor, h, id, now)).0.ledger == s.ledger + [row]
  {
    hide AdminIn, ActiveIn;
  }

  lemma OtherRequestsAwardNothing(s: DB, r: Request)
    requires Inv(s) && !r.CompleteReq?
    ensures LedgerShrinks(s.ledger, Step(s, r).0.ledger)
  {
    hide Inv, RequireAdmin, RequireMember, MemberLeaves, DeleteHouseholds, AutoAssign, ActiveIn, AdminIn;
    hide CountAdmins, Filter, FillSlots, Slots;
    match r
    case DeleteHouseholdReq(_, h, _) => CascadeAwardsNothing(s, {h});
    case RemoveMemberReq(_, h, target, rows) => LeavingTouches(s, h, target, rows);
    case LeaveReq(actor, h, rows) => LeavingTouches(s, h, actor, rows);
    case DeleteAccountReq(actor, order, rows) => AccountDeletionAwardsNothing(s, actor, order, rows);
    case CreateChoreReq(actor, h, draft) => CreationLeavesOtherTables(s, actor, h, draft);
    case ReassignReq(_, h, _, _) => AutoAssignTouchesPointerOnly(s, h);
    case _ =>
  }

  lemma CreationLeavesOtherTables(s: DB, actor: Id, h: Id, draft: Draft)
    ensures CreateChore(s, actor, h, draft).0.ledger == s.ledger
    ensures CreateChore(s, actor, h, draft).0.memberships == s.memberships
    ensures CreateChore(s, actor, h, draft).0.invites == s.invites
  {
    hide RequireAdmin, AutoAssign, ActiveIn;
    var def := Definition(h, draft.effort, draft.recurring, draft.rule, draft.firstDue, true);
    AutoAssignTouchesPointerOnly(s.(definitions := s.definitions[s.nextId := def], nextId := s.nextId + 1), h);
  }

  lemma CascadeAwardsNothing(s: DB, hs: set<Id>)
    requires Inv(s)
    ensures LedgerShrinks(s.ledger, DeleteHouseholds(s, hs).ledger)
  {
    CascadeLeavesNoDanglingRows(s, hs);
    FilterMembers(s.ledger, LedgerOutside(hs));
    hide Inv, DeleteHouseholds;
  }

  lemma AccountDeletionAwardsNothing(s: DB, actor: Id, order: seq<Id>, rows: map<Id, seq<Id>>)
    requires Inv(s)
    ensures LedgerShrinks(s.ledger, DeleteAccount(s, actor, order, rows).0.ledger)
  {
    hide Inv, DeleteHouseholds, Deactivated, LeaveEach, ToLeave, ToDelete, SoleAdminAmongOthers, Filter;
    CascadeAwardsNothing(s, AsSet(ToDelete(s, order)));
    var prepared := Prepared(s, actor, order);
    LeaveEachTouches(prepared, actor, ToLeave(s, order), rows);
    FilterMembers(prepared.ledger, LedgerOfOthers(actor));
  }

  // ---------------------------------------------------------------------------
  // Memberships and roles
  // ---------------------------------------------------------------------------

  /** Nobody becomes active, and nobody becomes an admin. */
  ghost predicate NobodyJoins(ms: seq<Membership>, ms': seq<Membership>) {
    forall h, v :: (ActiveIn(ms', h, v) ==> ActiveIn(ms, h, v)) && (AdminIn(ms', h, v) ==> AdminIn(ms, h, v))
  }

  lemma OldRowsJoinNobody(ms: seq<Membership>, ms': seq<Membership>)
    requires forall i :: 0 <= i < |ms'| && ms'[i].active ==> ms'[i] in ms
    ensures NobodyJoins(ms, ms')
  {
    forall h, v | ActiveIn(ms', h, v) ensures ActiveIn(ms, h, v) {
      var i :| 0 <= i < |ms'| && IsActive(ms'[i], h, v);
      assert ms'[i] in ms;
      var j :| 0 <= j < |ms| && ms[j] == ms'[i];
    }
    forall h, v | AdminIn(ms', h, v) ensures AdminIn(ms, h, v) {
      var i :| 0 <= i < |ms'| && IsActive(ms'[i], h, v) && ms'[i].role == Admin;
      assert ms'[i] in ms;
      var j :| 0 <= j < |ms| && ms[j] == ms'[i];
      assert IsActive(ms[j], h, v);
    }
  }

  lemma DeactivationJoinsNobody(ms: seq<Membership>, hs: set<Id>, u: Id)
    ensures NobodyJoins(ms, Deactivated(ms, hs, u))
  {
    OldRowsJoinNobody(ms, Deactivated(ms, hs, u));
  }

  lemma FilterJoinsNobody(ms: seq<Membership>, p: Membership -> bool)
    ensures NobodyJoins(ms, Filter(ms, p))
  {
    FilterMembers(ms, p);
    OldRowsJoinNobody(ms, Filter(ms, p));
  }

  lemma AppendedJoins(ms: seq<Membership>, m: Membership, h: Id, v: Id)
    ensures ActiveIn(ms + [m], h, v) <==> ActiveIn(ms, h, v) || IsActive(m, h, v)
    ensures AdminIn(ms + [m], h, v) <==> AdminIn(ms, h, v) || (IsActive(m, h, v) && m.role == Admin)
  {
    var ms' := ms + [m];
    if ActiveIn(ms, h, v) {
      var i :| 0 <= i < |ms| && IsActive(ms[i], h, v);
      assert IsActive(ms'[i], h, v);
    }
    if AdminIn(ms, h, v) {
      var i :| 0 <= i < |ms| && IsActive(ms[i], h, v) && ms[i].role == Admin;
      assert IsActive(ms'[i], h, v) && ms'[i].role == Admin;
    }
    assert IsActive(m, h, v) ==> IsActive(ms'[|ms|], h, v) && ms'[|ms|] == m;
  }

  lemma RoleChangeJoins(ms: seq<Membership>, x: Id, u: Id, role: Role, h: Id, v: Id)
    ensures ActiveIn(WithRole(ms, x, u, role), h, v) <==> ActiveIn(ms, h, v)
    ensures AdminIn(WithRole(ms, x, u, role), h, v) ==> AdminIn(ms, h, v) || (role == Admin && h == x && v == u)
    ensures AdminIn(ms, h, v) && !AdminIn(WithRole(ms, x, u, role), h, v) ==> role == Member && h == x && v == u
  {
    var ms' := WithRole(ms, x, u, role);
    if ActiveIn(ms, h, v) {
      var i :| 0 <= i < |ms| && IsActive(ms[i], h, v);
      assert IsActive(ms'[i], h, v);
    }
    if ActiveIn(ms', h, v) {
      var i :| 0 <= i < |ms| && IsActive(ms'[i], h, v);
      assert IsActive(ms[i], h, v);
    }
    if AdminIn(ms', h, v) {
      var i :| 0 <= i < |ms| && IsActive(ms'[i], h, v) && ms'[i].role == Admin;
      assert IsActive(ms[i], h, v);
    }
    if AdminIn(ms, h, v) {
      var i :| 0 <= i < |ms| && IsActive(ms[i], h, v) && ms[i].role == Admin;
      assert IsActive(ms'[i], h, v);
    }
  }

  /** The requests through which `u` may join `h`. */
  predicate LetsIn(s: DB, r: Request, h: Id, u: Id) {
    || (r.CreateHouseholdReq? && r.actor == u && h !in s.households)
    || (r.AcceptInviteReq? && r.actor == u && r.token in s.invites && s.invites[r.token].household == h
        && s.invites[r.token].usedAt.None? && r.now <= s.invites[r.token].expiresAt)
  }

  /** The requests through which `u` may become an admin of `h`. */
  predicate Promotes(s: DB, r: Request, h: Id, u: Id) {
    || (r.CreateHouseholdReq? && r.actor == u && h !in s.households)
    || (r.UpdateRoleReq? && r.household == h && r.target == u && r.role == Admin
        && AdminIn(s.memberships, h, r.actor) && ActiveIn(s.memberships, h, u))
  }

  /** One joins a household only by creating it or by an unused, unexpired invite to it. */
  lemma JoiningHasACause(s: DB, r: Request, h: Id, u: Id)
    requires Inv(s) && !ActiveIn(s.memberships, h, u) && ActiveIn(Step(s, r).0.memberships, h, u)
    ensures LetsIn(s, r, h, u)
  {
    hide Inv, ActiveIn, AdminIn, Step;
    MembershipsOnlyChangeSo(s, r, h, u);
  }

  /** One becomes an admin only by creating the household or by an admin's decision; an invite never makes one. */
  lemma PromotionHasACause(s: DB, r: Request, h: Id, u: Id)
    requires Inv(s) && !AdminIn(s.memberships, h, u) && AdminIn(Step(s, r).0.memberships, h, u)
    ensures Promotes(s, r, h, u)
  {
    hide Inv, ActiveIn, AdminIn, Step;
    MembershipsOnlyChangeSo(s, r, h, u);
  }

  lemma MembershipsOnlyChangeSo(s: DB, r: Request, h: Id, u: Id)
    requires Inv(s)
    ensures ActiveIn(Step(s, r).0.memberships, h, u) ==> ActiveIn(s.memberships, h, u) || LetsIn(s, r, h, u)
    ensures AdminIn(Step(s, r).0.memberships, h, u) ==> AdminIn(s.memberships, h, u) || Promotes(s, r, h, u)
  {
    hide Inv, Step, ActiveIn, AdminIn, LetsIn, Promotes;
    if r.CreateHouseholdReq? || r.AcceptInviteReq? || r.UpdateRoleReq? {
      GrantsMembership(s, r, h, u);
    } else {
      OtherRequestsJoinNobody(s, r);
    }
  }

  lemma GrantsMembership(s: DB, r: Request, h: Id, u: Id)
    requires Inv(s) && (r.CreateHouseholdReq? || r.AcceptInviteReq? || r.UpdateRoleReq?)
    ensures ActiveIn(Step(s, r).0.memberships, h, u) ==> ActiveIn(s.memberships, h, u) || LetsIn(s, r, h, u)
    ensures AdminIn(Step(s, r).0.memberships, h, u) ==> AdminIn(s.memberships, h, u) || Promotes(s, r, h, u)
  {
    hide Inv, ActiveIn, AdminIn, CountAdmins, WithRole;
    HouseholdKeysBelow(s);
    match r
    case CreateHouseholdReq(actor, _, now) =>
      AppendedJoins(s.memberships, Membership(s.nextId, actor, Admin, now, true), h, u);
    case AcceptInviteReq(actor, token, now) =>
      if token in s.invites {
        AppendedJoins(s.memberships, Membership(s.invites[token].household, actor, Member, now, true), h, u);
      }
    case UpdateRoleReq(_, x, target, role) => RoleChangeJoins(s.memberships, x, target, role, h, u);
  }

  lemma OtherRequestsJoinNobody(s: DB, r: Request)
    requires !r.CreateHouseholdReq? && !r.AcceptInviteReq? && !r.UpdateRoleReq?
    ensures NobodyJoins(s.memberships, Step(s, r).0.memberships)
  {
    hide NobodyJoins, MemberLeaves, DeleteHouseholds, DeleteAccount, CreateChore, RequireAdmin, RequireMember;
    hide CountAdmins, AdminIn, ActiveIn;
    hide FillSlots, Slots, AutoAssign;
    SameMembersJoinNobody(s.memberships);
    match r
    case DeleteHouseholdReq(_, x, _) => CascadeMemberships(s, {x});
    case RemoveMemberReq(_, x, target, rows) =>
      LeavingTouches(s, x, target, rows);
      DeactivationJoinsNobody(s.memberships, {x}, target);
    case LeaveReq(actor, x, rows) =>
      LeavingTouches(s, x, actor, rows);
      DeactivationJoinsNobody(s.memberships, {x}, actor);
    case DeleteAccountReq(actor, order, rows) => AccountDeletionJoinsNobody(s, actor, order, rows);
    case CreateChoreReq(actor, x, draft) => CreationLeavesOtherTables(s, actor, x, draft);
    case ReassignReq(_, x, _, _) => AutoAssignTouchesPointerOnly(s, x);
    case _ =>
  }

  lemma SameMembersJoinNobody(ms: seq<Membership>)
    ensures NobodyJoins(ms, ms)
  {
  }

  lemma HouseholdKeysBelow(s: DB)
    requires Inv(s)
    ensures s.nextId !in s.households
  {
  }

  lemma CascadeMemberships(s: DB, hs: set<Id>)
    ensures NobodyJoins(s.memberships, DeleteHouseholds(s, hs).memberships)
  {
    FilterJoinsNobody(s.memberships, OutsideHouseholds(hs));
  }

  lemma AccountDeletionJoinsNobody(s: DB, actor: Id, order: seq<Id>, rows: map<Id, seq<Id>>)
    ensures NobodyJoins(s.memberships, DeleteAccount(s, actor, order, rows).0.memberships)
  {
    hide DeleteHouseholds, Deactivated, LeaveEach, ToLeave, ToDelete, SoleAdminAmongOthers, Filter, ActiveIn, AdminIn;
    var doomed, left := AsSet(ToDelete(s, order)), AsSet(ToLeave(s, order));
    var prepared := Prepared(s, actor, order);
    CascadeMemberships(s, doomed);
    DeactivationJoinsNobody(DeleteHouseholds(s, doomed).memberships, left, actor);
    LeaveEachTouches(prepared, actor, ToLeave(s, order), rows);
    FilterJoinsNobody(prepared.memberships, OfOtherUsers(actor));
  }

  /** The requests through which `u` may cease to be a member of `h`. */
  predicate LetsOut(s: DB, r: Request, h: Id, u: Id) {
    || (r.RemoveMemberReq? && r.household == h && r.target == u && AdminIn(s.memberships, h, r.actor))
    || (r.LeaveReq? && r.household == h && r.actor == u)
    || (r.DeleteHouseholdReq? && r.household == h && AdminIn(s.memberships, h, r.actor)
        && h in s.households && r.confirm == s.households[h].name)
    || (r.DeleteAccountReq? && r.actor == u)
  }

  /**
   One ceases to be a member only by leaving, by an admin's removal, by an admin's
   confirmed deletion of the household, or with one's own account; nobody else's
   account deletion ever takes a membership away.
   */
  lemma DepartureHasACause(s: DB, r: Request, h: Id, u: Id)
    requires Inv(s) && Fits(s, r) && ActiveIn(s.memberships, h, u) && !ActiveIn(Step(s, r).0.memberships, h, u)
    ensures LetsOut(s, r, h, u)
  {
    hide Inv, ActiveIn, AdminIn, MemberLeaves, DeleteHouseholds, DeleteAccount, CreateChore, CountAdmins, WithRole;
    hide ReadsForDeletion;
    hide FillSlots, Slots, AutoAssign, JoinsLast, Enumerates, Deactivated;
    match r
    case CreateHouseholdReq(actor, _, now) =>
      AppendedJoins(s.memberships, Membership(s.nextId, actor, Admin, now, true), h, u);
    case AcceptInviteReq(actor, token, now) =>
      if token in s.invites {
        AppendedJoins(s.memberships, Membership(s.invites[token].household, actor, Member, now, true), h, u);
      }
    case UpdateRoleReq(_, x, target, role) => RoleChangeJoins(s.memberships, x, target, role, h, u);
    case DeleteHouseholdReq(_, x, _) =>
      if x != h {
        OutsideStays(s, {x}, h, u);
      }
    case RemoveMemberReq(_, x, target, rows) =>
      LeavingTouches(s, x, target, rows);
      DeactivationKeepsActive(s.memberships, {x}, target);
    case LeaveReq(actor, x, rows) =>
      LeavingTouches(s, x, actor, rows);
      DeactivationKeepsActive(s.memberships, {x}, actor);
    case DeleteAccountReq(actor, order, rows) =>
      if u != actor {
        AccountDeletionKeepsOthers(s, actor, order, rows, h, u);
      }
    case CreateChoreReq(actor, x, draft) => CreationLeavesOtherTables(s, actor, x, draft);
    case ReassignReq(_, x, _, _) => AutoAssignTouchesPointerOnly(s, x);
    case _ =>
  }

  lemma OutsideStays(s: DB, hs: set<Id>, h: Id, u: Id)
    requires ActiveIn(s.memberships, h, u) && h !in hs
    ensures ActiveIn(DeleteHouseholds(s, hs).memberships, h, u)
  {
    FilterKeepsActive(s.memberships, OutsideHouseholds(hs), h, u);
  }

  lemma AccountDeletionKeepsOthers(s: DB, actor: Id, order: seq<Id>, rows: map<Id, seq<Id>>, h: Id, v: Id)
    requires Inv(s) && ReadsForDeletion(s, actor, order, rows) && ActiveIn(s.memberships, h, v) && v != actor
    ensures ActiveIn(DeleteAccount(s, actor, order, rows).0.memberships, h, v)
  {
    hide Inv, Deactivated, LeaveEach, ToLeave, ToDelete, SoleAdminAmongOthers, Filter, ActiveIn, AdminIn;
    hide SoleMember, DeleteHouseholds;
    var doomed, left := AsSet(ToDelete(s, order)), AsSet(ToLeave(s, order));
    ValidatePassSplits(s, order);
    HouseholdsOfMeans(s.memberships, actor);
    if h in doomed {
      SoleMemberIsAlone(s, h, actor, v);
    }
    OutsideStays(s, doomed, h, v);
    var prepared := Prepared(s, actor, order);
    DeactivationKeepsActive(DeleteHouseholds(s, doomed).memberships, left, actor);
    LeaveEachTouches(prepared, actor, ToLeave(s, order), rows);
    OthersStay(prepared.memberships, actor, h, v);
  }

  lemma SoleMemberIsAlone(s: DB, h: Id, u: Id, v: Id)
    requires SoleMember(s, h) && ActiveIn(s.memberships, h, u) && ActiveIn(s.memberships, h, v)
    ensures u == v
  {
    RosterIsActiveMembers(s.memberships, h);
    hide Roster, ActiveIn;
  }

  lemma OthersStay(ms: seq<Membership>, u: Id, h: Id, v: Id)
    requires ActiveIn(ms, h, v) && v != u
    ensures ActiveIn(Filter(ms, OfOtherUsers(u)), h, v)
  {
    FilterKeepsActive(ms, OfOtherUsers(u), h, v);
  }

  // ---------------------------------------------------------------------------
  // Invites
  // ---------------------------------------------------------------------------

  /** An invite that could still be accepted after `t`. */
  predicate OpenAfter(invite: Invite, t: Time) {
    invite.usedAt.None? && invite.expiresAt > t
  }

  /**
   Creating an invite leaves no other of its household open, and the new one
   exactly when the configured lifetime is positive; other households' are unchanged.
   */
  lemma OnlyNewestInviteIsOpen(s: DB, actor: Id, h: Id, now: Time, token: Id)
    requires Inv(s) && CreateInvite(s, actor, h, now).1 == Done && token in CreateInvite(s, actor, h, now).0.invites
    ensures var invite := CreateInvite(s, actor, h, now).0.invites[token];
            && (invite.household == h ==> (OpenAfter(invite, now) <==> token == s.nextId && 0 < INVITE_TTL))
            && (invite.household != h ==> token in s.invites && invite == s.invites[token])
  {
    DefinitionKeysBelow(s);
    hide Inv, RequireAdmin;
  }

  /** An invite that had expired by `bound` still has. */
  ghost predicate ExpiryStays(before: Invites, after: Invites, token: Id, bound: Time) {
    token in before && token in after && before[token].expiresAt <= bound ==> after[token].expiresAt <= bound
  }

  /** Revoking this invite, if that is the request, happens at `bound` at the latest. */
  predicate RevokesInTime(r: Request, token: Id, bound: Time) {
    r.RevokeInviteReq? && r.token == token ==> r.now <= bound
  }

  lemma ExpiryStep(s: DB, r: Request, token: Id, bound: Time)
    requires Inv(s) && RevokesInTime(r, token, bound)
    ensures ExpiryStays(s.invites, Step(s, r).0.invites, token, bound)
  {
    hide Inv, RequireAdmin, RequireMember, MemberLeaves, DeleteAccount, AutoAssign, ActiveIn, AdminIn, CountAdmins;
    hide CreateChore, FillSlots, Slots, WithRole, Filter, ForgetInstances;
    DefinitionKeysBelow(s);
    match r
    case RemoveMemberReq(_, h, target, rows) => LeavingKeepsInvites(s, h, target, rows);
    case LeaveReq(actor, h, rows) => LeavingKeepsInvites(s, h, actor, rows);
    case DeleteAccountReq(actor, order, rows) => AccountDeletionKeepsExpiry(s, actor, order, rows, token, bound);
    case CreateChoreReq(actor, h, draft) => CreationLeavesOtherTables(s, actor, h, draft);
    case ReassignReq(_, h, _, _) => AutoAssignTouchesPointerOnly(s, h);
    case _ =>
  }

  lemma LeavingKeepsInvites(s: DB, h: Id, u: Id, rows: seq<Id>)
    ensures MemberLeaves(s, h, u, rows).invites == s.invites
  {
    hide Redistributed, Deactivated;
    RedistributionTouches(s.(memberships := Deactivated(s.memberships, {h}, u)), h, u, rows);
  }

  lemma AccountDeletionKeepsExpiry(
    s: DB, actor: Id, order: seq<Id>, rows: map<Id, seq<Id>>, token: Id, bound: Time)
    ensures ExpiryStays(s.invites, DeleteAccount(s, actor, order, rows).0.invites, token, bound)
  {
    hide Deactivated, LeaveEach, ToLeave, ToDelete, SoleAdminAmongOthers, Filter, ForgetInstances;
    LeaveEachTouches(Prepared(s, actor, order), actor, ToLeave(s, order), rows);
  }

  ghost predicate AllRevokeInTime(rs: seq<Request>, token: Id, bound: Time) {
    forall i :: 0 <= i < |rs| ==> RevokesInTime(rs[i], token, bound)
  }

  lemma {:induction false} ExpiryOverRuns(s: DB, rs: seq<Request>, token: Id, bound: Time)
    requires Inv(s) && Feasible(s, rs) && token in s.invites && s.invites[token].expiresAt <= bound
    requires AllRevokeInTime(rs, token, bound)
    ensures var s' := Run(s, rs); token < s'.nextId && (token in s'.invites ==> s'.invites[token].expiresAt <= bound)
  {
    hide Inv, Step, Fits, InstancesEvolve, DefinitionsEvolve, RevokesInTime;
    DefinitionKeysBelow(s);
    if rs != [] {
      var front, last := rs[..|rs| - 1], rs[|rs| - 1];
      assert AllRevokeInTime(front, token, bound);
      ExpiryOverRuns(s, front, token, bound);
      RunKeepsInv(s, front);
      StepEvolves(Run(s, front), last);
      ExpiryStep(Run(s, front), last, token, bound);
    }
  }

  /**
   A revoked invite is refused at every instant after its last revocation, over any
   run: from the revocation at `now` on, with `bound` no earlier than any revocation
   of the same invite, nobody can accept it after `bound`.
   */
  lemma RevokedInviteIsRefused(
    s: DB, actor: Id, h: Id, token: Id, now: Time, rs: seq<Request>, bound: Time, u: Id, later: Time)
    requires Inv(s) && RevokeInvite(s, actor, h, token, now).1 == Done && now <= bound < later
    requires var revoked := RevokeInvite(s, actor, h, token, now).0;
             Feasible(revoked, rs) && AllRevokeInTime(rs, token, bound)
    ensures var s' := Run(RevokeInvite(s, actor, h, token, now).0, rs);
            AcceptInvite(s', u, token, later).1 in {Gone, Unauthorized}
  {
    hide Inv, RequireAdmin, ActiveIn, AllRevokeInTime, Feasible, Run;
    var revoked := RevokeInvite(s, actor, h, token, now).0;
    RevokeInviteKeepsInv(s, actor, h, token, now);
    ExpiryOverRuns(revoked, rs, token, bound);
  }

  /** The bound is needed: revoking an expired invite again lets it be accepted at that very instant. */
  lemma RevokingAgainReopens(s: DB, actor: Id, h: Id, token: Id, now: Time, again: Time, u: Id)
    requires RevokeInvite(s, actor, h, token, now).1 == Done && now < again
    requires s.invites[token].usedAt.None? && u in s.users && !ActiveIn(s.memberships, s.invites[token].household, u)
    ensures var once := RevokeInvite(s, actor, h, token, now).0;
            && AcceptInvite(once, u, token, again).1 == Gone
            && AcceptInvite(RevokeInvite(once, actor, h, token, again).0, u, token, again).1 == Done
  {
    hide ActiveIn, AdminIn;
  }
}
