/**
 When each request about households, invites and memberships is accepted, and what
 has happened once it is.
 */
module Effects {
  import opened Types
  import opened Filtering
  import opened Rotation
  import opened Schema
  import opened Endpoints
  import opened Invariants
  import opened Tables
  import opened Preservation
  import opened Deletion
  import opened Runs
  import opened History
  import opened Removal
  import opened Causes
  import Service = AssignmentService

  // ---------------------------------------------------------------------------
  // Who is who
  // ---------------------------------------------------------------------------

  ghost predicate AnotherAdminIn(ms: seq<Membership>, h: Id, u: Id) {
    exists v :: v != u && AdminIn(ms, h, v)
  }

  /** Nobody's membership or role changes except perhaps that of `u` in `h`. */
  ghost predicate OthersStand(ms: seq<Membership>, ms': seq<Membership>, h: Id, u: Id) {
    forall x, v :: x != h || v != u ==>
      (ActiveIn(ms', x, v) <==> ActiveIn(ms, x, v)) && (AdminIn(ms', x, v) <==> AdminIn(ms, x, v))
  }

  lemma AdminGate(s: DB, actor: Id, h: Id)
    requires Inv(s)
    ensures RequireAdmin(s, actor, h) == Done <==> AdminIn(s.memberships, h, actor)
    ensures RequireAdmin(s, actor, h) != Done ==> RequireAdmin(s, actor, h) in {Unauthorized, Forbidden}
    ensures RequireAdmin(s, actor, h) == Unauthorized <==> actor !in s.users
  {
    hide Inv, MembershipsOk;
    if AdminIn(s.memberships, h, actor) {
      var i :| 0 <= i < |s.memberships| && IsActive(s.memberships[i], h, actor) && s.memberships[i].role == Admin;
      assert ActiveIn(s.memberships, h, actor);
      MemberHouseholdExists(s, h, actor);
    }
  }

  lemma MemberGate(s: DB, actor: Id, h: Id)
    requires Inv(s)
    ensures RequireMember(s, actor, h) == Done <==> ActiveIn(s.memberships, h, actor)
    ensures RequireMember(s, actor, h) != Done ==> RequireMember(s, actor, h) in {Unauthorized, Forbidden}
    ensures RequireMember(s, actor, h) == Unauthorized <==> actor !in s.users
  {
    hide Inv, ActiveIn;
    if ActiveIn(s.memberships, h, actor) {
      MemberHouseholdExists(s, h, actor);
    }
  }

  lemma AdminsCounted(s: DB, h: Id, u: Id)
    requires Inv(s) && AdminIn(s.memberships, h, u)
    ensures 2 <= CountAdmins(s.memberships, h) <==> AnotherAdminIn(s.memberships, h, u)
  {
    MembershipPart(s);
    hide Inv, MembershipsOk, CountAdmins, ActiveAdmins;
    var ms := s.memberships;
    if 2 <= CountAdmins(ms, h) {
      var i := AnotherAdmin(ms, s.users, s.households.Keys, h, u);
      AdminRowIsAdmin(ms, h, i);
    }
    if v :| v != u && AdminIn(ms, h, v) {
      TwoAdminsCount(ms, h, u, v);
    }
  }

  lemma AdminRowIsAdmin(ms: seq<Membership>, h: Id, i: nat)
    requires i < |ms| && ActiveAdmins(h)(ms[i])
    ensures AdminIn(ms, h, ms[i].user)
  {
    assert IsActive(ms[i], h, ms[i].user);
  }

  lemma TwoAdminsCount(ms: seq<Membership>, h: Id, u: Id, v: Id)
    requires AdminIn(ms, h, u) && AdminIn(ms, h, v) && u != v
    ensures 2 <= CountAdmins(ms, h)
  {
    var admins := Filter(ms, ActiveAdmins(h));
    FilterMembers(ms, ActiveAdmins(h));
    hide Filter;
    var i :| 0 <= i < |ms| && IsActive(ms[i], h, u) && ms[i].role == Admin;
    var j :| 0 <= j < |ms| && IsActive(ms[j], h, v) && ms[j].role == Admin;
    assert ms[i] in admins && ms[j] in admins && ms[i] != ms[j];
  }

  lemma DeactivationStands(ms: seq<Membership>, h: Id, u: Id)
    ensures var ms' := Deactivated(ms, {h}, u); OthersStand(ms, ms', h, u) && !ActiveIn(ms', h, u)
  {
    var ms' := Deactivated(ms, {h}, u);
    forall x, v | x != h || v != u
      ensures (ActiveIn(ms', x, v) <==> ActiveIn(ms, x, v)) && (AdminIn(ms', x, v) <==> AdminIn(ms, x, v))
    {
      forall i | 0 <= i < |ms| ensures IsActive(ms'[i], x, v) == IsActive(ms[i], x, v) && ms'[i].role == ms[i].role {
      }
    }
  }

  lemma AppendStands(ms: seq<Membership>, m: Membership)
    ensures OthersStand(ms, ms + [m], m.household, m.user)
  {
    hide ActiveIn, AdminIn;
    forall x, v | x != m.household || v != m.user
      ensures (ActiveIn(ms + [m], x, v) <==> ActiveIn(ms, x, v)) && (AdminIn(ms + [m], x, v) <==> AdminIn(ms, x, v))
    {
      AppendedJoins(ms, m, x, v);
    }
  }

  // ---------------------------------------------------------------------------
  // Users and households
  // ---------------------------------------------------------------------------

  lemma RegistrationEffect(s: DB)
    requires Inv(s)
    ensures var (s', outcome) := Step(s, RegisterUser);
            && outcome == Done && s.nextId !in s.users && s.nextId in s'.users
            && s' == s.(users := s'.users, nextId := s'.nextId)
    ensures forall u :: u != s.nextId ==> (u in Step(s, RegisterUser).0.users <==> u in s.users)
  {
    hide MembershipsOk, AdminsOk, DefinitionsOk, InstancesOk, PairsUnique, Served, LedgerOk, InvitesOk, PointersOk;
  }

  lemma CreateHouseholdAccepted(s: DB, actor: Id, name: string, now: Time)
    ensures Step(s, CreateHouseholdReq(actor, name, now)).1 == Done <==> actor in s.users
  {
  }

  /** The creator is the new household's admin and whole roster; nothing else changes. */
  lemma CreateHouseholdEffect(s: DB, actor: Id, name: string, now: Time)
    requires Inv(s) && Step(s, CreateHouseholdReq(actor, name, now)).1 == Done
    ensures var s' := Step(s, CreateHouseholdReq(actor, name, now)).0;
            var h := s.nextId;
            && h !in s.households && s'.households == s.households[h := Household(name, 0)]
            && AdminIn(s'.memberships, h, actor) && Roster(s'.memberships, h) == [actor]
            && OthersStand(s.memberships, s'.memberships, h, actor)
            && s' == s.(households := s'.households, memberships := s'.memberships, nextId := s'.nextId)
  {
    hide Inv, OthersStand;
    HouseholdKeysBelow(s);
    var h := s.nextId;
    var m := Membership(h, actor, Admin, now, true);
    AppendStands(s.memberships, m);
    AppendedJoins(s.memberships, m, h, actor);
    FilterAppend(s.memberships, m, ActiveMembers(h));
    NobodyThere(s, h);
  }

  lemma NobodyThere(s: DB, h: Id)
    requires Inv(s) && h !in s.households
    ensures Filter(s.memberships, ActiveMembers(h)) == []
  {
    MembershipPart(s);
    hide Inv;
    FilterNone(s.memberships, ActiveMembers(h));
  }

  lemma DeleteHouseholdAccepted(s: DB, actor: Id, h: Id, confirm: string)
    requires Inv(s)
    ensures Step(s, DeleteHouseholdReq(actor, h, confirm)).1 == Done <==>
            AdminIn(s.memberships, h, actor) && h in s.households && confirm == s.households[h].name
  {
    hide Inv, RequireAdmin, AdminIn, DeleteHouseholds;
    AdminGate(s, actor, h);
  }

  /** The household and all its rows are gone; every other row is as it was. */
  lemma DeleteHouseholdEffect(s: DB, actor: Id, h: Id, confirm: string)
    requires Inv(s) && Step(s, DeleteHouseholdReq(actor, h, confirm)).1 == Done
    ensures var s' := Step(s, DeleteHouseholdReq(actor, h, confirm)).0;
            && s'.users == s.users
            && (forall x :: x in s'.households <==> x in s.households && x != h)
            && (forall x :: x in s'.households ==> s'.households[x] == s.households[x])
            && (forall m :: m in s'.memberships <==> m in s.memberships && m.household != h)
            && (forall d :: d in s'.definitions <==> d in s.definitions && s.definitions[d].household != h)
            && (forall d :: d in s'.definitions ==> s'.definitions[d] == s.definitions[d])
            && (forall id :: id in s'.instances <==> id in s.instances && s.instances[id].household != h)
            && (forall id :: id in s'.instances ==> s'.instances[id] == s.instances[id])
            && (forall row :: row in s'.ledger <==> row in s.ledger && row.household != h)
            && (forall i :: i in s'.invites <==> i in s.invites && s.invites[i].household != h)
            && (forall i :: i in s'.invites ==> s'.invites[i] == s.invites[i])
  {
    hide Inv, RequireAdmin;
    CascadeLeavesNoDanglingRows(s, {h});
    FilterMembers(s.memberships, OutsideHouseholds({h}));
    FilterMembers(s.ledger, LedgerOutside({h}));
    hide Filter, ForgetInstances;
  }

  // ---------------------------------------------------------------------------
  // Invites
  // ---------------------------------------------------------------------------

  lemma CreateInviteAccepted(s: DB, actor: Id, h: Id, now: Time)
    requires Inv(s)
    ensures Step(s, CreateInviteReq(actor, h, now)).1 == Done <==> AdminIn(s.memberships, h, actor)
  {
    hide Inv, RequireAdmin, AdminIn, InvitesExpired;
    AdminGate(s, actor, h);
  }

  /** A new unused invite with the configured lifetime; the household's others end now, none is used up. */
  lemma CreateInviteEffect(s: DB, actor: Id, h: Id, now: Time)
    requires Inv(s) && Step(s, CreateInviteReq(actor, h, now)).1 == Done
    ensures var s' := Step(s, CreateInviteReq(actor, h, now)).0;
            && s.nextId !in s.invites && s.nextId in s'.invites
            && s'.invites[s.nextId] == Invite(h, now + INVITE_TTL, None)
            && s'.invites.Keys == s.invites.Keys + {s.nextId}
            && (forall i :: i in s.invites ==>
                 && s'.invites[i] == s.invites[i].(expiresAt := s'.invites[i].expiresAt)
                 && (s.invites[i].household == h && s.invites[i].usedAt.None? ==> s'.invites[i].expiresAt <= now)
                 && (s.invites[i].household != h ==> s'.invites[i] == s.invites[i]))
            && s' == s.(invites := s'.invites, nextId := s'.nextId)
  {
    hide Inv, RequireAdmin, InvitesExpired;
    DefinitionKeysBelow(s);
    InvitesExpiredMeans(s.invites, h, now);
  }

  lemma InvitesExpiredMeans(invites: Invites, h: Id, now: Time)
    ensures InvitesExpired(invites, h, now).Keys == invites.Keys
    ensures forall i :: i in invites ==>
      var invite := InvitesExpired(invites, h, now)[i];
      && invite == invites[i].(expiresAt := invite.expiresAt)
      && (invites[i].household == h && invites[i].usedAt.None? ==> invite.expiresAt <= now)
      && (invites[i].household != h ==> invite == invites[i])
  {
  }

  lemma AcceptInviteAccepted(s: DB, actor: Id, token: Id, now: Time)
    ensures Step(s, AcceptInviteReq(actor, token, now)).1 == Done <==>
            && actor in s.users && token in s.invites && s.invites[token].usedAt.None?
            && now <= s.invites[token].expiresAt && !ActiveIn(s.memberships, s.invites[token].household, actor)
    ensures Step(s, AcceptInviteReq(actor, token, now)).1 == Gone <==>
            && actor in s.users
            && (token in s.invites ==> s.invites[token].usedAt.Some? || s.invites[token].expiresAt < now)
    ensures Step(s, AcceptInviteReq(actor, token, now)).1 == Conflict <==>
            && actor in s.users && token in s.invites && s.invites[token].usedAt.None?
            && now <= s.invites[token].expiresAt && ActiveIn(s.memberships, s.invites[token].household, actor)
  {
    hide ActiveIn;
  }

  /** The user is a member, no admin, and last in the rotation; the invite is used; nothing else changes. */
  lemma AcceptInviteEffect(s: DB, actor: Id, token: Id, now: Time)
    requires Inv(s) && Step(s, AcceptInviteReq(actor, token, now)).1 == Done
    ensures var s' := Step(s, AcceptInviteReq(actor, token, now)).0;
            && token in s.invites
            && var h := s.invites[token].household;
               && ActiveIn(s'.memberships, h, actor) && !AdminIn(s'.memberships, h, actor)
               && Roster(s'.memberships, h) == Roster(s.memberships, h) + [actor]
               && OthersStand(s.memberships, s'.memberships, h, actor)
               && s'.invites == s.invites[token := s.invites[token].(usedAt := Some(now))]
               && s' == s.(memberships := s'.memberships, invites := s'.invites)
  {
    hide Inv, OthersStand, ActiveIn, AdminIn;
    var h := s.invites[token].household;
    var m := Membership(h, actor, Member, now, true);
    AppendStands(s.memberships, m);
    AppendedJoins(s.memberships, m, h, actor);
    NoAdminOutside(s.memberships, h, actor);
    FilterAppend(s.memberships, m, ActiveMembers(h));
  }

  lemma NoAdminOutside(ms: seq<Membership>, h: Id, u: Id)
    ensures AdminIn(ms, h, u) ==> ActiveIn(ms, h, u)
  {
  }

  lemma RevokeInviteAccepted(s: DB, actor: Id, h: Id, token: Id, now: Time)
    requires Inv(s)
    ensures Step(s, RevokeInviteReq(actor, h, token, now)).1 == Done <==>
            AdminIn(s.memberships, h, actor) && token in s.invites && s.invites[token].household == h
  {
    hide Inv, RequireAdmin, AdminIn;
    AdminGate(s, actor, h);
  }

  /** Only this invite changes, and only its expiry, which is now. */
  lemma RevokeInviteEffect(s: DB, actor: Id, h: Id, token: Id, now: Time)
    requires Step(s, RevokeInviteReq(actor, h, token, now)).1 == Done
    ensures var s' := Step(s, RevokeInviteReq(actor, h, token, now)).0;
            && token in s.invites && token in s'.invites
            && s'.invites[token] == s.invites[token].(expiresAt := now)
            && s' == s.(invites := s.invites[token := s'.invites[token]])
  {
    hide RequireAdmin;
  }

  // ---------------------------------------------------------------------------
  // Roles and departures
  // ---------------------------------------------------------------------------

  lemma UpdateRoleAccepted(s: DB, actor: Id, h: Id, target: Id, role: Role)
    requires Inv(s)
    ensures Step(s, UpdateRoleReq(actor, h, target, role)).1 == Done <==>
            && AdminIn(s.memberships, h, actor) && ActiveIn(s.memberships, h, target)
            && (target == actor && role == Member ==> AnotherAdminIn(s.memberships, h, actor))
    ensures Step(s, UpdateRoleReq(actor, h, target, role)).1 == NotFound <==>
            AdminIn(s.memberships, h, actor) && !ActiveIn(s.memberships, h, target)
    ensures Step(s, UpdateRoleReq(actor, h, target, role)).1 == Conflict <==>
            && AdminIn(s.memberships, h, actor) && ActiveIn(s.memberships, h, target)
            && target == actor && role == Member && !AnotherAdminIn(s.memberships, h, actor)
  {
    hide Inv, RequireAdmin, AdminIn, ActiveIn, AnotherAdminIn, CountAdmins, WithRole;
    AdminGate(s, actor, h);
    if AdminIn(s.memberships, h, actor) {
      AdminsCounted(s, h, actor);
    }
  }

  /** The target has the role, everybody else's stands, and the rotation is as it was. */
  lemma UpdateRoleEffect(s: DB, actor: Id, h: Id, target: Id, role: Role)
    requires Inv(s) && Step(s, UpdateRoleReq(actor, h, target, role)).1 == Done
    ensures var s' := Step(s, UpdateRoleReq(actor, h, target, role)).0;
            && ActiveIn(s'.memberships, h, target) && (AdminIn(s'.memberships, h, target) <==> role == Admin)
            && OthersStand(s.memberships, s'.memberships, h, target)
            && (forall x :: Roster(s'.memberships, x) == Roster(s.memberships, x))
            && s' == s.(memberships := s'.memberships)
  {
    hide Inv, RequireAdmin, CountAdmins;
    RoleWritten(s.memberships, h, target, role);
    forall x ensures Roster(WithRole(s.memberships, h, target, role), x) == Roster(s.memberships, x) {
      RosterIgnoresRoles(s.memberships, h, target, role, x);
    }
    hide Roster, WithRole, ActiveIn, AdminIn;
  }

  lemma RoleWritten(ms: seq<Membership>, h: Id, u: Id, role: Role)
    requires ActiveIn(ms, h, u)
    ensures var ms' := WithRole(ms, h, u, role);
            && ActiveIn(ms', h, u) && (AdminIn(ms', h, u) <==> role == Admin) && OthersStand(ms, ms', h, u)
  {
    var ms' := WithRole(ms, h, u, role);
    var i :| 0 <= i < |ms| && IsActive(ms[i], h, u);
    assert IsActive(ms'[i], h, u) && ms'[i].role == role;
    forall x, v | x != h || v != u
      ensures (ActiveIn(ms', x, v) <==> ActiveIn(ms, x, v)) && (AdminIn(ms', x, v) <==> AdminIn(ms, x, v))
    {
      forall i | 0 <= i < |ms|
        ensures IsActive(ms'[i], x, v) == IsActive(ms[i], x, v) && (IsActive(ms[i], x, v) ==> ms'[i] == ms[i])
      {
      }
    }
  }

  lemma {:induction false} RosterIgnoresRoles(ms: seq<Membership>, h: Id, u: Id, role: Role, x: Id)
    ensures Roster(WithRole(ms, h, u, role), x) == Roster(ms, x)
  {
    if ms != [] {
      var front := ms[..|ms| - 1];
      RosterIgnoresRoles(front, h, u, role, x);
      assert WithRole(ms, h, u, role)[..|ms| - 1] == WithRole(front, h, u, role);
    }
  }

  lemma RemovalAccepted(s: DB, actor: Id, h: Id, target: Id, rows: seq<Id>)
    requires Inv(s)
    ensures Step(s, RemoveMemberReq(actor, h, target, rows)).1 == Done <==>
            && AdminIn(s.memberships, h, actor) && ActiveIn(s.memberships, h, target)
            && (target == actor ==> AnotherAdminIn(s.memberships, h, actor))
    ensures Step(s, RemoveMemberReq(actor, h, target, rows)).1 == NotFound <==>
            AdminIn(s.memberships, h, actor) && !ActiveIn(s.memberships, h, target)
    ensures Step(s, RemoveMemberReq(actor, h, target, rows)).1 == Conflict <==>
            && AdminIn(s.memberships, h, actor) && ActiveIn(s.memberships, h, target)
            && target == actor && !AnotherAdminIn(s.memberships, h, actor)
  {
    hide Inv, RequireAdmin, AdminIn, ActiveIn, AnotherAdminIn, CountAdmins, MemberLeaves;
    AdminGate(s, actor, h);
    if AdminIn(s.memberships, h, actor) {
      AdminsCounted(s, h, actor);
    }
  }

  lemma LeavingAccepted(s: DB, actor: Id, h: Id, rows: seq<Id>)
    requires Inv(s)
    ensures Step(s, LeaveReq(actor, h, rows)).1 == Done <==>
            && ActiveIn(s.memberships, h, actor)
            && (AdminIn(s.memberships, h, actor) ==> AnotherAdminIn(s.memberships, h, actor))
    ensures Step(s, LeaveReq(actor, h, rows)).1 == Conflict <==>
            && ActiveIn(s.memberships, h, actor)
            && AdminIn(s.memberships, h, actor) && !AnotherAdminIn(s.memberships, h, actor)
  {
    hide Inv, RequireMember, AdminIn, ActiveIn, AnotherAdminIn, CountAdmins, MemberLeaves;
    MemberGate(s, actor, h);
    if AdminIn(s.memberships, h, actor) {
      AdminsCounted(s, h, actor);
    }
  }

  /** The departing member of a removal or a leave request. */
  function Departing(r: Request): Id
    requires r.RemoveMemberReq? || r.LeaveReq?
  {
    if r.RemoveMemberReq? then r.target else r.actor
  }

  /** An accepted removal or leave request is a departure of an active member beside whom an admin stays. */
  lemma DepartureIsSafe(s: DB, r: Request)
    requires Inv(s) && (r.RemoveMemberReq? || r.LeaveReq?) && Step(s, r).1 == Done
    ensures var h, u := r.household, Departing(r);
            && h in s.households && ActiveIn(s.memberships, h, u) && AdminBesides(s.memberships, h, u)
            && Step(s, r).0 == MemberLeaves(s, h, u, r.rows)
  {
    hide Inv, MemberLeaves, AdminBesides, ActiveIn, AdminIn, CountAdmins;
    var u := Departing(r);
    MemberHouseholdExists(s, r.household, u);
    if r.RemoveMemberReq? {
      CallerKeepsAdmin(s, r.actor, r.household, u);
    } else {
      LeaverLeavesAdmin(s, r.household, u);
    }
  }

  /**
   What an accepted removal or leave request does to the household: the member is
   out, everybody else's membership stands, the roster closes the gap, the i-th of the
   k open chores goes to survivor (P + i) mod (n - 1) and the pointer ends at P + k,
   less one when the member stood before P mod n.
   */
  lemma DepartureEffect(s: DB, r: Request) returns (place: nat)
    requires Inv(s) && Fits(s, r) && (r.RemoveMemberReq? || r.LeaveReq?) && Step(s, r).1 == Done
    ensures var h, u, s' := r.household, Departing(r), Step(s, r).0;
            && !ActiveIn(s'.memberships, h, u) && OthersStand(s.memberships, s'.memberships, h, u)
            && h in s.households && h in s'.households
            && var roster, P := Roster(s.memberships, h), s.households[h].pointer;
               && 2 <= |roster| && place < |roster| && roster[place] == u
               && Survivors(roster, place) == roster[..place] + roster[place + 1..]
               && Roster(s'.memberships, h) == Survivors(roster, place)
               && s'.households[h].pointer == P + |r.rows| - (if place < P % |roster| then 1 else 0)
               && (forall i :: 0 <= i < |r.rows| ==>
                    && r.rows[i] in s'.instances
                    && s'.instances[r.rows[i]].assignee == Some(Survivors(roster, place)[(P + i) % (|roster| - 1)]))
  {
    hide *;
    DepartureIsSafe(s, r);
    var h, u := r.household, Departing(r);
    ReadsOpenChores(s, r);
    place := LeavingLaw(s, h, u, r.rows);
    DepartureIsLocal(s, h, u, r.rows);
    SurvivorsAre(Roster(s.memberships, h), place);
  }

  /**
   And to the tables: only the rows handed over change, and only in their assignee; no
   open chore of the household names the member any more; no other table changes.
   */
  lemma DepartureTouches(s: DB, r: Request)
    requires Inv(s) && Fits(s, r) && (r.RemoveMemberReq? || r.LeaveReq?) && Step(s, r).1 == Done
    ensures var h, u, s' := r.household, Departing(r), Step(s, r).0;
            && s' == s.(households := s'.households, memberships := s'.memberships, instances := s'.instances)
            && s'.instances.Keys == s.instances.Keys
            && (forall id :: id in s.instances ==>
                 s'.instances[id] == s.instances[id].(assignee := s'.instances[id].assignee))
            && (forall id :: id in s.instances && id !in r.rows ==> s'.instances[id] == s.instances[id])
            && (forall id :: id in s'.instances ==>
                 s'.instances[id].status in {Pending, Overdue} && s'.instances[id].household == h ==>
                   s'.instances[id].assignee != Some(u))
  {
    hide *;
    DepartureIsSafe(s, r);
    var h, u := r.household, Departing(r);
    ReadsOpenChores(s, r);
    DepartureIsLocal(s, h, u, r.rows);
    LeavingTouchesOnlyOpenChores(s, h, u, r.rows);
    OpenChoresMeans(s, h, u, r.rows);
  }

  lemma ReadsOpenChores(s: DB, r: Request)
    requires Fits(s, r) && (r.RemoveMemberReq? || r.LeaveReq?)
    ensures Enumerates(r.rows, OpenChores(s.instances, r.household, Departing(r)))
  {
  }

  lemma SurvivorsAre(roster: seq<Id>, r: nat)
    requires r < |roster|
    ensures Survivors(roster, r) == roster[..r] + roster[r + 1..]
  {
  }

  lemma DepartureIsLocal(s: DB, h: Id, u: Id, rows: seq<Id>)
    ensures var s' := MemberLeaves(s, h, u, rows);
            && !ActiveIn(s'.memberships, h, u) && OthersStand(s.memberships, s'.memberships, h, u)
            && s' == s.(households := s'.households, memberships := s'.memberships, instances := s'.instances)
            && (forall id :: id in s.instances ==>
                 id in s'.instances && s'.instances[id] == s.instances[id].(assignee := s'.instances[id].assignee))
  {
    hide Redistributed, Deactivated, OthersStand, ActiveIn;
    DeactivationStands(s.memberships, h, u);
    RedistributionTouches(s.(memberships := Deactivated(s.memberships, {h}, u)), h, u, rows);
  }

  lemma OpenChoresMeans(s: DB, h: Id, u: Id, rows: seq<Id>)
    requires Enumerates(rows, OpenChores(s.instances, h, u))
    requires var s' := MemberLeaves(s, h, u, rows);
             && s'.instances.Keys == s.instances.Keys
             && (forall id :: id in s.instances ==>
                  s'.instances[id] == s.instances[id].(assignee := s'.instances[id].assignee))
             && (forall id :: id in s.instances && id !in OpenChores(s.instances, h, u) ==>
                  s'.instances[id] == s.instances[id])
             && (forall id :: id in OpenChores(s.instances, h, u) ==>
                  s'.instances[id] == s.instances[id].(assignee := s'.instances[id].assignee)
                  && s'.instances[id].assignee != Some(u))
    ensures var s' := MemberLeaves(s, h, u, rows);
            && (forall id :: id in s.instances && id !in rows ==> s'.instances[id] == s.instances[id])
            && (forall id :: id in s'.instances ==>
                 s'.instances[id].status in {Pending, Overdue} && s'.instances[id].household == h ==>
                   s'.instances[id].assignee != Some(u))
  {
    hide MemberLeaves;
  }

  /** After an accepted removal or leave request the next chore goes by the removal law. */
  lemma NextAfterDeparture(s: DB, r: Request) returns (place: nat)
    requires Inv(s) && Fits(s, r) && (r.RemoveMemberReq? || r.LeaveReq?) && Step(s, r).1 == Done
    ensures var h, u := r.household, Departing(r);
            && h in s.households
            && var roster, P := Roster(s.memberships, h), s.households[h].pointer;
               var n, k := |roster|, |r.rows|;
               var next := AutoAssign(Step(s, r).0, h).0;
               && 2 <= n && place < n && roster[place] == u
               && next == Some(Survivors(roster, place)[
                            (P % n - (if place < P % n then 1 else 0) + P / n + k) % (n - 1)])
               && (next == Some(PromisedNext(roster, P, place)) <==> (P / n + k) % (n - 1) == 0)
  {
    hide *;
    DepartureIsSafe(s, r);
    ReadsOpenChores(s, r);
    place := NextAssigneeAfterLeaving(s, r.household, Departing(r), r.rows);
  }

  // ---------------------------------------------------------------------------
  // Accounts
  // ---------------------------------------------------------------------------

  /** Somebody else is an active member of `h`. */
  ghost predicate OthersIn(ms: seq<Membership>, h: Id, u: Id) {
    exists v :: v != u && ActiveIn(ms, h, v)
  }

  lemma SoleMemberMeans(s: DB, h: Id, u: Id)
    requires Inv(s) && ActiveIn(s.memberships, h, u)
    ensures SoleMember(s, h) <==> !OthersIn(s.memberships, h, u)
  {
    RosterIsActiveMembers(s.memberships, h);
    MembershipPart(s);
    RosterInJoiningOrder(s.memberships, s.users, s.households.Keys, h);
    hide Inv, Roster, ActiveIn, MembershipsOk;
    var roster := Roster(s.memberships, h);
    assert u in roster;
    if 2 <= |roster| {
      var v := if roster[0] == u then roster[1] else roster[0];
      assert v in roster && v != u;
    }
  }

  lemma SoleAdminMeans(s: DB, h: Id, u: Id)
    requires Inv(s) && ActiveIn(s.memberships, h, u)
    ensures SoleAdminAmongOthers(s, h, u) <==>
            AdminIn(s.memberships, h, u) && !AnotherAdminIn(s.memberships, h, u) && OthersIn(s.memberships, h, u)
  {
    hide Inv, SoleMember, AdminIn, ActiveIn, CountAdmins, AnotherAdminIn, OthersIn;
    SoleMemberMeans(s, h, u);
    if AdminIn(s.memberships, h, u) {
      AdminsCounted(s, h, u);
    }
  }

  /** An account can be deleted unless its user is the only admin of a household with other members. */
  lemma DeleteAccountAccepted(s: DB, actor: Id, order: seq<Id>, rows: map<Id, seq<Id>>)
    requires Inv(s) && ReadsForDeletion(s, actor, order, rows)
    ensures Step(s, DeleteAccountReq(actor, order, rows)).1 == Done <==>
            && actor in s.users
            && !exists h :: AdminIn(s.memberships, h, actor) && !AnotherAdminIn(s.memberships, h, actor)
                            && OthersIn(s.memberships, h, actor)
    ensures Step(s, DeleteAccountReq(actor, order, rows)).1 == Conflict <==>
            && actor in s.users
            && exists h :: AdminIn(s.memberships, h, actor) && !AnotherAdminIn(s.memberships, h, actor)
                           && OthersIn(s.memberships, h, actor)
  {
    hide Inv, AdminIn, AnotherAdminIn, OthersIn, ActiveIn, SoleAdminAmongOthers;
    hide DeleteHouseholds, LeaveEach, DeleteUser;
    HouseholdsOfMeans(s.memberships, actor);
    forall h | h in order
      ensures SoleAdminAmongOthers(s, h, actor) <==>
        && AdminIn(s.memberships, h, actor) && !AnotherAdminIn(s.memberships, h, actor)
        && OthersIn(s.memberships, h, actor)
    {
      SoleAdminMeans(s, h, actor);
    }
    forall h | AdminIn(s.memberships, h, actor) ensures h in order {
      NoAdminOutside(s.memberships, h, actor);
    }
  }

  /**
   The account's user is gone, and with them exactly the households in which nobody
   else was active; everybody else's memberships and roles stand.
   */
  lemma DeleteAccountEffect(s: DB, actor: Id, order: seq<Id>, rows: map<Id, seq<Id>>)
    requires Inv(s) && ReadsForDeletion(s, actor, order, rows)
    requires Step(s, DeleteAccountReq(actor, order, rows)).1 == Done
    ensures var s' := Step(s, DeleteAccountReq(actor, order, rows)).0;
            && s'.users == s.users - {actor}
            && (forall h :: h in s'.households <==>
                 h in s.households && (ActiveIn(s.memberships, h, actor) ==> OthersIn(s.memberships, h, actor)))
            && (forall h, v :: v != actor ==>
                 (ActiveIn(s'.memberships, h, v) <==> ActiveIn(s.memberships, h, v))
                 && (AdminIn(s'.memberships, h, v) <==> AdminIn(s.memberships, h, v)))
            && (forall h :: !ActiveIn(s'.memberships, h, actor))
  {
    hide Inv, AdminIn, OthersIn, ActiveIn, SoleAdminAmongOthers, SoleMember;
    hide LeaveEach, ToLeave, ToDelete, Deactivated, Filter;
    HouseholdsOfMeans(s.memberships, actor);
    ValidatePassSplits(s, order);
    forall h | h in order ensures SoleMember(s, h) <==> !OthersIn(s.memberships, h, actor) {
      SoleMemberMeans(s, h, actor);
    }
    LeaveEachTouches(Prepared(s, actor, order), actor, ToLeave(s, order), rows);
    AccountDeletionJoinsNobody(s, actor, order, rows);
    forall h, v | v != actor && ActiveIn(s.memberships, h, v)
      ensures ActiveIn(DeleteAccount(s, actor, order, rows).0.memberships, h, v)
    {
      AccountDeletionKeepsOthers(s, actor, order, rows, h, v);
    }
    forall h, v | v != actor && AdminIn(s.memberships, h, v)
      ensures AdminIn(DeleteAccount(s, actor, order, rows).0.memberships, h, v)
    {
      AccountDeletionKeepsAdmins(s, actor, order, rows, h, v);
    }
    NoRowsOfDeletedUser(LeaveEach(Prepared(s, actor, order), actor, ToLeave(s, order), rows), actor);
  }

  lemma FilterKeepsAdminRole(ms: seq<Membership>, p: Membership -> bool, h: Id, v: Id)
    requires AdminIn(ms, h, v) && forall i :: 0 <= i < |ms| && IsActive(ms[i], h, v) ==> p(ms[i])
    ensures AdminIn(Filter(ms, p), h, v)
  {
    var i :| 0 <= i < |ms| && IsActive(ms[i], h, v) && ms[i].role == Admin;
    var k := FilterKeepsRow(ms, p, i);
    assert IsActive(Filter(ms, p)[k], h, v);
  }

  lemma DeactivationKeepsAdminRole(ms: seq<Membership>, hs: set<Id>, u: Id, h: Id, v: Id)
    requires AdminIn(ms, h, v) && v != u
    ensures AdminIn(Deactivated(ms, hs, u), h, v)
  {
    var i :| 0 <= i < |ms| && IsActive(ms[i], h, v) && ms[i].role == Admin;
    assert Deactivated(ms, hs, u)[i] == ms[i];
  }

  lemma AccountDeletionKeepsAdmins(s: DB, actor: Id, order: seq<Id>, rows: map<Id, seq<Id>>, h: Id, v: Id)
    requires Inv(s) && ReadsForDeletion(s, actor, order, rows) && AdminIn(s.memberships, h, v) && v != actor
    ensures AdminIn(DeleteAccount(s, actor, order, rows).0.memberships, h, v)
  {
    hide Inv, Deactivated, LeaveEach, ToLeave, ToDelete, SoleAdminAmongOthers, Filter, ActiveIn, AdminIn, SoleMember;
    var doomed, left := AsSet(ToDelete(s, order)), AsSet(ToLeave(s, order));
    ValidatePassSplits(s, order);
    HouseholdsOfMeans(s.memberships, actor);
    NoAdminOutside(s.memberships, h, v);
    if h in doomed {
      SoleMemberIsAlone(s, h, actor, v);
    }
    FilterKeepsAdminRole(s.memberships, OutsideHouseholds(doomed), h, v);
    var prepared := Prepared(s, actor, order);
    DeactivationKeepsAdminRole(DeleteHouseholds(s, doomed).memberships, left, actor, h, v);
    LeaveEachTouches(prepared, actor, ToLeave(s, order), rows);
    FilterKeepsAdminRole(prepared.memberships, OfOtherUsers(actor), h, v);
  }

  lemma NoRowsOfDeletedUser(s: DB, u: Id)
    ensures forall h :: !ActiveIn(DeleteUser(s, u).memberships, h, u)
  {
    var kept := Filter(s.memberships, OfOtherUsers(u));
    FilterMembers(s.memberships, OfOtherUsers(u));
    forall i | 0 <= i < |kept| ensures kept[i].user != u {
      assert kept[i] in kept;
    }
  }

  // ---------------------------------------------------------------------------
  // Branches that consistent tables never take
  // ---------------------------------------------------------------------------

  /** Redistribution in a household where nobody else is left: the open chores lose their assignee, no others change. */
  lemma EmptyHouseholdClears(s: DB, h: Id, u: Id, rows: seq<Id>)
    requires Enumerates(rows, OpenChores(s.instances, h, u)) && !OthersIn(s.memberships, h, u)
    ensures var s' := Redistributed(s, h, u, rows);
            && s'.instances.Keys == s.instances.Keys
            && (forall id :: id in s.instances ==>
                 s'.instances[id]
                 == if id in OpenChores(s.instances, h, u) then s.instances[id].(assignee := None) else s.instances[id])
  {
    hide OpenChores, Corrected, OthersIn;
    NobodyElse(s.memberships, h, u);
    var (dealt, s1) := HandOver(s, h, u, rows);
    assert s1 == s && forall id :: id in dealt <==> id in rows;
    CorrectionTouches(s, s1.(instances := WithAssignees(s1.instances, dealt)), h, u);
  }

  lemma NobodyElse(ms: seq<Membership>, h: Id, u: Id)
    requires !OthersIn(ms, h, u)
    ensures Filter(ms, ActiveOthers(h, u)) == []
  {
    forall i | 0 <= i < |ms| ensures !ActiveOthers(h, u)(ms[i]) {
      if ActiveOthers(h, u)(ms[i]) {
        assert IsActive(ms[i], h, ms[i].user);
        assert ActiveIn(ms, h, ms[i].user);
      }
    }
    FilterNone(ms, ActiveOthers(h, u));
  }

  /** Nobody can be assigned in a household without members or in none: no user, and no pointer moves. */
  lemma NobodyToAssign(s: DB, h: Id)
    requires h !in s.households || forall u :: !ActiveIn(s.memberships, h, u)
    ensures AutoAssign(s, h) == (None, s)
  {
    hide ActiveIn;
    if h in s.households {
      RosterIsActiveMembers(s.memberships, h);
      hide Roster;
      FirstElement(Roster(s.memberships, h));
      Service.PointerKept(s, h);
    }
  }

  lemma FirstElement(s: seq<Id>)
    ensures s != [] ==> s[0] in s
  {
  }

  /** ON DELETE SET NULL: what survives a cascade refers to nothing that is gone, and is otherwise unchanged. */
  lemma CascadeClearsReferences(s: DB, hs: set<Id>)
    ensures var s' := DeleteHouseholds(s, hs);
            && (forall id :: id in s'.instances ==>
                 && id in s.instances && s.instances[id].household !in hs
                 && s'.instances[id].(definition := None) == s.instances[id].(definition := None)
                 && (s'.instances[id].definition.Some? ==>
                      s'.instances[id].definition.value in s'.definitions
                      && s'.instances[id].definition == s.instances[id].definition)
                 && (s'.instances[id].definition.None? && s.instances[id].definition.Some? ==>
                      s.instances[id].definition.value !in s'.definitions))
            && (forall k :: 0 <= k < |s'.ledger| ==>
                 && s'.ledger[k].household !in hs
                 && (s'.ledger[k].instance.Some? ==> s'.ledger[k].instance.value in s'.instances))
  {
    var kept := Filter(s.ledger, LedgerOutside(hs));
    FilterMembers(s.ledger, LedgerOutside(hs));
    forall k | 0 <= k < |kept| ensures kept[k].household !in hs {
      assert kept[k] in kept;
    }
    hide Filter;
  }
}
