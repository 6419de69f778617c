/** Each endpoint keeps the invariant. */
module Preservation {
  import opened Types
  import opened Arithmetic
  import opened Filtering
  import opened Rotation
  import opened Schema
  import opened Endpoints
  import opened Invariants
  import opened Tables

  // ---------------------------------------------------------------------------
  // Assignment
  // ---------------------------------------------------------------------------

  lemma PointerMoves(s: DB, h: Id, pointer: Option<int>, leaver: Id, pending: set<Id>)
    requires InvWhile(s, leaver, pending) && (pointer.Some? ==> 0 <= pointer.value)
    ensures InvWhile(WithPointer(s, h, pointer), leaver, pending)
  {
    hide MembershipsOk, AdminsOk, DefinitionsOk, InstancesOk, PairsUnique, Served, LedgerOk, InvitesOk, Below;
    assert WithPointer(s, h, pointer).households.Keys == s.households.Keys;
  }

  lemma PointerWritten(s: DB, h: Id, p: int)
    requires h in s.households
    ensures var s' := WithPointer(s, h, Some(p));
            && s' == s.(households := s'.households) && s'.households.Keys == s.households.Keys
            && h in s'.households && s'.households[h] == s.households[h].(pointer := p)
  {
  }

  /** In a household of a consistent state, auto-assignment always finds an active member. */
  lemma AutoAssignFindsMember(s: DB, h: Id)
    requires h in s.households && HasAdmin(s.memberships, h)
    ensures var (user, s') := AutoAssign(s, h);
            && user.Some? && ActiveIn(s.memberships, h, user.value)
            && s' == WithPointer(s, h, Some(s.households[h].pointer + 1))
  {
    HasAdminIffCounted(s.memberships, h);
    RosterIsActiveMembers(s.memberships, h);
  }

  // ---------------------------------------------------------------------------
  // Chores
  // ---------------------------------------------------------------------------

  /** Replacing one instance by an unawarded one with the same identity. */
  lemma InstanceReplaced(s: DB, id: Id, inst: Instance)
    requires Inv(s) && id in s.instances && !IsAwarded(s.instances[id]) && !IsAwarded(inst)
    requires InstanceOk(inst, s.definitions, s.users, s.households.Keys)
    requires SamePair(s.instances[id], inst)
    requires inst.status in {Pending, Overdue} ==>
               inst.assignee.Some? && ActiveIn(s.memberships, inst.household, inst.assignee.value)
    ensures Inv(s.(instances := s.instances[id := inst]))
  {
    hide MembershipsOk, AdminsOk, DefinitionsOk, PairsUnique, LedgerOk, InvitesOk, PointersOk, Below, InstanceOk;
    hide ActiveIn;
    var after := s.instances[id := inst];
    assert after.Keys == s.instances.Keys;
    PairsRewritten(s.instances, after);
    AwardsUntouched(s.ledger, s.instances, after);
  }

  lemma TerminalGateMeans(s: DB, actor: Id, h: Id, id: Id)
    requires Inv(s) && TerminalGate(s, actor, h, id) == Done
    ensures id in s.instances && s.instances[id].household == h && s.instances[id].status in {Pending, Overdue}
    ensures s.instances[id].assignee.Some? && ActiveIn(s.memberships, h, s.instances[id].assignee.value)
    ensures InstanceOk(s.instances[id], s.definitions, s.users, s.households.Keys)
  {
    hide MembershipsOk, AdminsOk, DefinitionsOk, PairsUnique, LedgerOk, InvitesOk, PointersOk, Below, InstanceOk;
    var status := s.instances[id].status;
    assert status.Pending? || status.Overdue? || Terminal(status);
  }

  lemma CompleteKeepsInv(s: DB, actor: Id, h: Id, id: Id, now: Time)
    requires Inv(s)
    ensures Inv(CompleteChore(s, actor, h, id, now).0)
  {
    hide MembershipsOk, AdminsOk, DefinitionsOk, PairsUnique, LedgerOk, InvitesOk, PointersOk, Below, TerminalGate;
    hide ActiveIn;
    if TerminalGate(s, actor, h, id) == Done {
      TerminalGateMeans(s, actor, h, id);
      var s' := CompleteChore(s, actor, h, id, now).0;
      var inst := s'.instances[id];
      assert s'.instances == s.instances[id := inst];
      assert s'.instances.Keys == s.instances.Keys;
      PairsRewritten(s.instances, s'.instances);
      AwardRecorded(s.ledger, s.instances, id, inst,
                    LedgerRow(h, inst.assignee.value, Some(id), inst.points.value, now));
    }
  }

  lemma DismissKeepsInv(s: DB, actor: Id, h: Id, id: Id, now: Time)
    requires Inv(s)
    ensures Inv(DismissChore(s, actor, h, id, now).0)
  {
    hide Inv, TerminalGate, ActiveIn;
    if TerminalGate(s, actor, h, id) == Done {
      TerminalGateMeans(s, actor, h, id);
      InstanceReplaced(s, id, s.instances[id].(status := Dismissed, completedAt := Some(now), points := None));
    }
  }

  lemma ReassignKeepsInv(s: DB, actor: Id, h: Id, id: Id, assignee: Option<Id>)
    requires Inv(s)
    ensures Inv(ReassignChore(s, actor, h, id, assignee).0)
  {
    hide MembershipsOk, DefinitionsOk, PairsUnique, Served, LedgerOk, InvitesOk, PointersOk, Below, RequireAdmin;
    hide ActiveIn, AutoAssign, HasAdmin;
    var (s', outcome) := ReassignChore(s, actor, h, id, assignee);
    if outcome == Done {
      var (user, s1) := if assignee.Some? then (assignee, s) else AutoAssign(s, h);
      if assignee.None? {
        AutoAssignAdvances(s, h);
      }
      ActiveMembersAreUsers(s.memberships, s.users, s.households.Keys, h, user.value);
      InstanceReplaced(s1, id, s1.instances[id].(assignee := user, manual := assignee.Some?));
    }
  }

  lemma AutoAssignAdvances(s: DB, h: Id)
    requires Inv(s) && h in s.households
    ensures var (user, s') := AutoAssign(s, h);
            && user.Some? && ActiveIn(s.memberships, h, user.value)
            && s' == s.(households := s'.households) && s'.households.Keys == s.households.Keys
            && Inv(s')
  {
    AutoAssignFindsMember(s, h);
    PointerMoves(s, h, Some(s.households[h].pointer + 1), 0, {});
  }

  /** A fresh pending instance of an active definition without an instance on that day. */
  lemma InstanceAdded(s: DB, d: Id, h: Id, u: Id, manual: bool, due: Day)
    requires Inv(s) && d in s.definitions && s.definitions[d].household == h && s.definitions[d].active
    requires ActiveIn(s.memberships, h, u) && !PairExists(s.instances, d, due)
    ensures Inv(AddInstance(s, d, h, Some(u), manual, due))
  {
    hide MembershipsOk, AdminsOk, PairsUnique, LedgerOk, InvitesOk, PointersOk, Below, ActiveIn;
    var s' := AddInstance(s, d, h, Some(u), manual, due);
    ActiveMembersAreUsers(s.memberships, s.users, s.households.Keys, h, u);
    BelowNext(s.users, s.nextId);
    BelowNext(s.households.Keys, s.nextId);
    BelowNext(s.definitions.Keys, s.nextId);
    BelowNext(s.instances.Keys, s.nextId);
    BelowNext(s.invites.Keys, s.nextId);
    assert s'.instances.Keys == s.instances.Keys + {s.nextId};
    PairsInserted(s.instances, s.nextId, s'.instances[s.nextId]);
    AwardsUntouched(s.ledger, s.instances, s'.instances);
  }

  lemma DefinitionAdded(s: DB, def: Definition)
    requires Inv(s) && def.household in s.households
    ensures Inv(s.(definitions := s.definitions[s.nextId := def], nextId := s.nextId + 1))
    ensures s.nextId !in s.definitions && forall due :: !PairExists(s.instances, s.nextId, due)
  {
    hide MembershipsOk, AdminsOk, PairsUnique, Served, LedgerOk, InvitesOk, PointersOk, Below, ShapeOk;
    BelowNext(s.users, s.nextId);
    BelowNext(s.households.Keys, s.nextId);
    BelowNext(s.definitions.Keys, s.nextId);
    BelowNext(s.instances.Keys, s.nextId);
    BelowNext(s.invites.Keys, s.nextId);
    assert s.definitions[s.nextId := def].Keys == s.definitions.Keys + {s.nextId};
  }

  lemma CreateChoreKeepsInv(s: DB, actor: Id, h: Id, draft: Draft)
    requires Inv(s)
    ensures Inv(CreateChore(s, actor, h, draft).0)
  {
    hide Inv, AutoAssign, AddInstance, PairExists;
    var (s', outcome) := CreateChore(s, actor, h, draft);
    if outcome == Done {
      var d := s.nextId;
      var def := Definition(h, draft.effort, draft.recurring, draft.rule, draft.firstDue, true);
      MemberHouseholdExists(s, h, actor);
      DefinitionAdded(s, def);
      var s1 := s.(definitions := s.definitions[d := def], nextId := s.nextId + 1);
      if draft.assignee.Some? {
        InstanceAdded(s1, d, h, draft.assignee.value, true, draft.firstDue);
      } else {
        AutoAssignAdvances(s1, h);
        var (user, s2) := AutoAssign(s1, h);
        InstanceAdded(s2, d, h, user.value, false, draft.firstDue);
      }
    }
  }

  lemma MemberHouseholdExists(s: DB, h: Id, u: Id)
    requires Inv(s) && ActiveIn(s.memberships, h, u)
    ensures h in s.households && u in s.users
  {
    hide AdminsOk, DefinitionsOk, InstancesOk, PairsUnique, Served, LedgerOk, InvitesOk, PointersOk, Below;
  }

  /** Rewriting a definition without reviving it or moving it. */
  lemma DefinitionRewritten(s: DB, d: Id, def: Definition, instances: Instances)
    requires Inv(s) && d in s.definitions && def.household == s.definitions[d].household
    requires instances.Keys == s.instances.Keys
    requires forall id :: id in instances ==>
               || instances[id] == s.instances[id]
               || (s.instances[id].status == Pending && instances[id] == s.instances[id].(status := Cancelled))
    requires def.active || forall id :: id in instances && instances[id].definition == Some(d) ==>
        instances[id].status != Pending
    requires def.active ==> s.definitions[d].active
    ensures Inv(s.(definitions := s.definitions[d := def], instances := instances))
  {
    hide MembershipsOk, AdminsOk, PairsUnique, LedgerOk, InvitesOk, PointersOk, Below, ActiveIn;
    assert s.definitions[d := def].Keys == s.definitions.Keys;
    PairsRewritten(s.instances, instances);
    AwardsUntouched(s.ledger, s.instances, instances);
  }

  lemma UpdateDefinitionKeepsInv(s: DB, actor: Id, h: Id, d: Id, edit: Edit)
    requires Inv(s)
    ensures Inv(UpdateDefinition(s, actor, h, d, edit).0)
  {
    hide Inv;
    var (s', outcome) := UpdateDefinition(s, actor, h, d, edit);
    if outcome == Done {
      DefinitionRewritten(s, d, s'.definitions[d], s.instances);
      assert s' == s.(definitions := s.definitions[d := s'.definitions[d]], instances := s.instances);
    }
  }

  lemma DeleteDefinitionKeepsInv(s: DB, actor: Id, h: Id, d: Id)
    requires Inv(s)
    ensures Inv(DeleteDefinition(s, actor, h, d).0)
  {
    hide Inv;
    var (s', outcome) := DeleteDefinition(s, actor, h, d);
    if outcome == Done {
      DefinitionRewritten(s, d, s.definitions[d].(active := false), s'.instances);
    }
  }

  // ---------------------------------------------------------------------------
  // Households and invites
  // ---------------------------------------------------------------------------

  lemma RegisterKeepsInv(s: DB)
    requires Inv(s)
    ensures Inv(Register(s))
  {
    hide MembershipsOk, AdminsOk, DefinitionsOk, PairsUnique, Served, LedgerOk, InvitesOk, PointersOk, Below;
    BelowNext(s.users, s.nextId);
    BelowNext(s.households.Keys, s.nextId);
    BelowNext(s.definitions.Keys, s.nextId);
    BelowNext(s.instances.Keys, s.nextId);
    BelowNext(s.invites.Keys, s.nextId);
    MoreUsers(s.memberships, s.users, s.users + {s.nextId}, s.households.Keys);
  }

  lemma CreateHouseholdKeepsInv(s: DB, actor: Id, name: string, now: Time)
    requires Inv(s)
    ensures Inv(CreateHousehold(s, actor, name, now).0)
  {
    hide MembershipsOk, PairsUnique, Served, LedgerOk, Below, ShapeOk, HasAdmin;
    if actor in s.users {
      var h := s.nextId;
      var s' := CreateHousehold(s, actor, name, now).0;
      var m := Membership(h, actor, Admin, now, true);
      BelowNext(s.users, h);
      BelowNext(s.households.Keys, h);
      BelowNext(s.definitions.Keys, h);
      BelowNext(s.instances.Keys, h);
      BelowNext(s.invites.Keys, h);
      assert s'.households.Keys == s.households.Keys + {h};
      ActiveAfterAppend(s.memberships, m);
      FirstInHousehold(s.memberships, m, s.users, s.households.Keys);
      MembershipAppended(s.memberships, m, s.users, s.households.Keys, s'.households.Keys);
      ServedStays(s.instances, s.memberships, s'.memberships, 0, {});
    }
  }

  lemma FirstInHousehold(ms: seq<Membership>, m: Membership, users: set<Id>, households: set<Id>)
    requires MembershipsOk(ms, users, households) && m.household !in households
    ensures forall i :: 0 <= i < |ms| ==> InOrder(ms[i], m)
  {
  }

  lemma InvitesChanged(s: DB, invites: Invites, nextId: Id)
    requires Inv(s) && InvitesOk(invites, s.households.Keys)
    requires || (nextId == s.nextId && invites.Keys == s.invites.Keys)
             || (nextId == s.nextId + 1 && invites.Keys == s.invites.Keys + {s.nextId})
    ensures Inv(s.(invites := invites, nextId := nextId))
  {
    hide MembershipsOk, AdminsOk, DefinitionsOk, InstancesOk, PairsUnique, Served, LedgerOk, InvitesOk, PointersOk;
    hide Below;
    BelowNext(s.users, s.nextId);
    BelowNext(s.households.Keys, s.nextId);
    BelowNext(s.definitions.Keys, s.nextId);
    BelowNext(s.instances.Keys, s.nextId);
    BelowNext(s.invites.Keys, s.nextId);
  }

  lemma CreateInviteKeepsInv(s: DB, actor: Id, h: Id, now: Time)
    requires Inv(s)
    ensures Inv(CreateInvite(s, actor, h, now).0)
  {
    var (s', outcome) := CreateInvite(s, actor, h, now);
    if outcome == Done {
      MemberHouseholdExists(s, h, actor);
      assert InvitesOk(s.invites, s.households.Keys);
      hide Inv;
      assert s'.invites.Keys == s.invites.Keys + {s.nextId};
      InvitesChanged(s, s'.invites, s'.nextId);
    }
  }

  lemma RevokeInviteKeepsInv(s: DB, actor: Id, h: Id, token: Id, now: Time)
    requires Inv(s)
    ensures Inv(RevokeInvite(s, actor, h, token, now).0)
  {
    var (s', outcome) := RevokeInvite(s, actor, h, token, now);
    if outcome == Done {
      assert InvitesOk(s.invites, s.households.Keys);
      hide Inv;
      assert s'.invites.Keys == s.invites.Keys;
      InvitesChanged(s, s'.invites, s'.nextId);
      assert s' == s.(invites := s'.invites, nextId := s'.nextId);
    }
  }

  /** The server's clock has passed the joining time of everybody in `h`. */
  ghost predicate JoinsLast(ms: seq<Membership>, h: Id, now: Time) {
    forall i :: 0 <= i < |ms| && ms[i].household == h ==> ms[i].joinedAt < now
  }

  lemma AcceptInviteKeepsInv(s: DB, actor: Id, token: Id, now: Time)
    requires Inv(s) && (token in s.invites ==> JoinsLast(s.memberships, s.invites[token].household, now))
    ensures Inv(AcceptInvite(s, actor, token, now).0)
  {
    hide MembershipsOk, DefinitionsOk, InstancesOk, PairsUnique, Served, LedgerOk, PointersOk, Below, HasAdmin;
    var (s', outcome) := AcceptInvite(s, actor, token, now);
    if outcome == Done {
      var m := Membership(s.invites[token].household, actor, Member, now, true);
      assert s'.invites.Keys == s.invites.Keys;
      ActiveAfterAppend(s.memberships, m);
      forall i | 0 <= i < |s.memberships| ensures InOrder(s.memberships[i], m) {
        assert !IsActive(s.memberships[i], m.household, actor);
      }
      MembershipAppended(s.memberships, m, s.users, s.households.Keys, s.households.Keys);
      ServedStays(s.instances, s.memberships, s'.memberships, 0, {});
    }
  }

  lemma UpdateRoleKeepsInv(s: DB, actor: Id, h: Id, target: Id, role: Role)
    requires Inv(s)
    ensures Inv(UpdateRole(s, actor, h, target, role).0)
  {
    hide MembershipsOk, AdminsOk, DefinitionsOk, InstancesOk, PairsUnique, Served, LedgerOk, InvitesOk, PointersOk;
    hide Below;
    var (s', outcome) := UpdateRole(s, actor, h, target, role);
    if outcome == Done {
      MembershipsRewritten(s.memberships, s'.memberships, s.users, s.households.Keys);
      if role == Member {
        CallerKeepsAdmin(s, actor, h, target);
      }
      RoleChangeKeepsAdmins(s.memberships, h, target, role, s.households.Keys);
      RoleChangeKeepsActive(s.memberships, h, target, role);
      ServedStays(s.instances, s.memberships, s'.memberships, 0, {});
    }
  }

  /** An admin acting on somebody else stays; one acting on themselves passed the sole-admin guard. */
  lemma CallerKeepsAdmin(s: DB, actor: Id, h: Id, target: Id)
    requires Inv(s) && RequireAdmin(s, actor, h) == Done
    requires target == actor ==> 2 <= CountAdmins(s.memberships, h)
    ensures AdminBesides(s.memberships, h, target)
  {
    hide MembershipsOk, AdminsOk, DefinitionsOk, InstancesOk, PairsUnique, Served, LedgerOk, InvitesOk, PointersOk;
    hide Below;
    var ms := s.memberships;
    if target == actor {
      var i := AnotherAdmin(ms, s.users, s.households.Keys, h, target);
    } else {
      var i :| 0 <= i < |ms| && IsActive(ms[i], h, actor) && ms[i].role == Admin;
      assert ActiveAdmins(h)(ms[i]);
    }
  }

  // ---------------------------------------------------------------------------
  // Leaving
  // ---------------------------------------------------------------------------

  lemma DeactivationKeepsInv(s: DB, hs: set<Id>, u: Id)
    requires Inv(s)
    requires forall h :: h in hs && h in s.households ==> AdminBesides(s.memberships, h, u)
    ensures InvWhile(s.(memberships := Deactivated(s.memberships, hs, u)), u, hs)
    ensures forall h :: h in hs ==> !ActiveIn(Deactivated(s.memberships, hs, u), h, u)
  {
    NobodyLeaving(s, u);
    hide MembershipsOk, AdminsOk, DefinitionsOk, InstancesOk, PairsUnique, Served, LedgerOk, InvitesOk, PointersOk;
    hide Below, ActiveIn, AdminBesides;
    var ms' := Deactivated(s.memberships, hs, u);
    MembershipsRewritten(s.memberships, ms', s.users, s.households.Keys);
    DeactivationKeepsAdmins(s.memberships, hs, u, s.households.Keys);
    DeactivationKeepsActive(s.memberships, hs, u);
    ServedStays(s.instances, s.memberships, ms', u, hs);
  }

  /** With an admin left, the other active members are all the active members once `u` is inactive. */
  lemma OthersAreRoster(ms: seq<Membership>, h: Id, u: Id)
    requires !ActiveIn(ms, h, u)
    ensures Filter(ms, ActiveOthers(h, u)) == Filter(ms, ActiveMembers(h))
  {
    forall i | 0 <= i < |ms| ensures ActiveOthers(h, u)(ms[i]) == ActiveMembers(h)(ms[i]) {
      assert !IsActive(ms[i], h, u);
    }
    SameTest(ms, ActiveOthers(h, u), ActiveMembers(h));
  }

  lemma {:induction false} SameTest(ms: seq<Membership>, p: Membership -> bool, q: Membership -> bool)
    requires forall i :: 0 <= i < |ms| ==> p(ms[i]) == q(ms[i])
    ensures Filter(ms, p) == Filter(ms, q)
  {
    if ms != [] {
      SameTest(ms[..|ms| - 1], p, q);
    }
  }

  lemma HandOverDeals(s: DB, h: Id, u: Id, rows: seq<Id>)
    requires h in s.households && HasAdmin(s.memberships, h) && !ActiveIn(s.memberships, h, u)
    ensures var roster, P := Roster(s.memberships, h), s.households[h].pointer;
            && roster != []
            && |Filter(s.memberships, ActiveOthers(h, u))| == |roster|
            && HandOver(s, h, u, rows) == (Deal(rows, roster, P), WithPointer(s, h, Some(P + |rows|)))
  {
    OthersAreRoster(s.memberships, h, u);
    HasAdminIffCounted(s.memberships, h);
    hide Filter, Deal, HasAdmin, ActiveIn, BulkAssign, WithPointer;
    var roster, P := Roster(s.memberships, h), s.households[h].pointer;
    if rows == [] {
      PointerRewritten(s, h);
      assert Deal(rows, roster, P) == map[] by {
        NothingDealt(roster, P);
      }
    } else {
      BulkAssignDeals(s, rows, h);
    }
  }

  lemma NothingDealt(roster: seq<Id>, P: int)
    requires roster != []
    ensures Deal([], roster, P) == map[]
  {
  }

  lemma PointerRewritten(s: DB, h: Id)
    requires h in s.households
    ensures WithPointer(s, h, Some(s.households[h].pointer)) == s
  {
    assert s.households[h := s.households[h].(pointer := s.households[h].pointer)] == s.households;
  }

  lemma BulkAssignDeals(s: DB, ids: seq<Id>, h: Id)
    requires ids != [] && h in s.households && Roster(s.memberships, h) != []
    ensures var roster, P := Roster(s.memberships, h), s.households[h].pointer;
            BulkAssign(s, ids, h) == (Deal(ids, roster, P), WithPointer(s, h, Some(P + |ids|)))
  {
    hide Roster, Deal, WithPointer;
  }

  /** The pointer after redistributing k chores: P + k, less one when the leaver stood before P mod n. */
  function PointerAfter(P: int, k: nat, n: nat, index: Option<int>): int {
    P + k - if index.Some? && index.value < P % (n + 1) then 1 else 0
  }

  /**
   What redistribution does in a consistent state: the rows are dealt to the
   remaining members from the old pointer on, and the pointer ends corrected.
   */
  lemma RedistributionEffect(s: DB, h: Id, u: Id, rows: seq<Id>)
    requires h in s.households && HasAdmin(s.memberships, h) && !ActiveIn(s.memberships, h, u)
    requires 0 <= s.households[h].pointer
    ensures var roster, P := Roster(s.memberships, h), s.households[h].pointer;
            && roster != []
            && Redistributed(s, h, u, rows)
               == WithPointer(s.(instances := WithAssignees(s.instances, Deal(rows, roster, P))), h,
                              Some(PointerAfter(P, |rows|, |roster|, RemovedIndex(s, h, u))))
            && 0 <= PointerAfter(P, |rows|, |roster|, RemovedIndex(s, h, u))
  {
    hide *;
    HandOverDeals(s, h, u, rows);
    var roster, P := Roster(s.memberships, h), s.households[h].pointer;
    var after := WithAssignees(s.instances, Deal(rows, roster, P));
    var now := WithPointer(s.(instances := after), h, Some(P + |rows|));
    RedistributedInTwoSteps(s, h, u, rows, Deal(rows, roster, P), P + |rows|);
    PointerWritten(s.(instances := after), h, P + |rows|);
    CorrectionEffect(s, now, h, u, |rows|, |roster|);
    PointerWrittenTwice(s, h, after, P + |rows|, PointerAfter(P, |rows|, |roster|, RemovedIndex(s, h, u)));
    RemovedIndexIsNatural(s, h, u);
    CorrectionIsExact(P, |rows|, |roster|, RemovedIndex(s, h, u));
  }

  lemma RedistributedInTwoSteps(s: DB, h: Id, u: Id, rows: seq<Id>, dealt: Assignments, p: int)
    requires h in s.households && HandOver(s, h, u, rows) == (dealt, WithPointer(s, h, Some(p)))
    ensures Redistributed(s, h, u, rows)
         == Corrected(s, WithPointer(s.(instances := WithAssignees(s.instances, dealt)), h, Some(p)), h, u)
  {
    hide HandOver, WithPointer, WithAssignees, Corrected;
    PointerWritten(s, h, p);
    PointerWrittenTwice(s, h, WithAssignees(s.instances, dealt), p, p);
  }

  lemma CorrectionEffect(before: DB, now: DB, h: Id, u: Id, k: nat, n: nat)
    requires h in before.households && h in now.households && 0 <= before.households[h].pointer
    requires now.households[h].pointer == before.households[h].pointer + k
    requires |Filter(before.memberships, ActiveOthers(h, u))| == n
    ensures Corrected(before, now, h, u)
         == WithPointer(now, h, Some(PointerAfter(before.households[h].pointer, k, n, RemovedIndex(before, h, u))))
  {
    hide RemovedIndex, Filter, WithPointer, PointerAfter, CorrectedPointer;
    RemovedIndexIsNatural(before, h, u);
    CorrectionIsExact(before.households[h].pointer, k, n, RemovedIndex(before, h, u));
    if RemovedIndex(before, h, u).None? {
      PointerRewritten(now, h);
    }
  }

  lemma RemovedIndexIsNatural(s: DB, h: Id, u: Id)
    ensures var index := RemovedIndex(s, h, u); index.Some? ==> 0 <= index.value
  {
  }

  lemma CorrectionIsExact(P: int, k: nat, n: nat, index: Option<int>)
    requires 0 <= P && (index.Some? ==> 0 <= index.value)
    ensures 0 <= PointerAfter(P, k, n, index)
    ensures if index.Some? then CorrectedPointer(P, P + k, n + 1, index.value) == PointerAfter(P, k, n, index)
            else P + k == PointerAfter(P, k, n, index)
  {
    PointerStaysNatural(P, n + 1);
    if index.Some? {
      ClampNeverBinds(P, P + k, n + 1, index.value);
    }
  }

  lemma PointerWrittenTwice(s: DB, h: Id, instances: Instances, p: int, q: int)
    requires h in s.households
    ensures WithPointer(s, h, Some(p)).(instances := instances) == WithPointer(s.(instances := instances), h, Some(p))
    ensures WithPointer(WithPointer(s.(instances := instances), h, Some(p)), h, Some(q))
         == WithPointer(s.(instances := instances), h, Some(q))
  {
    var once := WithPointer(s, h, Some(p));
    assert once.households[h := once.households[h].(pointer := q)]
        == s.households[h := s.households[h].(pointer := q)];
  }

  lemma RedistributionKeepsInv(s: DB, h: Id, u: Id, rows: seq<Id>, pending: set<Id>)
    requires InvWhile(s, u, pending) && h in s.households && !ActiveIn(s.memberships, h, u)
    requires Enumerates(rows, OpenChores(s.instances, h, u))
    ensures InvWhile(Redistributed(s, h, u, rows), u, pending - {h})
  {
    hide MembershipsOk, PairsUnique, LedgerOk, InvitesOk, Below, Roster, HasAdmin, Redistributed, RemovedIndex;
    hide PointerAfter, DefinitionsOk;
    var roster, P := Roster(s.memberships, h), s.households[h].pointer;
    RedistributionEffect(s, h, u, rows);
    var after := WithAssignees(s.instances, Deal(rows, roster, P));
    HandOverReachesMembers(s.instances, s.memberships, h, u, rows, P);
    hide Deal, Enumerates, OpenChores;
    ServedAfterHandOver(s.instances, s.memberships, h, u, rows, pending, after);
    hide Served, InstancesOk, ActiveIn;
    HandedOverRowsAreOk(s, h, u, rows, after);
    PairsRewritten(s.instances, after);
    AwardsUntouched(s.ledger, s.instances, after);
    PointerMoves(s.(instances := after), h,
                 Some(PointerAfter(P, |rows|, |roster|, RemovedIndex(s, h, u))), u, pending - {h});
  }

  lemma HandedOverRowsAreOk(s: DB, h: Id, u: Id, rows: seq<Id>, after: Instances)
    requires InstancesOk(s.instances, s.definitions, s.users, s.households.Keys)
    requires MembershipsOk(s.memberships, s.users, s.households.Keys)
    requires after.Keys == s.instances.Keys
    requires forall id :: id in after && id !in rows ==> after[id] == s.instances[id]
    requires forall id :: id in rows ==>
               && id in after && IsOpenChore(s.instances[id], h, u)
               && after[id] == s.instances[id].(assignee := after[id].assignee)
               && after[id].assignee.Some? && ActiveIn(s.memberships, h, after[id].assignee.value)
    ensures InstancesOk(after, s.definitions, s.users, s.households.Keys)
  {
    hide MembershipsOk, ActiveIn;
    forall id | id in after ensures InstanceOk(after[id], s.definitions, s.users, s.households.Keys) {
      if id in rows {
        ActiveMembersAreUsers(s.memberships, s.users, s.households.Keys, h, after[id].assignee.value);
      }
    }
  }

  lemma HandOverReachesMembers(instances: Instances, ms: seq<Membership>, h: Id, u: Id, rows: seq<Id>, P: int)
    requires Roster(ms, h) != []
    requires Enumerates(rows, OpenChores(instances, h, u))
    ensures var after := WithAssignees(instances, Deal(rows, Roster(ms, h), P));
            && (forall id :: id in after && id !in rows ==> after[id] == instances[id])
            && (forall id :: id in rows ==>
                  && id in after && IsOpenChore(instances[id], h, u)
                  && after[id] == instances[id].(assignee := after[id].assignee)
                  && after[id].assignee.Some? && ActiveIn(ms, h, after[id].assignee.value))
  {
    DealKeys(rows, Roster(ms, h), P);
    RosterIsActiveMembers(ms, h);
    forall id | id in rows ensures id in instances && IsOpenChore(instances[id], h, u) {
      assert id in OpenChores(instances, h, u);
    }
  }

  lemma PointerStaysNatural(P: int, n: int)
    requires 0 <= P && 0 < n
    ensures 0 < P % n ==> 1 <= P
  {
    if P == 0 {
      SmallRemainder(0, n);
    }
  }

  lemma ServedAfterHandOver(
    instances: Instances, ms: seq<Membership>, h: Id, u: Id, rows: seq<Id>, pending: set<Id>, after: Instances)
    requires Served(instances, ms, u, pending) && after.Keys == instances.Keys
    requires Enumerates(rows, OpenChores(instances, h, u))
    requires forall id :: id in after && id !in rows ==> after[id] == instances[id]
    requires forall id :: id in rows ==>
               && id in after && after[id].assignee.Some? && after[id].household == h
               && ActiveIn(ms, h, after[id].assignee.value)
    ensures Served(after, ms, u, pending - {h})
  {
    hide ActiveIn;
    forall id | id in after && after[id].status in {Pending, Overdue} && id !in rows
      ensures after[id].assignee.Some?
      ensures ActiveIn(ms, after[id].household, after[id].assignee.value)
              || (after[id].assignee.value == u && after[id].household in pending - {h})
    {
      assert id !in OpenChores(instances, h, u);
    }
  }

  /** Leaving a household in which another admin stays. */
  lemma MemberLeavesKeepsInv(s: DB, h: Id, u: Id, rows: seq<Id>)
    requires Inv(s) && h in s.households && AdminBesides(s.memberships, h, u)
    requires Enumerates(rows, OpenChores(s.instances, h, u))
    ensures Inv(MemberLeaves(s, h, u, rows))
  {
    DeactivationKeepsInv(s, {h}, u);
    var s1 := s.(memberships := Deactivated(s.memberships, {h}, u));
    RedistributionKeepsInv(s1, h, u, rows, {h});
    assert {h} - {h} == {};
    NobodyLeaving(MemberLeaves(s, h, u, rows), u);
  }

  lemma RemoveMemberKeepsInv(s: DB, actor: Id, h: Id, target: Id, rows: seq<Id>)
    requires Inv(s) && Enumerates(rows, OpenChores(s.instances, h, target))
    ensures Inv(RemoveMember(s, actor, h, target, rows).0)
  {
    hide Inv, MemberLeaves, AdminBesides;
    if RemoveMember(s, actor, h, target, rows).1 == Done {
      CallerKeepsAdmin(s, actor, h, target);
      MemberHouseholdExists(s, h, target);
      MemberLeavesKeepsInv(s, h, target, rows);
    }
  }

  lemma LeaveKeepsInv(s: DB, actor: Id, h: Id, rows: seq<Id>)
    requires Inv(s) && Enumerates(rows, OpenChores(s.instances, h, actor))
    ensures Inv(Leave(s, actor, h, rows).0)
  {
    hide Inv, MemberLeaves, AdminBesides, AdminIn, ActiveIn;
    if Leave(s, actor, h, rows).1 == Done {
      MemberHouseholdExists(s, h, actor);
      LeaverLeavesAdmin(s, h, actor);
      MemberLeavesKeepsInv(s, h, actor, rows);
    }
  }

  lemma LeaverLeavesAdmin(s: DB, h: Id, u: Id)
    requires Inv(s) && h in s.households
    requires AdminIn(s.memberships, h, u) ==> 2 <= CountAdmins(s.memberships, h)
    ensures AdminBesides(s.memberships, h, u)
  {
    hide MembershipsOk, DefinitionsOk, InstancesOk, PairsUnique, Served, LedgerOk, InvitesOk, PointersOk, Below;
    var ms := s.memberships;
    if AdminIn(ms, h, u) {
      var i := AnotherAdmin(ms, s.users, s.households.Keys, h, u);
    } else {
      assert HasAdmin(ms, h);
      var i :| 0 <= i < |ms| && ActiveAdmins(h)(ms[i]);
      assert IsActive(ms[i], h, ms[i].user);
    }
  }
}
