/** Deleting households and accounts keeps the invariant. */
module Deletion {
  import opened Types
  import opened Filtering
  import opened Rotation
  import opened Schema
  import opened Endpoints
  import opened Invariants
  import opened Tables
  import opened Preservation

  // ---------------------------------------------------------------------------
  // Filtered tables
  // ---------------------------------------------------------------------------

  lemma MembershipsFiltered(
    ms: seq<Membership>, p: Membership -> bool,
    users: set<Id>, households: set<Id>, users': set<Id>, households': set<Id>)
    requires MembershipsOk(ms, users, households)
    requires forall i :: 0 <= i < |ms| && p(ms[i]) ==> ms[i].household in households' && ms[i].user in users'
    ensures MembershipsOk(Filter(ms, p), users', households')
  {
    var kept := Filter(ms, p);
    forall k | 0 <= k < |kept| ensures kept[k].household in households' && kept[k].user in users' {
      assert ms[Source(ms, p, k)] == kept[k];
    }
    forall j, k | 0 <= j < k < |kept| ensures InOrder(kept[j], kept[k]) {
      SourceIncreases(ms, p, j, k);
      assert InOrder(ms[Source(ms, p, j)], ms[Source(ms, p, k)]);
    }
  }

  lemma FilterKeepsRow(ms: seq<Membership>, p: Membership -> bool, i: nat) returns (k: nat)
    requires i < |ms| && p(ms[i])
    ensures k < |Filter(ms, p)| && Filter(ms, p)[k] == ms[i]
  {
    FilterMembers(ms, p);
    assert ms[i] in Filter(ms, p);
    k :| k < |Filter(ms, p)| && Filter(ms, p)[k] == ms[i];
  }

  lemma FilterKeepsActive(ms: seq<Membership>, p: Membership -> bool, h: Id, v: Id)
    requires forall i :: 0 <= i < |ms| && IsActive(ms[i], h, v) ==> p(ms[i])
    ensures ActiveIn(Filter(ms, p), h, v) <==> ActiveIn(ms, h, v)
  {
    var kept := Filter(ms, p);
    if ActiveIn(ms, h, v) {
      var i :| 0 <= i < |ms| && IsActive(ms[i], h, v);
      var k := FilterKeepsRow(ms, p, i);
      assert IsActive(kept[k], h, v);
    }
    if ActiveIn(kept, h, v) {
      var k :| 0 <= k < |kept| && IsActive(kept[k], h, v);
      assert IsActive(ms[Source(ms, p, k)], h, v);
    }
  }

  lemma FilterKeepsAdmin(ms: seq<Membership>, p: Membership -> bool, h: Id)
    requires HasAdmin(ms, h)
    requires forall i :: 0 <= i < |ms| && ActiveAdmins(h)(ms[i]) ==> p(ms[i])
    ensures HasAdmin(Filter(ms, p), h)
  {
    var i :| 0 <= i < |ms| && ActiveAdmins(h)(ms[i]);
    var k := FilterKeepsRow(ms, p, i);
    assert ActiveAdmins(h)(Filter(ms, p)[k]);
  }

  /** Keeping the rows of the awards that remain. */
  lemma LedgerFiltered(ledger: seq<LedgerRow>, p: LedgerRow -> bool, before: Instances, after: Instances)
    requires LedgerOk(ledger, before)
    requires forall i :: 0 <= i < |ledger| && p(ledger[i]) ==>
               ledger[i].instance.value in after && after[ledger[i].instance.value] == before[ledger[i].instance.value]
    requires forall id :: id in after && IsAwarded(after[id]) ==> id in before && after[id] == before[id]
    requires forall i :: 0 <= i < |ledger| && !p(ledger[i]) ==>
               ledger[i].instance.value in after ==> !IsAwarded(after[ledger[i].instance.value])
    ensures LedgerOk(Filter(ledger, p), after)
  {
    var kept := Filter(ledger, p);
    forall j, k | 0 <= j < k < |kept| ensures !SameInstance(kept[j], kept[k]) {
      SourceIncreases(ledger, p, j, k);
      assert !SameInstance(ledger[Source(ledger, p, j)], ledger[Source(ledger, p, k)]);
    }
    forall k | 0 <= k < |kept|
      ensures kept[k].instance.Some? && kept[k].instance.value in after
          && Records(kept[k], after[kept[k].instance.value])
    {
      assert ledger[Source(ledger, p, k)] == kept[k];
    }
    FilterMembers(ledger, p);
    forall id | id in after && IsAwarded(after[id]) ensures HasRow(kept, id) {
      assert HasRow(ledger, id);
      var i :| 0 <= i < |ledger| && ledger[i].instance == Some(id);
      assert ledger[i] in kept;
      var k :| 0 <= k < |kept| && kept[k] == ledger[i];
    }
  }

  // ---------------------------------------------------------------------------
  // Households
  // ---------------------------------------------------------------------------

  function InstancesOutside(instances: Instances, hs: set<Id>): Instances {
    map id | id in instances && instances[id].household !in hs :: instances[id]
  }

  function DefinitionsOutside(definitions: Definitions, hs: set<Id>): Definitions {
    map d | d in definitions && definitions[d].household !in hs :: definitions[d]
  }

  /** No surviving row referred to a deleted one, so the SET NULL rules never fire. */
  lemma CascadeLeavesNoDanglingRows(s: DB, hs: set<Id>)
    requires Inv(s)
    ensures DeleteHouseholds(s, hs).instances == InstancesOutside(s.instances, hs)
    ensures DeleteHouseholds(s, hs).definitions == DefinitionsOutside(s.definitions, hs)
    ensures DeleteHouseholds(s, hs).ledger == Filter(s.ledger, LedgerOutside(hs))
  {
    hide MembershipsOk, AdminsOk, DefinitionsOk, PairsUnique, Served, InvitesOk, PointersOk, Below;
    var s' := DeleteHouseholds(s, hs);
    assert s'.instances == InstancesOutside(s.instances, hs);
    var kept := Filter(s.ledger, LedgerOutside(hs));
    forall k | 0 <= k < |kept|
      ensures kept[k].instance.Some? && kept[k].instance.value in s'.instances
    {
      assert s.ledger[Source(s.ledger, LedgerOutside(hs), k)] == kept[k];
    }
  }

  lemma DeleteHouseholdsMemberships(s: DB, hs: set<Id>)
    requires Inv(s)
    ensures var s' := DeleteHouseholds(s, hs);
            && MembershipsOk(s'.memberships, s'.users, s'.households.Keys)
            && AdminsOk(s'.memberships, s'.households.Keys)
            && PointersOk(s'.households)
            && (forall h, v :: h !in hs ==> (ActiveIn(s'.memberships, h, v) <==> ActiveIn(s.memberships, h, v)))
  {
    hide DefinitionsOk, InstancesOk, PairsUnique, Served, InvitesOk, Below, LedgerOk;
    var s' := DeleteHouseholds(s, hs);
    MembershipsFiltered(s.memberships, OutsideHouseholds(hs), s.users, s.households.Keys, s.users, s'.households.Keys);
    forall h | h in s'.households ensures HasAdmin(s'.memberships, h) {
      FilterKeepsAdmin(s.memberships, OutsideHouseholds(hs), h);
    }
    forall h, v | h !in hs ensures ActiveIn(s'.memberships, h, v) <==> ActiveIn(s.memberships, h, v) {
      FilterKeepsActive(s.memberships, OutsideHouseholds(hs), h, v);
    }
  }

  lemma DeleteHouseholdsLedger(s: DB, hs: set<Id>)
    requires Inv(s)
    ensures LedgerOk(Filter(s.ledger, LedgerOutside(hs)), InstancesOutside(s.instances, hs))
  {
    hide MembershipsOk, AdminsOk, DefinitionsOk, InstancesOk, PairsUnique, Served, InvitesOk, PointersOk, Below;
    LedgerFiltered(s.ledger, LedgerOutside(hs), s.instances, InstancesOutside(s.instances, hs));
  }

  lemma DeleteHouseholdsKeepsInv(s: DB, hs: set<Id>)
    requires Inv(s)
    ensures Inv(DeleteHouseholds(s, hs))
  {
    hide MembershipsOk, AdminsOk, PairsUnique, PointersOk, LedgerOk, ActiveIn, ShapeOk;
    var s' := DeleteHouseholds(s, hs);
    CascadeLeavesNoDanglingRows(s, hs);
    DeleteHouseholdsMemberships(s, hs);
    DeleteHouseholdsLedger(s, hs);
    PairsDeleted(s.instances, s'.instances);
  }

  // ---------------------------------------------------------------------------
  // Users
  // ---------------------------------------------------------------------------

  ghost predicate GoneEverywhere(ms: seq<Membership>, u: Id) {
    forall h :: !ActiveIn(ms, h, u)
  }

  lemma DeleteUserMemberships(s: DB, u: Id)
    requires Inv(s) && GoneEverywhere(s.memberships, u)
    ensures var s' := DeleteUser(s, u);
            && MembershipsOk(s'.memberships, s'.users, s'.households.Keys)
            && AdminsOk(s'.memberships, s'.households.Keys)
            && (forall h, v :: v != u ==> (ActiveIn(s'.memberships, h, v) <==> ActiveIn(s.memberships, h, v)))
  {
    hide DefinitionsOk, InstancesOk, PairsUnique, Served, InvitesOk, PointersOk, Below, LedgerOk;
    var s' := DeleteUser(s, u);
    MembershipsFiltered(s.memberships, OfOtherUsers(u), s.users, s.households.Keys, s'.users, s.households.Keys);
    forall h | h in s.households ensures HasAdmin(s'.memberships, h) {
      forall i | 0 <= i < |s.memberships| && ActiveAdmins(h)(s.memberships[i]) ensures s.memberships[i].user != u {
        assert !ActiveIn(s.memberships, h, u);
        assert !IsActive(s.memberships[i], h, u);
      }
      FilterKeepsAdmin(s.memberships, OfOtherUsers(u), h);
    }
    forall h, v | v != u ensures ActiveIn(s'.memberships, h, v) <==> ActiveIn(s.memberships, h, v) {
      FilterKeepsActive(s.memberships, OfOtherUsers(u), h, v);
    }
  }

  lemma DeleteUserLedger(s: DB, u: Id)
    requires Inv(s)
    ensures LedgerOk(DeleteUser(s, u).ledger, DeleteUser(s, u).instances)
  {
    hide MembershipsOk, AdminsOk, DefinitionsOk, InstancesOk, PairsUnique, Served, InvitesOk, PointersOk, Below;
    LedgerFiltered(s.ledger, LedgerOfOthers(u), s.instances, DeleteUser(s, u).instances);
  }

  lemma DeleteUserKeepsInv(s: DB, u: Id)
    requires Inv(s) && GoneEverywhere(s.memberships, u)
    ensures Inv(DeleteUser(s, u))
  {
    hide MembershipsOk, AdminsOk, PairsUnique, PointersOk, LedgerOk, ActiveIn, InvitesOk;
    var s' := DeleteUser(s, u);
    DeleteUserMemberships(s, u);
    DeleteUserLedger(s, u);
    assert s'.instances.Keys == s.instances.Keys;
    PairsRewritten(s.instances, s'.instances);
    assert Served(s'.instances, s'.memberships, 0, {}) by {
      forall id | id in s'.instances && s'.instances[id].status in {Pending, Overdue}
        ensures s'.instances[id].assignee.Some?
        ensures ActiveIn(s'.memberships, s'.instances[id].household, s'.instances[id].assignee.value)
      {
        assert ActiveIn(s.memberships, s.instances[id].household, s.instances[id].assignee.value);
        assert s.instances[id].assignee.value != u;
      }
    }
  }

  // ---------------------------------------------------------------------------
  // Accounts
  // ---------------------------------------------------------------------------

  function HouseholdsOf(ms: seq<Membership>, u: Id): set<Id> {
    set i | 0 <= i < |ms| && ms[i].user == u && ms[i].active :: ms[i].household
  }

  /** `order` and `rows` are what the queries of an account deletion may return. */
  ghost predicate ReadsForDeletion(s: DB, u: Id, order: seq<Id>, rows: map<Id, seq<Id>>) {
    && Enumerates(order, HouseholdsOf(s.memberships, u))
    && forall h :: h in order && !SoleMember(s, h) ==> h in rows && Enumerates(rows[h], OpenChores(s.instances, h, u))
  }

  lemma HouseholdsOfMeans(ms: seq<Membership>, u: Id)
    ensures forall h :: h in HouseholdsOf(ms, u) <==> ActiveIn(ms, h, u)
  {
    forall h | ActiveIn(ms, h, u) ensures h in HouseholdsOf(ms, u) {
      var i :| 0 <= i < |ms| && IsActive(ms[i], h, u);
      assert ms[i].user == u && ms[i].active;
    }
    forall h | h in HouseholdsOf(ms, u) ensures ActiveIn(ms, h, u) {
      var i :| 0 <= i < |ms| && ms[i].user == u && ms[i].active && ms[i].household == h;
      assert IsActive(ms[i], h, u);
    }
  }

  /** The validate pass splits the user's existing households into those to delete and those to leave. */
  lemma {:induction false} ValidatePassSplits(s: DB, order: seq<Id>)
    requires forall i, j :: 0 <= i < j < |order| ==> order[i] != order[j]
    ensures forall h :: h in ToDelete(s, order) <==> h in order && SoleMember(s, h) && h in s.households
    ensures forall h :: h in ToLeave(s, order) <==> h in order && !SoleMember(s, h)
    ensures Distinct(ToLeave(s, order))
  {
    if order != [] {
      var front, last := order[..|order| - 1], order[|order| - 1];
      ValidatePassSplits(s, front);
      assert order == front + [last];
    }
  }

  lemma RosterHasAnother(ms: seq<Membership>, users: set<Id>, households: set<Id>, h: Id, u: Id)
    requires MembershipsOk(ms, users, households) && HasAdmin(ms, h)
    requires AdminIn(ms, h, u) ==> 2 <= CountAdmins(ms, h)
    ensures AdminBesides(ms, h, u)
  {
    if AdminIn(ms, h, u) {
      var i := AnotherAdmin(ms, users, households, h, u);
    } else {
      var i :| 0 <= i < |ms| && ActiveAdmins(h)(ms[i]);
      assert IsActive(ms[i], h, ms[i].user);
    }
  }

  lemma FilterKeepsAdminBesides(ms: seq<Membership>, hs: set<Id>, h: Id, u: Id)
    requires AdminBesides(ms, h, u) && h !in hs
    ensures AdminBesides(Filter(ms, OutsideHouseholds(hs)), h, u)
  {
    var i :| 0 <= i < |ms| && ActiveAdmins(h)(ms[i]) && ms[i].user != u;
    var k := FilterKeepsRow(ms, OutsideHouseholds(hs), i);
    assert ActiveAdmins(h)(Filter(ms, OutsideHouseholds(hs))[k]);
  }

  /** The tables after the sole-member households are gone and the other memberships are inactive. */
  function Prepared(s: DB, u: Id, order: seq<Id>): DB {
    var s1 := DeleteHouseholds(s, AsSet(ToDelete(s, order)));
    s1.(memberships := Deactivated(s1.memberships, AsSet(ToLeave(s, order)), u))
  }

  lemma PreparedKeepsInv(s: DB, u: Id, order: seq<Id>)
    requires Inv(s) && Enumerates(order, HouseholdsOf(s.memberships, u))
    requires forall h :: h in order ==> !SoleAdminAmongOthers(s, h, u)
    ensures InvWhile(Prepared(s, u, order), u, AsSet(ToLeave(s, order)))
    ensures GoneEverywhere(Prepared(s, u, order).memberships, u)
    ensures forall h :: h in ToLeave(s, order) ==> h in Prepared(s, u, order).households
  {
    hide Inv, InvWhile, SoleMember, ToDelete, ToLeave, DeleteHouseholds, AdminIn, CountAdmins, ActiveIn;
    hide AdminBesides, Filter, ReadsForDeletion;
    var doomed, left := AsSet(ToDelete(s, order)), AsSet(ToLeave(s, order));
    ValidatePassSplits(s, order);
    HouseholdsOfMeans(s.memberships, u);
    var s1 := DeleteHouseholds(s, doomed);
    DeleteHouseholdsKeepsInv(s, doomed);
    forall h | h in left ensures h in s1.households && AdminBesides(s1.memberships, h, u) {
      LeftHouseholdKeepsAdmin(s, u, h, doomed);
    }
    DeactivationKeepsInv(s1, left, u);
    GoneAfterDeactivation(s, u, order, doomed, left);
  }

  lemma LeftHouseholdKeepsAdmin(s: DB, u: Id, h: Id, doomed: set<Id>)
    requires Inv(s) && ActiveIn(s.memberships, h, u) && h !in doomed
    requires !SoleMember(s, h) && !SoleAdminAmongOthers(s, h, u)
    ensures var s1 := DeleteHouseholds(s, doomed);
            h in s1.households && AdminBesides(s1.memberships, h, u)
  {
    hide DefinitionsOk, InstancesOk, PairsUnique, Served, InvitesOk, PointersOk, Below, LedgerOk, Filter;
    hide MembershipsOk;
    MemberHouseholdExists(s, h, u);
    RosterHasAnother(s.memberships, s.users, s.households.Keys, h, u);
    FilterKeepsAdminBesides(s.memberships, doomed, h, u);
  }

  lemma GoneAfterDeactivation(s: DB, u: Id, order: seq<Id>, doomed: set<Id>, left: set<Id>)
    requires Inv(s)
    requires forall h :: h in order <==> ActiveIn(s.memberships, h, u)
    requires forall h :: h in order && h in s.households ==> h in doomed || h in left
    ensures GoneEverywhere(Deactivated(DeleteHouseholds(s, doomed).memberships, left, u), u)
  {
    hide AdminsOk, DefinitionsOk, InstancesOk, PairsUnique, Served, InvitesOk, PointersOk, Below, LedgerOk, Filter;
    var ms, p := s.memberships, OutsideHouseholds(doomed);
    var kept := Filter(ms, p);
    var ms' := Deactivated(kept, left, u);
    forall h, k | 0 <= k < |ms'| ensures !IsActive(ms'[k], h, u) {
      var row := ms[Source(ms, p, k)];
      assert row == kept[k];
      if IsActive(row, row.household, u) {
        assert ActiveIn(ms, row.household, u);
      }
    }
  }

  /** Leaving one household touches neither the memberships nor the open chores of another. */
  lemma {:induction false} LeavingIsLocal(s: DB, u: Id, hs: seq<Id>, rows: map<Id, seq<Id>>, todo: set<Id>)
    requires InvWhile(s, u, todo) && GoneEverywhere(s.memberships, u)
    requires Distinct(hs) && forall h :: h in hs ==>
               h in todo && h in s.households && h in rows && Enumerates(rows[h], OpenChores(s.instances, h, u))
    ensures var s' := LeaveEach(s, u, hs, rows);
            && InvWhile(s', u, todo - AsSet(hs))
            && s' == s.(households := s'.households, instances := s'.instances)
            && s'.households.Keys == s.households.Keys
            && s'.instances.Keys == s.instances.Keys
            && (forall h :: h !in hs ==> OpenChores(s'.instances, h, u) == OpenChores(s.instances, h, u))
  {
    hide MembershipsOk, AdminsOk, DefinitionsOk, InstancesOk, PairsUnique, Served, LedgerOk, InvitesOk, PointersOk;
    hide KeysOk;
    hide Redistributed, Enumerates, OpenChores, GoneEverywhere;
    if hs == [] {
      assert todo - AsSet(hs) == todo;
    } else {
      var front, h := hs[..|hs| - 1], hs[|hs| - 1];
      assert hs == front + [h];
      LeavingIsLocal(s, u, front, rows, todo);
      var s1 := LeaveEach(s, u, front, rows);
      StillGone(s.memberships, h, u);
      RedistributionKeepsInv(s1, h, u, rows[h], todo - AsSet(front));
      RedistributionIsLocal(s1, h, u, rows[h], todo - AsSet(front));
      assert todo - AsSet(front) - {h} == todo - AsSet(hs);
    }
  }

  lemma StillGone(ms: seq<Membership>, h: Id, u: Id)
    requires GoneEverywhere(ms, u)
    ensures !ActiveIn(ms, h, u)
  {
  }

  lemma RedistributionIsLocal(s: DB, h: Id, u: Id, rows: seq<Id>, todo: set<Id>)
    requires InvWhile(s, u, todo) && h in s.households && !ActiveIn(s.memberships, h, u)
    requires Enumerates(rows, OpenChores(s.instances, h, u))
    ensures var s' := Redistributed(s, h, u, rows);
            && s' == s.(households := s'.households, instances := s'.instances)
            && s'.households.Keys == s.households.Keys
            && s'.instances.Keys == s.instances.Keys
            && (forall x :: x != h ==> OpenChores(s'.instances, x, u) == OpenChores(s.instances, x, u))
  {
    hide MembershipsOk, DefinitionsOk, InstancesOk, PairsUnique, Served, LedgerOk, InvitesOk, KeysOk;
    hide Redistributed, HasAdmin;
    var roster, P := Roster(s.memberships, h), s.households[h].pointer;
    RedistributionEffect(s, h, u, rows);
    HandOverReachesMembers(s.instances, s.memberships, h, u, rows, P);
    var after := WithAssignees(s.instances, Deal(rows, roster, P));
    PointerWritten(s.(instances := after), h, PointerAfter(P, |rows|, |roster|, RemovedIndex(s, h, u)));
    hide Roster, Deal, WithPointer, RemovedIndex, PointerAfter, ActiveIn;
    forall x | x != h ensures OpenChores(after, x, u) == OpenChores(s.instances, x, u) {
      forall id ensures id in OpenChores(after, x, u) <==> id in OpenChores(s.instances, x, u) {
      }
    }
  }

  lemma OpenChoresSurviveCascade(s: DB, hs: set<Id>, h: Id, u: Id)
    requires Inv(s) && h !in hs
    ensures OpenChores(DeleteHouseholds(s, hs).instances, h, u) == OpenChores(s.instances, h, u)
  {
    CascadeLeavesNoDanglingRows(s, hs);
  }

  /**
   What the validate pass established still holds when the mutate pass reaches
   the i-th household to leave: it exists, the user is inactive in it, somebody
   else administers it, and the open chores are those that were read.
   */
  lemma ValidatedChecksStillHold(s: DB, u: Id, order: seq<Id>, rows: map<Id, seq<Id>>, i: nat)
    requires Inv(s) && ReadsForDeletion(s, u, order, rows)
    requires forall h :: h in order ==> !SoleAdminAmongOthers(s, h, u)
    requires i < |ToLeave(s, order)|
    ensures var h := ToLeave(s, order)[i];
            var reached := LeaveEach(Prepared(s, u, order), u, ToLeave(s, order)[..i], rows);
            && h in reached.households && HasAdmin(reached.memberships, h)
            && !ActiveIn(reached.memberships, h, u)
            && h in rows && Enumerates(rows[h], OpenChores(reached.instances, h, u))
  {
    hide SoleAdminAmongOthers, Filter, MembershipsOk, DefinitionsOk, InstancesOk, PairsUnique, Served, LedgerOk;
    hide InvitesOk, PointersOk, KeysOk, HasAdmin, ActiveIn;
    var hs := ToLeave(s, order);
    var s1 := Prepared(s, u, order);
    PreparedKeepsInv(s, u, order);
    ReadyToLeave(s, u, order, rows);
    assert hs[i] !in hs[..i];
    LeavingIsLocal(s1, u, hs[..i], rows, AsSet(hs));
    StillGone(s1.memberships, hs[i], u);
  }

  lemma ReadyToLeave(s: DB, u: Id, order: seq<Id>, rows: map<Id, seq<Id>>)
    requires Inv(s) && ReadsForDeletion(s, u, order, rows)
    ensures var hs := ToLeave(s, order);
            && Distinct(hs)
            && forall h :: h in hs ==>
                 h in AsSet(hs) && h in rows && Enumerates(rows[h], OpenChores(Prepared(s, u, order).instances, h, u))
  {
    hide Inv, Enumerates, OpenChores, DeleteHouseholds;
    ValidatePassSplits(s, order) by {
      OrderIsDistinct(s, u, order);
    }
    forall h | h in ToLeave(s, order)
      ensures h in rows && Enumerates(rows[h], OpenChores(Prepared(s, u, order).instances, h, u))
    {
      OpenChoresSurviveCascade(s, AsSet(ToDelete(s, order)), h, u);
    }
  }

  lemma OrderIsDistinct(s: DB, u: Id, order: seq<Id>)
    requires Enumerates(order, HouseholdsOf(s.memberships, u))
    ensures forall i, j :: 0 <= i < j < |order| ==> order[i] != order[j]
  {
  }

  lemma DeleteAccountKeepsInv(s: DB, actor: Id, order: seq<Id>, rows: map<Id, seq<Id>>)
    requires Inv(s) && ReadsForDeletion(s, actor, order, rows)
    ensures Inv(DeleteAccount(s, actor, order, rows).0)
  {
    hide Inv, InvWhile, Enumerates, DeleteUser, SoleAdminAmongOthers, Filter, ToDelete, DeleteHouseholds;
    hide Deactivated, OpenChores;
    if DeleteAccount(s, actor, order, rows).1 == Done {
      var hs := ToLeave(s, order);
      var s1 := Prepared(s, actor, order);
      PreparedKeepsInv(s, actor, order);
      ReadyToLeave(s, actor, order, rows);
      LeavingIsLocal(s1, actor, hs, rows, AsSet(hs));
      var s2 := LeaveEach(s1, actor, hs, rows);
      assert AsSet(hs) - AsSet(hs) == {};
      NobodyLeaving(s2, actor);
      DeleteUserKeepsInv(s2, actor);
    }
  }

  /** A successful account deletion leaves nothing that names the user. */
  lemma DeleteAccountErases(s: DB, actor: Id, order: seq<Id>, rows: map<Id, seq<Id>>)
    requires Inv(s) && ReadsForDeletion(s, actor, order, rows)
    requires DeleteAccount(s, actor, order, rows).1 == Done
    ensures var s' := DeleteAccount(s, actor, order, rows).0;
            && actor !in s'.users
            && (forall i :: 0 <= i < |s'.memberships| ==> s'.memberships[i].user != actor)
            && (forall i :: 0 <= i < |s'.ledger| ==> s'.ledger[i].user != actor)
            && (forall id :: id in s'.instances ==> s'.instances[id].assignee != Some(actor))
  {
    hide Inv, ReadsForDeletion, SoleAdminAmongOthers, LeaveEach, ToLeave, ToDelete, DeleteHouseholds, Deactivated;
    var hs := ToLeave(s, order);
    var s2 := LeaveEach(Prepared(s, actor, order), actor, hs, rows);
    var s' := DeleteAccount(s, actor, order, rows).0;
    assert s' == DeleteUser(s2, actor);
    FilterMembers(s2.memberships, OfOtherUsers(actor));
    FilterMembers(s2.ledger, LedgerOfOthers(actor));
    hide Filter;
    forall i | 0 <= i < |s'.memberships| ensures s'.memberships[i].user != actor {
      assert s'.memberships[i] in s'.memberships;
    }
    forall i | 0 <= i < |s'.ledger| ensures s'.ledger[i].user != actor {
      assert s'.ledger[i] in s'.ledger;
    }
  }
}
