/** The rotation law, fairness and locality of a member's removal, on the tables themselves. */
module Removal {
  import opened Types
  import opened Filtering
  import opened Rotation
  import opened Schema
  import opened Endpoints
  import opened Invariants
  import opened Tables
  import opened Preservation

  /** The active row of `u` in `h` is the last row they have there. */
  lemma ActiveRowIsLast(ms: seq<Membership>, users: set<Id>, households: set<Id>, h: Id, u: Id) returns (j: nat)
    requires MembershipsOk(ms, users, households) && ActiveIn(ms, h, u)
    ensures j < |ms| && IsActive(ms[j], h, u)
    ensures forall i :: 0 <= i < |ms| && RowsOf(h, u)(ms[i]) && i != j ==> i < j && !ms[i].active
  {
    j :| 0 <= j < |ms| && IsActive(ms[j], h, u);
    forall i | j < i < |ms| ensures !RowsOf(h, u)(ms[i]) {
      assert InOrder(ms[j], ms[i]);
    }
    forall i | 0 <= i < j && RowsOf(h, u)(ms[i]) ensures !ms[i].active {
      assert InOrder(ms[i], ms[j]);
    }
  }

  lemma {:induction false} LatestJoinIsOfSomeRow(ms: seq<Membership>, h: Id, u: Id)
    ensures LatestJoin(ms, h, u).Some? ==>
              exists i :: 0 <= i < |ms| && RowsOf(h, u)(ms[i]) && ms[i].joinedAt == LatestJoin(ms, h, u).value
  {
    if ms != [] {
      var n := |ms| - 1;
      LatestJoinIsOfSomeRow(ms[..n], h, u);
      if LatestJoin(ms, h, u) == LatestJoin(ms[..n], h, u) && LatestJoin(ms, h, u).Some? {
        var i :| 0 <= i < n && RowsOf(h, u)(ms[..n][i]) && ms[..n][i].joinedAt == LatestJoin(ms, h, u).value;
        assert ms[i] == ms[..n][i];
      }
    }
  }

  lemma {:induction false} LatestJoinIsLastRow(
    ms: seq<Membership>, users: set<Id>, households: set<Id>, h: Id, u: Id, j: nat)
    requires MembershipsOk(ms, users, households)
    requires j < |ms| && RowsOf(h, u)(ms[j]) && forall i :: j < i < |ms| ==> !RowsOf(h, u)(ms[i])
    ensures LatestJoin(ms, h, u) == Some(ms[j].joinedAt)
  {
    var n := |ms| - 1;
    var front := ms[..n];
    PrefixOk(ms, n, users, households);
    if j < n {
      LatestJoinIsLastRow(front, users, households, h, u, j);
    } else {
      LatestJoinIsOfSomeRow(front, h, u);
      if LatestJoin(front, h, u).Some? {
        var i :| 0 <= i < n && RowsOf(h, u)(front[i]) && front[i].joinedAt == LatestJoin(front, h, u).value;
        assert InOrder(ms[i], ms[n]);
      }
    }
  }

  lemma PrefixOk(ms: seq<Membership>, n: nat, users: set<Id>, households: set<Id>)
    requires MembershipsOk(ms, users, households) && n <= |ms|
    ensures MembershipsOk(ms[..n], users, households)
  {
    forall i, j | 0 <= i < j < n ensures InOrder(ms[..n][i], ms[..n][j]) {
      assert InOrder(ms[i], ms[j]);
    }
  }

  lemma {:induction false} FilterPrefix(ms: seq<Membership>, p: Membership -> bool, j: nat)
    requires j <= |ms| && forall i :: j <= i < |ms| ==> !p(ms[i])
    ensures Filter(ms, p) == Filter(ms[..j], p)
  {
    if j < |ms| {
      FilterPrefix(ms[..|ms| - 1], p, j);
      assert ms[..|ms| - 1][..j] == ms[..j];
    } else {
      assert ms[..j] == ms;
    }
  }

  /** Where the member stands in the rotation: the number of active members stored before their row. */
  function PlaceOf(ms: seq<Membership>, h: Id, j: nat): nat
    requires j <= |ms|
  {
    |Filter(ms[..j], ActiveMembers(h))|
  }

  lemma RosterAfterLeaving(ms: seq<Membership>, users: set<Id>, households: set<Id>, h: Id, u: Id, j: nat)
    requires MembershipsOk(ms, users, households)
    requires j < |ms| && IsActive(ms[j], h, u)
    requires forall i :: 0 <= i < |ms| && RowsOf(h, u)(ms[i]) && i != j ==> i < j && !ms[i].active
    ensures var r := PlaceOf(ms, h, j);
            && r < |Roster(ms, h)| && Roster(ms, h)[r] == u
            && Roster(Deactivated(ms, {h}, u), h) == Survivors(Roster(ms, h), r)
  {
    var ms' := Deactivated(ms, {h}, u);
    forall i | 0 <= i < |ms| && i != j ensures ms'[i] == ms[i] {
      assert RowsOf(h, u)(ms[i]) ==> !ms[i].active;
    }
    FilterDrop(ms, ms', ActiveMembers(h), j);
  }

  /** The index the code counts, after deactivation and by joining times, is the member's place. */
  lemma CountedIndexIsPlace(ms: seq<Membership>, users: set<Id>, households: set<Id>, h: Id, u: Id, j: nat)
    requires MembershipsOk(ms, users, households)
    requires j < |ms| && IsActive(ms[j], h, u)
    requires forall i :: 0 <= i < |ms| && RowsOf(h, u)(ms[i]) && i != j ==> i < j && !ms[i].active
    ensures var ms' := Deactivated(ms, {h}, u);
            && LatestJoin(ms', h, u) == Some(ms[j].joinedAt)
            && |Filter(ms', JoinedBefore(h, ms[j].joinedAt))| == PlaceOf(ms, h, j)
  {
    var ms' := Deactivated(ms, {h}, u);
    var t := ms[j].joinedAt;
    MembershipsRewritten(ms, ms', users, households);
    LatestJoinIsLastRow(ms', users, households, h, u, j);
    forall i | j <= i < |ms'| ensures !JoinedBefore(h, t)(ms'[i]) {
      if i > j {
        assert InOrder(ms[j], ms[i]);
      }
    }
    FilterPrefix(ms', JoinedBefore(h, t), j);
    forall i | 0 <= i < j
      ensures JoinedBefore(h, t)(ms'[i]) == ActiveMembers(h)(ms[i])
      ensures JoinedBefore(h, t)(ms'[i]) ==> ms'[i] == ms[i]
    {
      assert InOrder(ms[i], ms[j]);
      assert RowsOf(h, u)(ms[i]) ==> !ms[i].active;
    }
    SameSelection(ms'[..j], JoinedBefore(h, t), ms[..j], ActiveMembers(h));
  }

  lemma {:induction false} SameSelection(
    a: seq<Membership>, p: Membership -> bool, b: seq<Membership>, q: Membership -> bool)
    requires |a| == |b| && forall i :: 0 <= i < |a| ==> p(a[i]) == q(b[i])
    ensures |Filter(a, p)| == |Filter(b, q)|
  {
    if a != [] {
      SameSelection(a[..|a| - 1], p, b[..|b| - 1], q);
    }
  }

  lemma LeavingEffect(s: DB, h: Id, u: Id, rows: seq<Id>) returns (r: nat)
    requires Inv(s) && h in s.households && ActiveIn(s.memberships, h, u) && AdminBesides(s.memberships, h, u)
    requires Enumerates(rows, OpenChores(s.instances, h, u))
    ensures var roster, P := Roster(s.memberships, h), s.households[h].pointer;
            var s' := MemberLeaves(s, h, u, rows);
            && 2 <= |roster| && r < |roster| && roster[r] == u
            && |Survivors(roster, r)| == |roster| - 1
            && Roster(s'.memberships, h) == Survivors(roster, r)
            && h in s'.households
            && s'.households[h].pointer == PointerAfter(P, |rows|, |roster| - 1, Some(r))
            && s'.instances == WithAssignees(s.instances, Deal(rows, Survivors(roster, r), P))
  {
    hide *;
    var ms := s.memberships;
    var s1 := s.(memberships := Deactivated(ms, {h}, u));
    var roster, P := Roster(ms, h), s.households[h].pointer;
    r := LeaverPlace(s, h, u);
    DeactivationKeepsInv(s, {h}, u);
    AfterDeactivation(s1, h, u);
    assert h in {h};
    RedistributionEffect(s1, h, u, rows);
    var after := WithAssignees(s.instances, Deal(rows, Survivors(roster, r), P));
    PointerWritten(s1.(instances := after), h, PointerAfter(P, |rows|, |roster| - 1, Some(r)));
    LeavingInTwoSteps(s, h, u, rows);
  }

  lemma LeavingInTwoSteps(s: DB, h: Id, u: Id, rows: seq<Id>)
    ensures MemberLeaves(s, h, u, rows)
         == Redistributed(s.(memberships := Deactivated(s.memberships, {h}, u)), h, u, rows)
  {
    hide Redistributed;
  }

  /**
   What leaving does to the rotation of the household: the roster loses exactly
   the leaver's place r, the i-th open chore goes to survivor (P + i) mod (n - 1),
   and the pointer ends at P + k, less one when r < P mod n.
   */
  lemma LeavingLaw(s: DB, h: Id, u: Id, rows: seq<Id>) returns (r: nat)
    requires Inv(s) && h in s.households && ActiveIn(s.memberships, h, u) && AdminBesides(s.memberships, h, u)
    requires Enumerates(rows, OpenChores(s.instances, h, u))
    ensures var roster, P := Roster(s.memberships, h), s.households[h].pointer;
            var s' := MemberLeaves(s, h, u, rows);
            && 2 <= |roster| && r < |roster| && roster[r] == u
            && Roster(s'.memberships, h) == Survivors(roster, r)
            && h in s'.households
            && s'.households[h].pointer == P + |rows| - (if r < P % |roster| then 1 else 0)
            && (forall i :: 0 <= i < |rows| ==>
                  rows[i] in s'.instances
                  && s'.instances[rows[i]].assignee == Some(Survivors(roster, r)[(P + i) % (|roster| - 1)]))
  {
    hide *;
    RowsExist(s, h, u, rows);
    r := LeavingEffect(s, h, u, rows);
    var roster, P := Roster(s.memberships, h), s.households[h].pointer;
    PointerAfterIs(P, |rows|, |roster| - 1, r);
    DealtTo(s.instances, rows, Survivors(roster, r), P);
    var after := MemberLeaves(s, h, u, rows).instances;
    forall i | 0 <= i < |rows|
      ensures rows[i] in after && after[rows[i]].assignee == Some(Survivors(roster, r)[(P + i) % (|roster| - 1)])
    {
      TurnIs(Survivors(roster, r), P + i);
    }
  }

  lemma PointerAfterIs(P: int, k: nat, m: nat, r: nat)
    ensures PointerAfter(P, k, m, Some(r)) == P + k - if r < P % (m + 1) then 1 else 0
  {
  }

  lemma DealtTo(instances: Instances, rows: seq<Id>, survivors: seq<Id>, P: int)
    requires survivors != [] && (forall i :: 0 <= i < |rows| ==> rows[i] in instances)
    requires forall i, j :: 0 <= i < j < |rows| ==> rows[i] != rows[j]
    ensures var after := WithAssignees(instances, Deal(rows, survivors, P));
            forall i :: 0 <= i < |rows| ==>
              rows[i] in after && after[rows[i]].assignee == Some(Turn(survivors, P + i))
  {
    hide *;
    forall i | 0 <= i < |rows|
      ensures var after := WithAssignees(instances, Deal(rows, survivors, P));
              rows[i] in after && after[rows[i]].assignee == Some(Turn(survivors, P + i))
    {
      DealByLastOccurrence(rows, survivors, P, i);
      AssigneeWritten(instances, Deal(rows, survivors, P), rows[i]);
    }
  }

  lemma AssigneeWritten(instances: Instances, dealt: Assignments, id: Id)
    requires id in instances && id in dealt
    ensures id in WithAssignees(instances, dealt) && WithAssignees(instances, dealt)[id].assignee == dealt[id]
  {
  }

  lemma TurnIs(roster: seq<Id>, pointer: int)
    requires roster != []
    ensures Turn(roster, pointer) == roster[pointer % |roster|]
  {
  }

  /** The place of an active member, as the roster shows it and as the code counts it after deactivation. */
  lemma LeaverPlace(s: DB, h: Id, u: Id) returns (r: nat)
    requires Inv(s) && h in s.households && ActiveIn(s.memberships, h, u) && AdminBesides(s.memberships, h, u)
    ensures var roster := Roster(s.memberships, h);
            var ms' := Deactivated(s.memberships, {h}, u);
            && 2 <= |roster| && r < |roster| && roster[r] == u
            && Roster(ms', h) == Survivors(roster, r) && |Survivors(roster, r)| == |roster| - 1
            && RemovedIndex(s.(memberships := ms'), h, u) == Some(r)
  {
    var ms := s.memberships;
    MembershipPart(s);
    hide Inv, MembershipsOk, LatestJoin;
    var j := ActiveRowIsLast(ms, s.users, s.households.Keys, h, u);
    RosterAfterLeaving(ms, s.users, s.households.Keys, h, u, j);
    CountedIndexIsPlace(ms, s.users, s.households.Keys, h, u, j);
    r := PlaceOf(ms, h, j);
    hide Filter, PlaceOf, Deactivated, Roster;
    TwoActiveMembers(ms, h, u);
  }

  lemma TwoActiveMembers(ms: seq<Membership>, h: Id, u: Id)
    requires ActiveIn(ms, h, u) && AdminBesides(ms, h, u)
    ensures 2 <= |Roster(ms, h)|
  {
    var i :| 0 <= i < |ms| && ActiveAdmins(h)(ms[i]) && ms[i].user != u;
    assert IsActive(ms[i], h, ms[i].user);
    RosterIsActiveMembers(ms, h);
    hide Roster;
    assert u in Roster(ms, h) && ms[i].user in Roster(ms, h);
  }

  lemma MembershipPart(s: DB)
    requires Inv(s)
    ensures MembershipsOk(s.memberships, s.users, s.households.Keys) && PointersOk(s.households)
  {
  }

  lemma AfterDeactivation(s: DB, h: Id, u: Id)
    requires InvWhile(s, u, {h}) && h in s.households
    ensures HasAdmin(s.memberships, h) && 0 <= s.households[h].pointer
  {
  }

  /**
   The exact rotation law. With P = q n + e and k open chores dealt to the others,
   the next chore of the household goes to survivor number
   (e - [r < e] + q + k) mod (n - 1): the promised one exactly when n - 1 divides q + k.
   */
  lemma NextAssigneeAfterLeaving(s: DB, h: Id, u: Id, rows: seq<Id>) returns (r: nat)
    requires Inv(s) && h in s.households && ActiveIn(s.memberships, h, u) && AdminBesides(s.memberships, h, u)
    requires Enumerates(rows, OpenChores(s.instances, h, u))
    ensures var roster, P := Roster(s.memberships, h), s.households[h].pointer;
            var n, k := |roster|, |rows|;
            var next := AutoAssign(MemberLeaves(s, h, u, rows), h).0;
            && 2 <= n && r < n && roster[r] == u
            && next == Some(Survivors(roster, r)[(P % n - (if r < P % n then 1 else 0) + P / n + k) % (n - 1)])
            && (next == Some(PromisedNext(roster, P, r)) <==> (P / n + k) % (n - 1) == 0)
  {
    hide *;
    MembershipPart(s);
    var roster, P := Roster(s.memberships, h), s.households[h].pointer;
    r := LeavingEffect(s, h, u, rows);
    RosterInJoiningOrder(s.memberships, s.users, s.households.Keys, h);
    NonNegativePointer(s, h);
    NextBySurvivors(roster, P, |rows|, r);
    AssignsNext(MemberLeaves(s, h, u, rows), h);
  }

  lemma NonNegativePointer(s: DB, h: Id)
    requires Inv(s) && h in s.households
    ensures 0 <= s.households[h].pointer
  {
  }

  lemma AssignsNext(s: DB, h: Id)
    requires h in s.households && Roster(s.memberships, h) != []
    ensures AutoAssign(s, h).0 == Some(Turn(Roster(s.memberships, h), s.households[h].pointer))
  {
  }

  lemma NextBySurvivors(roster: seq<Id>, P: int, k: nat, r: nat)
    requires Distinct(roster) && 2 <= |roster| && r < |roster| && 0 <= P
    ensures var n := |roster|;
            var next := Turn(Survivors(roster, r), PointerAfter(P, k, n - 1, Some(r)));
            && next == Survivors(roster, r)[(P % n - (if r < P % n then 1 else 0) + P / n + k) % (n - 1)]
            && (next == PromisedNext(roster, P, r) <==> (P / n + k) % (n - 1) == 0)
  {
    hide Turn, Survivors, PromisedNext, Distinct;
    ClampNeverBinds(P, P + k, |roster|, r);
    RemovalLaw(roster, P, k, r);
    PromiseKeptExactlyWhen(roster, P, k, r);
  }

  /** The assignees of `rows`, in that order. */
  function AssigneesOf(instances: Instances, rows: seq<Id>): (r: seq<Option<Id>>)
    requires forall i :: 0 <= i < |rows| ==> rows[i] in instances
    ensures |r| == |rows| && forall i :: 0 <= i < |rows| ==> r[i] == instances[rows[i]].assignee
  {
    seq(|rows|, i requires 0 <= i < |rows| => instances[rows[i]].assignee)
  }

  /** The leaver's k open chores are dealt fairly: each of the m survivors gets k/m of them, rounded down or up. */
  lemma HandOverIsFair(s: DB, h: Id, u: Id, rows: seq<Id>, v: Id)
    requires Inv(s) && h in s.households && ActiveIn(s.memberships, h, u) && AdminBesides(s.memberships, h, u)
    requires Enumerates(rows, OpenChores(s.instances, h, u))
    requires v != u && ActiveIn(s.memberships, h, v)
    ensures var m := |Roster(s.memberships, h)| - 1;
            var s' := MemberLeaves(s, h, u, rows);
            && 1 <= m
            && (forall i :: 0 <= i < |rows| ==> rows[i] in s'.instances)
            && |rows| / m <= multiset(AssigneesOf(s'.instances, rows))[Some(v)] <= (|rows| + m - 1) / m
  {
    hide *;
    MembershipPart(s);
    RowsExist(s, h, u, rows);
    var roster, P := Roster(s.memberships, h), s.households[h].pointer;
    var r := LeavingEffect(s, h, u, rows);
    var survivors := Survivors(roster, r);
    RosterInJoiningOrder(s.memberships, s.users, s.households.Keys, h);
    RosterIsActiveMembers(s.memberships, h);
    SurvivorsAreDistinct(roster, r, v);
    DealtTo(s.instances, rows, survivors, P);
    CountSomes(AssigneesOf(MemberLeaves(s, h, u, rows).instances, rows), Picks(survivors, P, |rows|), v);
    Fairness(survivors, P, |rows|, v);
  }

  lemma {:induction false} CountSomes(a: seq<Option<Id>>, b: seq<Id>, v: Id)
    requires |a| == |b| && forall i :: 0 <= i < |a| ==> a[i] == Some(b[i])
    ensures multiset(a)[Some(v)] == multiset(b)[v]
  {
    if a != [] {
      var n := |a| - 1;
      CountSomes(a[..n], b[..n], v);
      assert a == a[..n] + [a[n]];
      assert b == b[..n] + [b[n]];
    }
  }

  lemma RowsExist(s: DB, h: Id, u: Id, rows: seq<Id>)
    requires Enumerates(rows, OpenChores(s.instances, h, u))
    ensures forall i :: 0 <= i < |rows| ==> rows[i] in s.instances
    ensures forall i, j :: 0 <= i < j < |rows| ==> rows[i] != rows[j]
  {
    forall i | 0 <= i < |rows| ensures rows[i] in s.instances {
      assert rows[i] in OpenChores(s.instances, h, u);
    }
  }

  lemma SurvivorsAreDistinct(roster: seq<Id>, r: nat, v: Id)
    requires Distinct(roster) && r < |roster| && v in roster && v != roster[r]
    ensures Distinct(Survivors(roster, r)) && v in Survivors(roster, r)
    ensures |Survivors(roster, r)| == |roster| - 1
  {
    var i :| 0 <= i < |roster| && roster[i] == v;
    assert Survivors(roster, r)[if i < r then i else i - 1] == v;
  }

  lemma LeaverIsNoSurvivor(roster: seq<Id>, r: nat)
    requires Distinct(roster) && r < |roster|
    ensures roster[r] !in Survivors(roster, r)
  {
  }

  /** Leaving touches no chore but the leaver's open ones, and of those only the assignee. */
  lemma LeavingTouchesOnlyOpenChores(s: DB, h: Id, u: Id, rows: seq<Id>)
    requires Inv(s) && h in s.households && ActiveIn(s.memberships, h, u) && AdminBesides(s.memberships, h, u)
    requires Enumerates(rows, OpenChores(s.instances, h, u))
    ensures var s' := MemberLeaves(s, h, u, rows);
            && s'.instances.Keys == s.instances.Keys
            && (forall id :: id in s.instances && id !in OpenChores(s.instances, h, u) ==>
                 s'.instances[id] == s.instances[id])
            && (forall id :: id in OpenChores(s.instances, h, u) ==>
                  s'.instances[id] == s.instances[id].(assignee := s'.instances[id].assignee)
                  && s'.instances[id].assignee != Some(u))
  {
    hide *;
    MembershipPart(s);
    RowsExist(s, h, u, rows);
    var r := LeavingEffect(s, h, u, rows);
    var roster, P := Roster(s.memberships, h), s.households[h].pointer;
    RosterInJoiningOrder(s.memberships, s.users, s.households.Keys, h);
    LeaverIsNoSurvivor(roster, r);
    DealKeys(rows, Survivors(roster, r), P);
    OnlyDealtChange(s.instances, rows, OpenChores(s.instances, h, u), Deal(rows, Survivors(roster, r), P), u);
  }

  lemma OnlyDealtChange(instances: Instances, rows: seq<Id>, open: set<Id>, dealt: Assignments, u: Id)
    requires Enumerates(rows, open) && forall i :: 0 <= i < |rows| ==> rows[i] in instances
    requires forall id :: id in dealt <==> id in rows
    requires forall id :: id in rows ==> dealt[id] != Some(u)
    ensures var after := WithAssignees(instances, dealt);
            && after.Keys == instances.Keys
            && (forall id :: id in instances && id !in open ==> after[id] == instances[id])
            && (forall id :: id in open ==>
                  after[id] == instances[id].(assignee := after[id].assignee) && after[id].assignee != Some(u))
  {
  }
}
