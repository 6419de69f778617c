/** The leaderboard of a household on the tables, and its agreement with the chores behind it. */
module Standings {
  import opened Types
  import opened Filtering
  import opened Rotation
  import opened Schema
  import opened Endpoints
  import opened Invariants
  import opened Runs
  import opened Leaderboard
  import opened Database

  function Idents(members: seq<Person>): (ids: seq<Id>)
    ensures |ids| == |members| && forall i :: 0 <= i < |ids| ==> ids[i] == members[i].id
  {
    seq(|members|, i requires 0 <= i < |members| => members[i].id)
  }

  /** What the join of users and active memberships may return: one row per active member, in any order of names. */
  ghost predicate ListsMembers(s: DB, h: Id, members: seq<Person>) {
    multiset(Idents(members)) == multiset(Roster(s.memberships, h))
  }

  lemma RepeatedIdCountsTwice(ids: seq<Id>, i: nat, j: nat)
    requires i < j < |ids| && ids[i] == ids[j]
    ensures 2 <= multiset(ids)[ids[i]]
  {
    assert ids == ids[..j] + ids[j..];
    assert ids[..j][i] in multiset(ids[..j]) && ids[j..][0] in multiset(ids[j..]);
  }

  /** Nobody is listed twice. */
  lemma MembersAreDistinct(s: DB, h: Id, members: seq<Person>)
    requires Inv(s) && ListsMembers(s, h, members)
    ensures DistinctPeople(members)
  {
    hide Roster;
    RosterInJoiningOrder(s.memberships, s.users, s.households.Keys, h);
    var ids := Idents(members);
    forall i, j | 0 <= i < j < |members| ensures members[i].id != members[j].id {
      if ids[i] == ids[j] {
        RepeatedIdCountsTwice(ids, i, j);
        assert ids[i] in multiset(Roster(s.memberships, h));
        OccursOnce(Roster(s.memberships, h), ids[i]);
      }
    }
  }

  lemma ListedIffActive(s: DB, h: Id, members: seq<Person>)
    requires ListsMembers(s, h, members)
    ensures forall u :: u in IdsOf(members) <==> ActiveIn(s.memberships, h, u)
  {
    RosterIsActiveMembers(s.memberships, h);
    hide Roster, ActiveIn;
    forall u ensures u in IdsOf(members) <==> u in Roster(s.memberships, h) {
      assert u in Roster(s.memberships, h) <==> u in multiset(Idents(members));
      assert u in multiset(Idents(members)) <==> u in Idents(members);
    }
  }

  // ---------------------------------------------------------------------------
  // Points and the chores they were awarded for
  // ---------------------------------------------------------------------------

  function EarnedBy(h: Id, w: Window, u: Id): LedgerRow -> bool {
    (row: LedgerRow) => Counts(row, h, w) && row.user == u
  }

  predicate Earns(row: LedgerRow, h: Id, w: Window, u: Id) {
    EarnedBy(h, w, u)(row)
  }

  lemma OneMoreRow(front: seq<LedgerRow>, row: LedgerRow, h: Id, w: Window, u: Id)
    ensures Total(front + [row], h, w, u) == Total(front, h, w, u) + if Earns(row, h, w, u) then row.points else 0
    ensures Filter(front + [row], EarnedBy(h, w, u))
         == Filter(front, EarnedBy(h, w, u)) + if Earns(row, h, w, u) then [row] else []
  {
    FilterAppend(front, row, EarnedBy(h, w, u));
    assert (front + [row])[..|front|] == front;
    hide Filter;
  }

  lemma LedgerTotalAppend(kept: seq<LedgerRow>, row: LedgerRow, h: Id, w: Window, u: Id)
    requires Earns(row, h, w, u)
    ensures LedgerTotal(kept + [row], h) == LedgerTotal(kept, h) + row.points
  {
    assert (kept + [row])[..|kept|] == kept;
  }

  lemma {:induction false} TotalIsOfEarnedRows(ledger: seq<LedgerRow>, h: Id, w: Window, u: Id)
    ensures Total(ledger, h, w, u) == LedgerTotal(Filter(ledger, EarnedBy(h, w, u)), h)
  {
    hide Earns, EarnedBy, Counts;
    if ledger != [] {
      var front, row := ledger[..|ledger| - 1], ledger[|ledger| - 1];
      TotalIsOfEarnedRows(front, h, w, u);
      assert ledger == front + [row];
      OneMoreRow(front, row, h, w, u);
      var kept := Filter(front, EarnedBy(h, w, u));
      if Earns(row, h, w, u) {
        LedgerTotalAppend(kept, row, h, w, u);
        assert Filter(front + [row], EarnedBy(h, w, u)) == kept + [row];
      } else {
        assert Filter(front + [row], EarnedBy(h, w, u)) == kept;
      }
    }
  }

  lemma SelectedRowsOk(ledger: seq<LedgerRow>, instances: Instances, p: LedgerRow -> bool)
    requires RowsOk(ledger, instances)
    ensures RowsOk(Filter(ledger, p), instances)
  {
    var kept := Filter(ledger, p);
    forall i | 0 <= i < |kept| ensures kept[i].instance.Some? && RowOk(kept[i], instances) {
      assert ledger[Source(ledger, p, i)] == kept[i];
    }
    forall i, j | 0 <= i < j < |kept| ensures !SameInstance(kept[i], kept[j]) {
      SourceIncreases(ledger, p, i, j);
      assert !SameInstance(ledger[Source(ledger, p, i)], ledger[Source(ledger, p, j)]);
    }
  }

  /** The chores counted for a member are those whose awards the member's rows record. */
  lemma CountedChoresAreRecorded(s: DB, h: Id, w: Window, u: Id)
    requires LedgerOk(s.ledger, s.instances) && forall id :: id in s.instances ==> ShapeOk(s.instances[id])
    ensures Recorded(Filter(s.ledger, EarnedBy(h, w, u)), h) == Completed(s.instances, h, w, u)
  {
    var kept := Filter(s.ledger, EarnedBy(h, w, u));
    FilterMembers(s.ledger, EarnedBy(h, w, u));
    forall id | id in Recorded(kept, h) ensures id in Completed(s.instances, h, w, u) {
      var i :| 0 <= i < |kept| && kept[i].household == h && kept[i].instance == Some(id);
      assert kept[i] in s.ledger;
      var j :| 0 <= j < |s.ledger| && s.ledger[j] == kept[i];
      assert Records(s.ledger[j], s.instances[id]);
    }
    forall id | id in Completed(s.instances, h, w, u) ensures id in Recorded(kept, h) {
      assert ShapeOk(s.instances[id]);
      assert HasRow(s.ledger, id);
      var j :| 0 <= j < |s.ledger| && s.ledger[j].instance == Some(id);
      assert Records(s.ledger[j], s.instances[id]);
      assert s.ledger[j] in kept;
      var i :| 0 <= i < |kept| && kept[i] == s.ledger[j];
      assert kept[i].instance.value == id;
    }
  }

  /** A member's points in a window are the points of the chores counted for them in it. */
  ghost predicate PointsMatchChores(s: DB, h: Id, w: Window, u: Id) {
    && (forall id :: id in Completed(s.instances, h, w, u) ==> id in s.instances && s.instances[id].points.Some?)
    && Total(s.ledger, h, w, u) == PointsOf(s.instances, Completed(s.instances, h, w, u))
  }

  lemma ConsistentPointsMatch(s: DB, h: Id, w: Window, u: Id)
    requires Inv(s)
    ensures PointsMatchChores(s, h, w, u)
  {
    hide *;
    LedgerPart(s);
    var kept := Filter(s.ledger, EarnedBy(h, w, u));
    LedgerRowsOk(s.ledger, s.instances);
    SelectedRowsOk(s.ledger, s.instances, EarnedBy(h, w, u));
    LedgerTotalByInstances(kept, s.instances, h);
    CountedChoresAreRecorded(s, h, w, u);
    TotalIsOfEarnedRows(s.ledger, h, w, u);
    PointsMatchBySets(s, h, w, u, Recorded(kept, h));
  }

  lemma LedgerPart(s: DB)
    requires Inv(s)
    ensures LedgerOk(s.ledger, s.instances) && forall id :: id in s.instances ==> ShapeOk(s.instances[id])
  {
    hide MembershipsOk, AdminsOk, DefinitionsOk, PairsUnique, Served, LedgerOk, InvitesOk, PointersOk, KeysOk, ShapeOk;
  }

  lemma PointsMatchBySets(s: DB, h: Id, w: Window, u: Id, ids: set<Id>)
    requires ids == Completed(s.instances, h, w, u)
    requires forall id :: id in ids ==> id in s.instances && s.instances[id].points.Some?
    requires Total(s.ledger, h, w, u) == PointsOf(s.instances, ids)
    ensures PointsMatchChores(s, h, w, u)
  {
    hide Completed, Total, PointsOf;
  }

  /** In every reachable state, for every member and window, the points shown are those of the chores shown. */
  lemma ReachablePointsMatchChores(rs: seq<Request>, h: Id, w: Window, u: Id)
    requires Feasible(EMPTY, rs)
    ensures PointsMatchChores(Run(EMPTY, rs), h, w, u)
  {
    hide Feasible, Run, Inv, PointsMatchChores;
    ReachableStatesAreConsistent(rs);
    ConsistentPointsMatch(Run(EMPTY, rs), h, w, u);
  }

  // ---------------------------------------------------------------------------
  // What is counted in a scope
  // ---------------------------------------------------------------------------

  /** The points of all rows of `u` in `h` awarded during the scope. */
  function PointsDuring(ledger: seq<LedgerRow>, h: Id, u: Id, scope: Scope, today: Day): int {
    if ledger == [] then 0
    else
      var row := ledger[|ledger| - 1];
      PointsDuring(ledger[..|ledger| - 1], h, u, scope, today)
      + if row.household == h && row.user == u && During(row.awardedAt, scope, today) then row.points else 0
  }

  lemma {:induction false} TotalIsOfScope(ledger: seq<LedgerRow>, h: Id, u: Id, scope: Scope, today: Day)
    ensures Total(ledger, h, ComputeWindow(scope, today), u) == PointsDuring(ledger, h, u, scope, today)
  {
    hide During, InWindow, ComputeWindow;
    if ledger != [] {
      TotalIsOfScope(ledger[..|ledger| - 1], h, u, scope, today);
      WindowMeansScope(scope, today, ledger[|ledger| - 1].awardedAt);
    }
  }

  /** The chores of `u` in `h` completed during the scope. */
  function ChoresDuring(instances: Instances, h: Id, u: Id, scope: Scope, today: Day): set<Id> {
    set id |
      && id in instances && instances[id].household == h && instances[id].assignee == Some(u)
      && instances[id].status == Complete && instances[id].completedAt.Some?
      && During(instances[id].completedAt.value, scope, today)
  }

  lemma CountIsOfScope(instances: Instances, h: Id, u: Id, scope: Scope, today: Day)
    ensures ChoreCount(instances, h, ComputeWindow(scope, today), u) == |ChoresDuring(instances, h, u, scope, today)|
  {
    hide During, InWindow, ComputeWindow;
    var w := ComputeWindow(scope, today);
    forall t ensures InWindow(t, w) == During(t, scope, today) {
      WindowMeansScope(scope, today, t);
    }
    assert Completed(instances, h, w, u) == ChoresDuring(instances, h, u, scope, today);
  }

  // ---------------------------------------------------------------------------
  // The endpoint
  // ---------------------------------------------------------------------------

  /** What the endpoint answers: the dense ranking of the active members, whose points and chores agree. */
  ghost predicate Answers(s: DB, h: Id, w: Window, members: seq<Person>, entries: seq<Entry>)
  {
    var points := PointsTable(members, s.ledger, h, w);
    && RankedDensely(entries, members, points)
    && ListedIn(entries, Sorted(members, points))
    && multiset(PeopleOf(entries)) == multiset(members)
    && SumOfEntries(entries) == RowsTotal(s.ledger, h, w, IdsOf(members))
    && (forall i :: 0 <= i < |entries| ==>
         && entries[i].chores == ChoreCount(s.instances, h, w, entries[i].person.id)
         && PointsMatchChores(s, h, w, entries[i].person.id))
  }

  /** The rank of the entry of `u`, as the last loop of the endpoint finds it. */
  method OwnRank(entries: seq<Entry>, u: Id) returns (rank: Option<nat>)
    ensures rank.None? ==> forall i :: 0 <= i < |entries| ==> entries[i].person.id != u
    ensures rank.Some? ==> exists i :: 0 <= i < |entries| && entries[i].person.id == u && entries[i].rank == rank.value
  {
    var i := 0;
    while i < |entries|
      invariant 0 <= i <= |entries|
      invariant forall k :: 0 <= k < i ==> entries[k].person.id != u
    {
      if entries[i].person.id == u {
        return Some(entries[i].rank);
      }
      i := i + 1;
    }
    rank := None;
  }

  method GetLeaderboard(db: Session, actor: Id, h: Id, members: seq<Person>, scope: Scope, today: Day)
    returns (outcome: Outcome, entries: seq<Entry>, rank: Option<nat>)
    requires Inv(db.View()) && ListsMembers(db.View(), h, members)
    ensures outcome == RequireMember(db.View(), actor, h)
    ensures outcome != Done ==> entries == [] && rank == None
    ensures outcome == Done ==> Answers(db.View(), h, ComputeWindow(scope, today), members, entries)
    ensures outcome == Done ==> forall i :: 0 <= i < |entries| ==>
      && entries[i].points == PointsDuring(db.ledger, h, entries[i].person.id, scope, today)
      && entries[i].chores == |ChoresDuring(db.instances, h, entries[i].person.id, scope, today)|
    ensures outcome == Done ==> rank.Some? && exists i ::
      0 <= i < |entries| && entries[i].person.id == actor && entries[i].rank == rank.value
  {
    hide Inv, ListsMembers, PointsMatchChores, PointsTable, Sorted, Above, RankedDensely, ChoreCount, RowsTotal;
    hide IdsOf, ActiveIn;
    outcome := RequireMember(db.View(), actor, h);
    if outcome != Done {
      return outcome, [], None;
    }
    var w := ComputeWindow(scope, today);
    entries := RankPeople(members, db.ledger, db.instances, h, scope, today);
    rank := OwnRank(entries, actor);
    ghost var s := db.View();
    MembersAreDistinct(s, h, members);
    LeaderboardAddsUp(members, s.ledger, h, w, entries);
    forall i | 0 <= i < |entries| ensures PointsMatchChores(s, h, w, entries[i].person.id) {
      ConsistentPointsMatch(s, h, w, entries[i].person.id);
    }
    ActorIsListed(s, h, members, actor, entries);
    forall i | 0 <= i < |entries|
      ensures entries[i].points == PointsDuring(s.ledger, h, entries[i].person.id, scope, today)
      ensures entries[i].chores == |ChoresDuring(s.instances, h, entries[i].person.id, scope, today)|
    {
      EntryIsOfScope(s, h, members, entries, scope, today, i);
    }
  }

  lemma EntryIsOfScope(s: DB, h: Id, members: seq<Person>, entries: seq<Entry>, scope: Scope, today: Day, i: nat)
    requires i < |entries| && Answers(s, h, ComputeWindow(scope, today), members, entries)
    ensures entries[i].points == PointsDuring(s.ledger, h, entries[i].person.id, scope, today)
    ensures entries[i].chores == |ChoresDuring(s.instances, h, entries[i].person.id, scope, today)|
  {
    hide ComputeWindow, ChoreCount, PointsMatchChores, Above, Sorted, RowsTotal;
    TotalIsOfScope(s.ledger, h, entries[i].person.id, scope, today);
    CountIsOfScope(s.instances, h, entries[i].person.id, scope, today);
  }

  lemma ActorIsListed(s: DB, h: Id, members: seq<Person>, u: Id, entries: seq<Entry>)
    requires ListsMembers(s, h, members) && ActiveIn(s.memberships, h, u)
    requires multiset(PeopleOf(entries)) == multiset(members)
    ensures exists i :: 0 <= i < |entries| && entries[i].person.id == u
  {
    ListedIffActive(s, h, members);
    hide ListsMembers, ActiveIn;
    var j :| 0 <= j < |members| && members[j].id == u;
    assert members[j] in multiset(PeopleOf(entries));
    var i :| 0 <= i < |entries| && PeopleOf(entries)[i] == members[j];
  }
}
