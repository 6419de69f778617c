/** redistribution.py over the session. */
module Redistribution {
  import opened Types
  import opened Filtering
  import opened Rotation
  import opened Schema
  import opened Endpoints
  import opened Database
  import Service = AssignmentService

  /** The loops that write the new assignees into the chores that were read. */
  method WriteAssignees(db: Session, rows: seq<Id>, dealt: Assignments)
    requires forall i :: 0 <= i < |rows| ==> rows[i] in db.instances
    requires forall id :: id in dealt <==> id in rows
    modifies db
    ensures db.View() == old(db.View()).(instances := WithAssignees(old(db.instances), dealt))
  {
    ghost var s := db.View();
    var todo := dealt.Keys;
    WrittenEnds(db.instances, dealt);
    hide Written, WithAssignees;
    while todo != {}
      invariant todo <= dealt.Keys
      invariant db.View() == s.(instances := db.instances)
      invariant db.instances == Written(s.instances, dealt, todo)
      decreases |todo|
    {
      var id :| id in todo;
      if id in rows {
        WriteOne(s.instances, dealt, todo, id);
        db.instances := db.instances[id := db.instances[id].(assignee := dealt[id])];
      }
      todo := todo - {id};
    }
  }

  /** The chores once all but `todo` have been written. */
  function Written(instances: Instances, dealt: Assignments, todo: set<Id>): Instances {
    map id | id in instances ::
      if id in dealt && id !in todo then instances[id].(assignee := dealt[id]) else instances[id]
  }

  lemma WriteOne(instances: Instances, dealt: Assignments, todo: set<Id>, id: Id)
    requires id in todo && id in dealt && id in instances
    ensures id in Written(instances, dealt, todo)
    ensures var now := Written(instances, dealt, todo);
            now[id := now[id].(assignee := dealt[id])] == Written(instances, dealt, todo - {id})
  {
  }

  lemma WrittenEnds(instances: Instances, dealt: Assignments)
    ensures Written(instances, dealt, dealt.Keys) == instances
    ensures Written(instances, dealt, {}) == WithAssignees(instances, dealt)
  {
  }

  /** `redistribute_chores_for_removed_member`; `rows` are the open chores its first query returned. */
  method RedistributeForRemovedMember(db: Session, u: Id, h: Id, rows: seq<Id>)
    requires Enumerates(rows, OpenChores(db.instances, h, u))
    modifies db
    ensures db.View() == Redistributed(old(db.View()), h, u, rows)
  {
    hide Filter, LatestJoin, Enumerates, OpenChores, Redistributed, BulkAssign, Roster;
    ghost var s := db.View();
    RowsAreInstances(s, h, u, rows);
    var remainingCount := |Filter(db.memberships, ActiveOthers(h, u))|;
    var originalPointer := if h in db.households then db.households[h].pointer else 0;
    var removedIndex: Option<int> := None;
    if h in db.households {
      var joined := LatestJoin(db.memberships, h, u);
      if joined.Some? {
        removedIndex := Some(|Filter(db.memberships, JoinedBefore(h, joined.value))|);
      }
    }
    assert removedIndex == RemovedIndex(s, h, u);
    if rows != [] {
      if remainingCount == 0 {
        UnassignedKeys(rows);
        WriteAssignees(db, rows, Unassigned(rows));
      } else {
        var dealt := Service.RedistributeChoresBulk(db, rows, h);
        BulkKeys(s, rows, h);
        WriteAssignees(db, rows, dealt);
      }
    } else {
      assert WithAssignees(db.instances, map[]) == db.instances;
    }
    AfterHandOver(s, db.View(), h, u, rows);
    if h in db.households && removedIndex.Some? {
      var originalMemberCount := remainingCount + 1;
      if removedIndex.value < originalPointer % originalMemberCount {
        var current := db.households[h].pointer;
        db.households := db.households[h := db.households[h].(pointer := if current - 1 < 0 then 0 else current - 1)];
      } else {
        Service.PointerKept(db.View(), h);
      }
    }
  }

  lemma RowsAreInstances(s: DB, h: Id, u: Id, rows: seq<Id>)
    requires Enumerates(rows, OpenChores(s.instances, h, u))
    ensures forall i :: 0 <= i < |rows| ==> rows[i] in s.instances
  {
    forall i | 0 <= i < |rows| ensures rows[i] in s.instances {
      assert rows[i] in OpenChores(s.instances, h, u);
    }
  }

  lemma UnassignedKeys(rows: seq<Id>)
    ensures forall id :: id in Unassigned(rows) <==> id in rows
  {
  }

  lemma BulkKeys(s: DB, rows: seq<Id>, h: Id)
    ensures forall id :: id in BulkAssign(s, rows, h).0 <==> id in rows
    ensures BulkAssign(s, rows, h).1 == s.(households := BulkAssign(s, rows, h).1.households)
  {
    var lock := LockOf(s, h);
    if rows != [] && lock.pointer.Some? && lock.roster != [] {
      DealKeys(rows, lock.roster, lock.pointer.value);
    }
  }

  lemma AfterHandOver(s: DB, now: DB, h: Id, u: Id, rows: seq<Id>)
    requires var (dealt, s1) := HandOver(s, h, u, rows); now == s1.(instances := WithAssignees(s1.instances, dealt))
    ensures Redistributed(s, h, u, rows) == Corrected(s, now, h, u)
    ensures h in now.households <==> h in s.households
  {
  }
}
