/** assignment.py over the session. */
module AssignmentService {
  import opened Types
  import opened Rotation
  import opened Schema
  import opened Database

  /** `RoundRobinStrategy.assign`. */
  method AssignNext(db: Session, h: Id) returns (user: Option<Id>)
    modifies db
    ensures (user, db.View()) == AutoAssign(old(db.View()), h)
  {
    if h !in db.households {
      return None;
    }
    var memberIds := Roster(db.memberships, h);
    if memberIds == [] {
      PointerKept(db.View(), h);
      return None;
    }
    var pointer := db.households[h].pointer % |memberIds|;
    user := Some(memberIds[pointer]);
    db.households := db.households[h := db.households[h].(pointer := db.households[h].pointer + 1)];
  }

  lemma PointerKept(s: DB, h: Id)
    requires h in s.households
    ensures WithPointer(s, h, Some(s.households[h].pointer)) == s
  {
    assert s.households[h := s.households[h].(pointer := s.households[h].pointer)] == s.households;
  }

  /** `redistribute_chores`: one lock acquisition per chore. */
  method RedistributeChores(db: Session, ids: seq<Id>, h: Id) returns (assignments: Assignments)
    modifies db
    ensures (assignments, db.View()) == BulkAssign(old(db.View()), ids, h)
  {
    ghost var s := db.View();
    assignments := map[];
    var i := 0;
    NoneDealt(s, h);
    while i < |ids|
      invariant 0 <= i <= |ids|
      invariant (assignments, db.View()) == BulkAssign(s, ids[..i], h)
    {
      OneMore(s, ids[..i], ids[i], h);
      assert ids[..i + 1] == ids[..i] + [ids[i]];
      var user := AssignNext(db, h);
      assignments := assignments[ids[i] := user];
      i := i + 1;
    }
    assert ids[..i] == ids;
  }

  lemma NoneDealt(s: DB, h: Id)
    ensures BulkAssign(s, [], h) == (map[], s)
  {
    if h in s.households {
      PointerKept(s, h);
    }
  }

  /** Assigning one more chore after a batch is the longer batch. */
  lemma OneMore(s: DB, ids: seq<Id>, id: Id, h: Id)
    ensures var (dealt, s1) := BulkAssign(s, ids, h);
            var (user, s2) := AutoAssign(s1, h);
            BulkAssign(s, ids + [id], h) == (dealt[id := user], s2)
  {
    var lock := LockOf(s, h);
    BulkRefinesOneByOne(ids, lock);
    BulkRefinesOneByOne(ids + [id], lock);
    assert (ids + [id])[..|ids + [id]| - 1] == ids;
    hide Bulk, Roster;
    var (dealt, held) := OneByOne(ids, lock);
    OneByOneKeepsShape(ids, lock);
    LockAfterPointer(s, h, held);
    PointerTwice(s, h, held.pointer, Assign(held).1.pointer);
  }

  lemma {:induction false} OneByOneKeepsShape(ids: seq<Id>, lock: Lock)
    ensures var after := OneByOne(ids, lock).1;
            after.roster == lock.roster && (after.pointer.Some? <==> lock.pointer.Some?)
  {
    if ids != [] {
      OneByOneKeepsShape(ids[..|ids| - 1], lock);
    }
  }

  lemma LockAfterPointer(s: DB, h: Id, lock: Lock)
    requires lock.roster == Roster(s.memberships, h) && (lock.pointer.Some? <==> h in s.households)
    ensures LockOf(WithPointer(s, h, lock.pointer), h) == lock
  {
    hide Roster;
  }

  lemma PointerTwice(s: DB, h: Id, p: Option<int>, q: Option<int>)
    requires p.Some? ==> q.Some?
    ensures WithPointer(WithPointer(s, h, p), h, q) == WithPointer(s, h, q)
  {
    if h in s.households && p.Some? {
      var once := WithPointer(s, h, p);
      assert once.households[h := once.households[h].(pointer := q.value)]
          == s.households[h := s.households[h].(pointer := q.value)];
    }
  }

  /** `redistribute_chores_bulk`: one lock acquisition for the batch. */
  method RedistributeChoresBulk(db: Session, ids: seq<Id>, h: Id) returns (assignments: Assignments)
    modifies db
    ensures (assignments, db.View()) == BulkAssign(old(db.View()), ids, h)
  {
    if ids == [] {
      NoneDealt(db.View(), h);
      return map[];
    }
    if h !in db.households {
      return Unassigned(ids);
    }
    var memberIds := Roster(db.memberships, h);
    if memberIds == [] {
      PointerKept(db.View(), h);
      return Unassigned(ids);
    }
    assignments := map[];
    var pointer := db.households[h].pointer;
    var i := 0;
    while i < |ids|
      invariant 0 <= i <= |ids| && pointer == db.households[h].pointer + i
      invariant assignments == Deal(ids[..i], memberIds, db.households[h].pointer)
    {
      assert ids[..i + 1][..i] == ids[..i];
      assignments := assignments[ids[i] := Some(memberIds[pointer % |memberIds|])];
      pointer := pointer + 1;
      i := i + 1;
    }
    assert ids[..i] == ids;
    db.households := db.households[h := db.households[h].(pointer := pointer)];
  }
}
