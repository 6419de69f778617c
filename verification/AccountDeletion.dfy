/** account_deletion.py over the session: validate every household, then mutate. */
module AccountDeletion {
  import opened Types
  import opened Schema
  import opened Endpoints
  import opened Invariants
  import opened Deletion
  import opened Database
  import opened Redistribution

  /** Pass 1: nothing is written, so a conflict leaves everything as it was. */
  method Validate(db: Session, u: Id, order: seq<Id>) returns (blocked: bool, toDelete: seq<Id>, toLeave: seq<Id>)
    ensures blocked <==> exists h :: h in order && SoleAdminAmongOthers(db.View(), h, u)
    ensures !blocked ==> toDelete == ToDelete(db.View(), order) && toLeave == ToLeave(db.View(), order)
  {
    toDelete, toLeave := [], [];
    var i := 0;
    while i < |order|
      invariant 0 <= i <= |order|
      invariant toDelete == ToDelete(db.View(), order[..i]) && toLeave == ToLeave(db.View(), order[..i])
      invariant forall h :: h in order[..i] ==> !SoleAdminAmongOthers(db.View(), h, u)
    {
      var h := order[i];
      assert order[..i + 1][..i] == order[..i];
      var memberCount := |Roster(db.memberships, h)|;
      if memberCount <= 1 {
        if h in db.households {
          toDelete := toDelete + [h];
        }
      } else {
        if AdminIn(db.memberships, h, u) {
          var adminCount := CountAdmins(db.memberships, h);
          if adminCount <= 1 {
            assert SoleAdminAmongOthers(db.View(), h, u);
            return true, [], [];
          }
        }
        toLeave := toLeave + [h];
      }
      i := i + 1;
    }
    assert order[..i] == order;
    blocked := false;
  }

  /** `delete_user_account`. */
  method DeleteUserAccount(db: Session, actor: Id, order: seq<Id>, rows: map<Id, seq<Id>>) returns (outcome: Outcome)
    requires Inv(db.View()) && ReadsForDeletion(db.View(), actor, order, rows)
    modifies db
    ensures (db.View(), outcome) == DeleteAccount(old(db.View()), actor, order, rows)
  {
    hide Inv, ReadsForDeletion, SoleAdminAmongOthers, LeaveEach, DeleteUser, DeleteHouseholds, Enumerates;
    hide OpenChores, ToDelete, ToLeave;
    ghost var s := db.View();
    if actor !in db.users {
      return Unauthorized;
    }
    var blocked, toDelete, toLeave := Validate(db, actor, order);
    if blocked {
      return Conflict;
    }
    db.DeleteHouseholdRows(AsSet(toDelete));
    db.memberships := Deactivated(db.memberships, AsSet(toLeave), actor);
    ghost var prepared := Prepared(s, actor, order);
    assert db.View() == prepared;
    var i := 0;
    NobodyLeft(prepared, actor, rows);
    while i < |toLeave|
      invariant 0 <= i <= |toLeave|
      invariant db.View() == LeaveEach(prepared, actor, toLeave[..i], rows)
    {
      var h := toLeave[i];
      ValidatedChecksStillHold(s, actor, order, rows, i);
      OneMoreLeft(prepared, actor, toLeave, i, rows);
      RedistributeForRemovedMember(db, actor, h, rows[h]);
      i := i + 1;
    }
    assert toLeave[..i] == toLeave;
    db.DeleteUserRow(actor);
    outcome := Done;
  }

  lemma NobodyLeft(s: DB, u: Id, rows: map<Id, seq<Id>>)
    ensures LeaveEach(s, u, [], rows) == s
  {
  }

  lemma OneMoreLeft(s: DB, u: Id, hs: seq<Id>, i: nat, rows: map<Id, seq<Id>>)
    requires i < |hs| && hs[i] in rows
    ensures LeaveEach(s, u, hs[..i + 1], rows) == Redistributed(LeaveEach(s, u, hs[..i], rows), hs[i], u, rows[hs[i]])
  {
    hide Redistributed;
    assert hs[..i + 1][..i] == hs[..i];
  }
}
