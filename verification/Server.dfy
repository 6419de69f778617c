/**
 The backend as one server: every request is served in place by its endpoint, and
 what holds of runs holds of the session that serves them.
 */
module Server {
  import opened Types
  import opened Schema
  import opened Endpoints
  import opened DailyJob
  import opened Invariants
  import opened Runs
  import opened Database
  import Api
  import AccountDeletion
  import Scheduler
  import JobTheorems

  method Serve(db: Session, r: Request) returns (outcome: Outcome)
    requires Inv(db.View()) && Fits(db.View(), r)
    modifies db
    ensures (db.View(), outcome) == Step(old(db.View()), r)
    ensures Inv(db.View())
    ensures outcome != Done ==> db.View() == old(db.View())
  {
    hide Inv;
    ghost var s := db.View();
    outcome := Dispatch(db, r);
    StepKeepsInv(s, r);
    FailuresChangeNothing(s, r);
  }

  method Dispatch(db: Session, r: Request) returns (outcome: Outcome)
    requires Inv(db.View()) && Fits(db.View(), r)
    modifies db
    ensures (db.View(), outcome) == Step(old(db.View()), r)
  {
    match r
    case RegisterUser => outcome := PostUser(db);
    case DailyJobReq(order, today) => outcome := RunDaily(db, order, today);
    case RemoveMemberReq(actor, h, target, rows) => outcome := Api.DeleteMember(db, actor, h, target, rows);
    case LeaveReq(actor, h, rows) => outcome := Api.PostLeave(db, actor, h, rows);
    case DeleteAccountReq(actor, order, rows) => outcome := AccountDeletion.DeleteUserAccount(db, actor, order, rows);
    case _ => outcome := DispatchSimple(db, r);
  }

  method DispatchSimple(db: Session, r: Request) returns (outcome: Outcome)
    requires !r.RegisterUser? && !r.DailyJobReq? && !r.RemoveMemberReq? && !r.LeaveReq? && !r.DeleteAccountReq?
    modifies db
    ensures (db.View(), outcome) == Step(old(db.View()), r)
  {
    match r
    case CreateHouseholdReq(actor, name, now) => outcome := Api.PostHousehold(db, actor, name, now);
    case DeleteHouseholdReq(actor, h, confirm) => outcome := Api.RemoveHousehold(db, actor, h, confirm);
    case CreateInviteReq(actor, h, now) => outcome := Api.PostInvite(db, actor, h, now);
    case AcceptInviteReq(actor, token, now) => outcome := Api.PostAcceptInvite(db, actor, token, now);
    case RevokeInviteReq(actor, h, token, now) => outcome := Api.RemoveInvite(db, actor, h, token, now);
    case UpdateRoleReq(actor, h, target, role) => outcome := Api.PatchRole(db, actor, h, target, role);
    case CreateChoreReq(actor, h, draft) => outcome := Api.PostChore(db, actor, h, draft);
    case CompleteReq(actor, h, id, now) => outcome := Api.PostComplete(db, actor, h, id, now);
    case DismissReq(actor, h, id, now) => outcome := Api.PostDismiss(db, actor, h, id, now);
    case ReassignReq(actor, h, id, assignee) => outcome := Api.PatchAssignee(db, actor, h, id, assignee);
    case UpdateDefinitionReq(actor, h, d, edit) => outcome := Api.PatchDefinition(db, actor, h, d, edit);
    case DeleteDefinitionReq(actor, h, d) => outcome := Api.RemoveDefinition(db, actor, h, d);
  }

  method PostUser(db: Session) returns (outcome: Outcome)
    modifies db
    ensures (db.View(), outcome) == Step(old(db.View()), RegisterUser)
  {
    db.users := db.users + {db.nextId};
    db.nextId := db.nextId + 1;
    outcome := Done;
  }

  method RunDaily(db: Session, order: seq<Id>, today: Day) returns (outcome: Outcome)
    requires Inv(db.View()) && Enumerates(order, ActiveDefinitions(db.definitions))
    modifies db
    ensures (db.View(), outcome) == Step(old(db.View()), DailyJobReq(order, today))
  {
    hide Inv, FillSlots, Slots, ActiveDefinitions, Enumerates, Below;
    Scheduler.KnownDefinitions(db.definitions, order);
    JobTheorems.KeysBelow(db.View());
    Scheduler.GenerateChoreInstances(db, order, today);
    var flagged := Scheduler.FlagOverdueInstances(db, today);
    outcome := Done;
  }

  /** Serving the requests one after another from the empty database. */
  method ServeAll(rs: seq<Request>) returns (db: Session)
    requires Feasible(EMPTY, rs)
    ensures fresh(db) && db.View() == Run(EMPTY, rs) && Inv(db.View())
    ensures forall h :: h in db.households ==> HasAdmin(db.memberships, h)
    ensures forall id :: id in db.instances && db.instances[id].status in {Pending, Overdue} ==>
      && db.instances[id].assignee.Some?
      && ActiveIn(db.memberships, db.instances[id].household, db.instances[id].assignee.value)
  {
    db := new Session();
    EmptyIsConsistent();
    hide Inv, Step, Fits;
    var i := 0;
    assert rs[..0] == [];
    while i < |rs|
      invariant 0 <= i <= |rs| && fresh(db)
      invariant db.View() == Run(EMPTY, rs[..i]) && Inv(db.View())
    {
      FeasiblePrefix(EMPTY, rs, i);
      var outcome := Serve(db, rs[i]);
      i := i + 1;
    }
    assert rs[..i] == rs;
    ConsistentMeans(db.View());
  }

  lemma EmptyIsConsistent()
    ensures Inv(EMPTY)
  {
  }

  /** Each request of a feasible run fits the state it meets. */
  lemma {:induction false} FeasiblePrefix(s: DB, rs: seq<Request>, i: nat)
    requires Feasible(s, rs) && i < |rs|
    ensures Fits(Run(s, rs[..i]), rs[i])
    ensures rs[..i + 1][..i] == rs[..i] && rs[..i + 1] != []
    ensures Run(s, rs[..i + 1]) == Step(Run(s, rs[..i]), rs[i]).0
  {
    hide Step, Fits;
    assert rs[..i + 1][..i] == rs[..i];
    if i < |rs| - 1 {
      FeasiblePrefix(s, rs[..|rs| - 1], i);
      assert rs[..|rs| - 1][..i] == rs[..i];
    } else {
      assert rs[..i] == rs[..|rs| - 1];
    }
  }

  lemma ConsistentMeans(s: DB)
    requires Inv(s)
    ensures forall h :: h in s.households ==> HasAdmin(s.memberships, h)
    ensures forall id :: id in s.instances && s.instances[id].status in {Pending, Overdue} ==>
      && s.instances[id].assignee.Some?
      && ActiveIn(s.memberships, s.instances[id].household, s.instances[id].assignee.value)
  {
    hide MembershipsOk, DefinitionsOk, InstancesOk, PairsUnique, LedgerOk, InvitesOk, PointersOk, KeysOk, ActiveIn;
    hide HasAdmin;
  }
}
