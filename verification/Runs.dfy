/**
 The whole backend as one state machine: a request is one transaction, a run is
 any sequence of requests, and every run from the empty database stays consistent.
 */
module Runs {
  import opened Types
  import opened Filtering
  import opened Schema
  import opened Endpoints
  import opened DailyJob
  import opened Invariants
  import opened Tables
  import opened Preservation
  import opened Deletion
  import opened JobTheorems

  datatype Request =
    | RegisterUser
    | CreateHouseholdReq(actor: Id, name: string, now: Time)
    | DeleteHouseholdReq(actor: Id, household: Id, confirm: string)
    | CreateInviteReq(actor: Id, household: Id, now: Time)
    | AcceptInviteReq(actor: Id, token: Id, now: Time)
    | RevokeInviteReq(actor: Id, household: Id, token: Id, now: Time)
    | RemoveMemberReq(actor: Id, household: Id, target: Id, rows: seq<Id>)
    | UpdateRoleReq(actor: Id, household: Id, target: Id, role: Role)
    | LeaveReq(actor: Id, household: Id, rows: seq<Id>)
    | CreateChoreReq(actor: Id, household: Id, draft: Draft)
    | CompleteReq(actor: Id, household: Id, instance: Id, now: Time)
    | DismissReq(actor: Id, household: Id, instance: Id, now: Time)
    | ReassignReq(actor: Id, household: Id, instance: Id, assignee: Option<Id>)
    | UpdateDefinitionReq(actor: Id, household: Id, definition: Id, edit: Edit)
    | DeleteDefinitionReq(actor: Id, household: Id, definition: Id)
    | DeleteAccountReq(actor: Id, order: seq<Id>, openChores: map<Id, seq<Id>>)
    | DailyJobReq(order: seq<Id>, today: Day)

  /**
   The parameters that stand for what a query without ORDER BY returned or what
   the clock read are ones the database and the clock can produce.
   */
  ghost predicate Fits(s: DB, r: Request) {
    match r
    case AcceptInviteReq(_, token, now) =>
      token in s.invites ==> JoinsLast(s.memberships, s.invites[token].household, now)
    case RemoveMemberReq(_, h, target, rows) => Enumerates(rows, OpenChores(s.instances, h, target))
    case LeaveReq(actor, h, rows) => Enumerates(rows, OpenChores(s.instances, h, actor))
    case DeleteAccountReq(actor, order, rows) => ReadsForDeletion(s, actor, order, rows)
    case DailyJobReq(order, _) => Enumerates(order, ActiveDefinitions(s.definitions))
    case _ => true
  }

  function Step(s: DB, r: Request): (DB, Outcome) {
    match r
    case RegisterUser => (Register(s), Done)
    case CreateHouseholdReq(actor, name, now) => CreateHousehold(s, actor, name, now)
    case DeleteHouseholdReq(actor, h, confirm) => DeleteHousehold(s, actor, h, confirm)
    case CreateInviteReq(actor, h, now) => CreateInvite(s, actor, h, now)
    case AcceptInviteReq(actor, token, now) => AcceptInvite(s, actor, token, now)
    case RevokeInviteReq(actor, h, token, now) => RevokeInvite(s, actor, h, token, now)
    case RemoveMemberReq(actor, h, target, rows) => RemoveMember(s, actor, h, target, rows)
    case UpdateRoleReq(actor, h, target, role) => UpdateRole(s, actor, h, target, role)
    case LeaveReq(actor, h, rows) => Leave(s, actor, h, rows)
    case CreateChoreReq(actor, h, draft) => CreateChore(s, actor, h, draft)
    case CompleteReq(actor, h, id, now) => CompleteChore(s, actor, h, id, now)
    case DismissReq(actor, h, id, now) => DismissChore(s, actor, h, id, now)
    case ReassignReq(actor, h, id, assignee) => ReassignChore(s, actor, h, id, assignee)
    case UpdateDefinitionReq(actor, h, d, edit) => UpdateDefinition(s, actor, h, d, edit)
    case DeleteDefinitionReq(actor, h, d) => DeleteDefinition(s, actor, h, d)
    case DeleteAccountReq(actor, order, rows) => DeleteAccount(s, actor, order, rows)
    case DailyJobReq(order, today) =>
      if forall d :: d in order ==> d in s.definitions then (RunDailyJob(s, order, today), Done) else (s, BadRequest)
  }

  function Run(s: DB, rs: seq<Request>): DB {
    if rs == [] then s else Step(Run(s, rs[..|rs| - 1]), rs[|rs| - 1]).0
  }

  ghost predicate Feasible(s: DB, rs: seq<Request>) {
    rs == [] || (Feasible(s, rs[..|rs| - 1]) && Fits(Run(s, rs[..|rs| - 1]), rs[|rs| - 1]))
  }

  lemma StepKeepsInv(s: DB, r: Request)
    requires Inv(s) && Fits(s, r)
    ensures Inv(Step(s, r).0)
  {
    hide Inv, DailyJob.RunDailyJob, Endpoints.Register, CreateHousehold, DeleteHouseholds, CreateInvite;
    hide AcceptInvite, RevokeInvite;
    hide RemoveMember, UpdateRole, Leave, CreateChore, CompleteChore, DismissChore, ReassignChore, UpdateDefinition;
    hide DeleteDefinition, DeleteAccount, OpenChores, Enumerates, ReadsForDeletion, JoinsLast, ActiveDefinitions;
    hide RequireAdmin;
    match r
    case RegisterUser => RegisterKeepsInv(s);
    case CreateHouseholdReq(actor, name, now) => CreateHouseholdKeepsInv(s, actor, name, now);
    case DeleteHouseholdReq(_, h, _) => DeleteHouseholdsKeepsInv(s, {h});
    case CreateInviteReq(actor, h, now) => CreateInviteKeepsInv(s, actor, h, now);
    case AcceptInviteReq(actor, token, now) => AcceptInviteKeepsInv(s, actor, token, now);
    case RevokeInviteReq(actor, h, token, now) => RevokeInviteKeepsInv(s, actor, h, token, now);
    case RemoveMemberReq(actor, h, target, rows) => RemoveMemberKeepsInv(s, actor, h, target, rows);
    case UpdateRoleReq(actor, h, target, role) => UpdateRoleKeepsInv(s, actor, h, target, role);
    case LeaveReq(actor, h, rows) => LeaveKeepsInv(s, actor, h, rows);
    case CreateChoreReq(actor, h, draft) => CreateChoreKeepsInv(s, actor, h, draft);
    case CompleteReq(actor, h, id, now) => CompleteKeepsInv(s, actor, h, id, now);
    case DismissReq(actor, h, id, now) => DismissKeepsInv(s, actor, h, id, now);
    case ReassignReq(actor, h, id, assignee) => ReassignKeepsInv(s, actor, h, id, assignee);
    case UpdateDefinitionReq(actor, h, d, edit) => UpdateDefinitionKeepsInv(s, actor, h, d, edit);
    case DeleteDefinitionReq(actor, h, d) => DeleteDefinitionKeepsInv(s, actor, h, d);
    case DeleteAccountReq(actor, order, rows) => DeleteAccountKeepsInv(s, actor, order, rows);
    case DailyJobReq(order, today) => DailyJobKeepsInv(s, order, today);
  }

  lemma {:induction false} RunKeepsInv(s: DB, rs: seq<Request>)
    requires Inv(s) && Feasible(s, rs)
    ensures Inv(Run(s, rs))
  {
    hide Inv, Step, Fits;
    if rs != [] {
      RunKeepsInv(s, rs[..|rs| - 1]);
      StepKeepsInv(Run(s, rs[..|rs| - 1]), rs[|rs| - 1]);
    }
  }

  /** Every reachable state is consistent. */
  lemma ReachableStatesAreConsistent(rs: seq<Request>)
    requires Feasible(EMPTY, rs)
    ensures Inv(Run(EMPTY, rs))
  {
    hide Feasible, Run;
    RunKeepsInv(EMPTY, rs);
  }

  /** A request that does not succeed changes nothing. */
  lemma FailuresChangeNothing(s: DB, r: Request)
    ensures Step(s, r).1 != Done ==> Step(s, r).0 == s
  {
    hide AutoAssign, MemberLeaves, DeleteHouseholds, DeleteUser, LeaveEach, RunDailyJob, TerminalGate;
    hide RequireAdmin, RequireMember;
    hide AddInstance, Deactivated, WithRole, ToDelete, ToLeave;
  }

  // ---------------------------------------------------------------------------
  // What consistency means for users of the application
  // ---------------------------------------------------------------------------

  /** Every household has an active admin, in every reachable state. */
  lemma EveryHouseholdHasAnAdmin(rs: seq<Request>, h: Id)
    requires Feasible(EMPTY, rs) && h in Run(EMPTY, rs).households
    ensures exists u :: AdminIn(Run(EMPTY, rs).memberships, h, u) && u in Run(EMPTY, rs).users
  {
    hide Feasible, Run;
    ReachableStatesAreConsistent(rs);
    var s := Run(EMPTY, rs);
    var i :| 0 <= i < |s.memberships| && ActiveAdmins(h)(s.memberships[i]);
    assert IsActive(s.memberships[i], h, s.memberships[i].user);
    assert AdminIn(s.memberships, h, s.memberships[i].user);
  }

  /**
   Every open chore is assigned, and to an active member of its own household:
   the unassigned state that the code provides for is never reached.
   */
  lemma EveryOpenChoreIsServed(rs: seq<Request>, id: Id)
    requires Feasible(EMPTY, rs) && id in Run(EMPTY, rs).instances
    requires Run(EMPTY, rs).instances[id].status in {Pending, Overdue}
    ensures var inst := Run(EMPTY, rs).instances[id];
            inst.assignee.Some? && ActiveIn(Run(EMPTY, rs).memberships, inst.household, inst.assignee.value)
  {
    hide Feasible, Run, ActiveIn, MembershipsOk, AdminsOk, InstancesOk, PairsUnique, LedgerOk;
    ReachableStatesAreConsistent(rs);
  }

  /** Whoever is removed or leaves, somebody remains: redistribution never finds an empty household. */
  lemma RedistributionAlwaysFindsMembers(rs: seq<Request>, r: Request)
    requires Feasible(EMPTY, rs) && Fits(Run(EMPTY, rs), r)
    requires r.RemoveMemberReq? || r.LeaveReq?
    requires Step(Run(EMPTY, rs), r).1 == Done
    ensures var s := Run(EMPTY, rs);
            var u := if r.RemoveMemberReq? then r.target else r.actor;
            0 < |Filter(s.memberships, ActiveOthers(r.household, u))|
  {
    hide Feasible, Run, Inv, MemberLeaves, AdminBesides, Filter, Enumerates, ActiveIn, AdminIn, CountAdmins;
    ReachableStatesAreConsistent(rs);
    var s := Run(EMPTY, rs);
    var u := if r.RemoveMemberReq? then r.target else r.actor;
    if r.RemoveMemberReq? {
      CallerKeepsAdmin(s, r.actor, r.household, u);
    } else {
      MemberHouseholdExists(s, r.household, u);
      LeaverLeavesAdmin(s, r.household, u);
    }
    OthersRemain(s.memberships, r.household, u);
  }

  /** Nor does it when an account is deleted, in any of the households the user leaves. */
  lemma AccountDeletionAlwaysFindsMembers(rs: seq<Request>, r: Request, i: nat)
    requires Feasible(EMPTY, rs) && r.DeleteAccountReq? && Fits(Run(EMPTY, rs), r)
    requires Step(Run(EMPTY, rs), r).1 == Done && i < |ToLeave(Run(EMPTY, rs), r.order)|
    ensures var s := Run(EMPTY, rs);
            var leaving := ToLeave(s, r.order);
            var reached := LeaveEach(Prepared(s, r.actor, r.order), r.actor, leaving[..i], r.openChores);
            0 < |Filter(reached.memberships, ActiveOthers(leaving[i], r.actor))|
  {
    hide Feasible, Run, Inv, ToLeave, LeaveEach, Prepared, Filter, ReadsForDeletion, SoleAdminAmongOthers;
    hide HasAdmin, ActiveIn, Enumerates;
    ReachableStatesAreConsistent(rs);
    var s := Run(EMPTY, rs);
    ValidatedChecksStillHold(s, r.actor, r.order, r.openChores, i);
    var h := ToLeave(s, r.order)[i];
    var reached := LeaveEach(Prepared(s, r.actor, r.order), r.actor, ToLeave(s, r.order)[..i], r.openChores);
    OthersAreRoster(reached.memberships, h, r.actor);
    HasAdminIffCounted(reached.memberships, h);
  }

  lemma OthersRemain(ms: seq<Membership>, h: Id, u: Id)
    requires AdminBesides(ms, h, u)
    ensures 0 < |Filter(ms, ActiveOthers(h, u))|
  {
    var i :| 0 <= i < |ms| && ActiveAdmins(h)(ms[i]) && ms[i].user != u;
    var k := FilterKeepsRow(ms, ActiveOthers(h, u), i);
  }

  /** No pending chore of a deleted series, and no open chore without its definition. */
  lemma PendingChoresHaveActiveDefinitions(rs: seq<Request>, id: Id)
    requires Feasible(EMPTY, rs) && id in Run(EMPTY, rs).instances
    ensures var s := Run(EMPTY, rs);
            var inst := s.instances[id];
            && inst.definition.Some? && inst.definition.value in s.definitions
            && s.definitions[inst.definition.value].household == inst.household
            && (inst.status == Pending ==> s.definitions[inst.definition.value].active)
  {
    hide Feasible, Run, MembershipsOk, AdminsOk, Served, PairsUnique, LedgerOk, ShapeOk;
    ReachableStatesAreConsistent(rs);
  }

  // ---------------------------------------------------------------------------
  // Points
  // ---------------------------------------------------------------------------

  /** The ledger's total for a household. */
  function LedgerTotal(ledger: seq<LedgerRow>, h: Id): int {
    if ledger == [] then 0
    else
      var row := ledger[|ledger| - 1];
      LedgerTotal(ledger[..|ledger| - 1], h) + if row.household == h then row.points else 0
  }

  function AwardedIn(instances: Instances, h: Id): set<Id> {
    set id | id in instances && IsAwarded(instances[id]) && instances[id].household == h
  }

  /** The points of the instances in `ids`, added up in any order. */
  ghost function PointsOf(instances: Instances, ids: set<Id>): int
    requires forall id :: id in ids ==> id in instances && instances[id].points.Some?
  {
    if ids == {} then 0
    else
      var id :| id in ids;
      instances[id].points.value + PointsOf(instances, ids - {id})
  }

  lemma {:induction false} PointsOfAny(instances: Instances, ids: set<Id>, x: Id)
    requires forall id :: id in ids ==> id in instances && instances[id].points.Some?
    requires x in ids
    ensures PointsOf(instances, ids) == instances[x].points.value + PointsOf(instances, ids - {x})
  {
    var id :| id in ids && PointsOf(instances, ids) == instances[id].points.value + PointsOf(instances, ids - {id});
    if id != x {
      PointsOfAny(instances, ids - {id}, x);
      PointsOfAny(instances, ids - {x}, id);
      assert ids - {id} - {x} == ids - {x} - {id};
    }
  }

  /** The instances of household `h` that the ledger records. */
  ghost function Recorded(ledger: seq<LedgerRow>, h: Id): set<Id> {
    set i | 0 <= i < |ledger| && ledger[i].household == h && ledger[i].instance.Some? :: ledger[i].instance.value
  }

  /** The part of the ledger invariant that concerns single rows. */
  ghost predicate RowsOk(ledger: seq<LedgerRow>, instances: Instances) {
    && (forall i :: 0 <= i < |ledger| ==> ledger[i].instance.Some? && RowOk(ledger[i], instances))
    && (forall i, j {:trigger SameInstance(ledger[i], ledger[j])} :: 0 <= i < j < |ledger| ==>
         !SameInstance(ledger[i], ledger[j]))
  }

  ghost predicate RowOk(row: LedgerRow, instances: Instances)
    requires row.instance.Some?
  {
    var id := row.instance.value;
    id in instances && instances[id].points == Some(row.points) && IsAwarded(instances[id])
      && instances[id].household == row.household
  }

  lemma RecordedAppend(front: seq<LedgerRow>, row: LedgerRow, h: Id)
    requires row.instance.Some? && forall i :: 0 <= i < |front| ==> !SameInstance(front[i], row)
    ensures Recorded(front + [row], h) == Recorded(front, h) + if row.household == h then {row.instance.value} else {}
    ensures row.instance.value !in Recorded(front, h)
  {
    var ledger := front + [row];
    forall id | id in Recorded(front, h) ensures id in Recorded(ledger, h) {
      var i :| 0 <= i < |front| && front[i].household == h && front[i].instance == Some(id);
      assert ledger[i] == front[i];
    }
    assert ledger[|front|] == row;
  }

  lemma RecordedHavePoints(ledger: seq<LedgerRow>, instances: Instances, h: Id)
    requires RowsOk(ledger, instances)
    ensures forall id :: id in Recorded(ledger, h) ==> id in instances && instances[id].points.Some?
  {
    forall id | id in Recorded(ledger, h) ensures id in instances && instances[id].points.Some? {
      var i :| 0 <= i < |ledger| && ledger[i].instance == Some(id);
      assert RowOk(ledger[i], instances);
    }
  }

  lemma {:induction false} LedgerTotalByInstances(ledger: seq<LedgerRow>, instances: Instances, h: Id)
    requires RowsOk(ledger, instances)
    ensures forall id :: id in Recorded(ledger, h) ==> id in instances && instances[id].points.Some?
    ensures LedgerTotal(ledger, h) == PointsOf(instances, Recorded(ledger, h))
  {
    RecordedHavePoints(ledger, instances, h);
    if ledger == [] {
      assert Recorded(ledger, h) == {};
    } else {
      var front, row := ledger[..|ledger| - 1], ledger[|ledger| - 1];
      assert ledger == front + [row];
      FrontRowsOk(ledger, instances);
      LedgerTotalByInstances(front, instances, h);
      RecordedAppend(front, row, h);
      hide RowsOk, PointsOf, Recorded;
      if row.household == h {
        var x := row.instance.value;
        assert Recorded(ledger, h) - {x} == Recorded(front, h);
        PointsOfAny(instances, Recorded(ledger, h), x);
      } else {
        assert Recorded(ledger, h) == Recorded(front, h);
      }
    }
  }

  lemma FrontRowsOk(ledger: seq<LedgerRow>, instances: Instances)
    requires ledger != [] && RowsOk(ledger, instances)
    ensures var front, row := ledger[..|ledger| - 1], ledger[|ledger| - 1];
            && RowsOk(front, instances) && row.instance.Some? && RowOk(row, instances)
            && forall i :: 0 <= i < |front| ==> !SameInstance(front[i], row)
  {
    var n := |ledger| - 1;
    var front, row := ledger[..n], ledger[n];
    forall i, j | 0 <= i < j < n ensures !SameInstance(front[i], front[j]) {
      assert !SameInstance(ledger[i], ledger[j]);
    }
    forall i | 0 <= i < n ensures !SameInstance(front[i], row) {
      assert !SameInstance(ledger[i], ledger[n]);
    }
  }

  lemma LedgerRowsOk(ledger: seq<LedgerRow>, instances: Instances)
    requires LedgerOk(ledger, instances)
    ensures RowsOk(ledger, instances)
  {
    forall i | 0 <= i < |ledger| ensures ledger[i].instance.Some? && RowOk(ledger[i], instances) {
      assert Records(ledger[i], instances[ledger[i].instance.value]);
    }
  }

  lemma RecordedIsAwarded(ledger: seq<LedgerRow>, instances: Instances, h: Id)
    requires LedgerOk(ledger, instances)
    ensures Recorded(ledger, h) == AwardedIn(instances, h)
  {
    forall id | id in AwardedIn(instances, h) ensures id in Recorded(ledger, h) {
      assert HasRow(ledger, id);
      var i :| 0 <= i < |ledger| && ledger[i].instance == Some(id);
      assert Records(ledger[i], instances[id]);
    }
  }

  /**
   Conservation of points: in every reachable state a household's ledger total is
   the sum of the points of its completed chores that still name an assignee.
   */
  lemma LedgerBalances(rs: seq<Request>, h: Id)
    requires Feasible(EMPTY, rs)
    ensures var s := Run(EMPTY, rs);
            && (forall id :: id in AwardedIn(s.instances, h) ==> id in s.instances && s.instances[id].points.Some?)
            && LedgerTotal(s.ledger, h) == PointsOf(s.instances, AwardedIn(s.instances, h))
  {
    hide Feasible, Run, MembershipsOk, AdminsOk, Served, PairsUnique, InstancesOk, LedgerOk, PointsOf, LedgerTotal;
    hide AwardedIn, Recorded;
    ReachableStatesAreConsistent(rs);
    var s := Run(EMPTY, rs);
    LedgerRowsOk(s.ledger, s.instances);
    LedgerTotalByInstances(s.ledger, s.instances, h);
    RecordedIsAwarded(s.ledger, s.instances, h);
  }

  /**
   Each instance has at most one ledger row, and has one exactly when it was completed
   and still names its assignee.
   */
  lemma LedgerRecordsEachAwardOnce(rs: seq<Request>, id: Id)
    requires Feasible(EMPTY, rs) && id in Run(EMPTY, rs).instances
    ensures var s := Run(EMPTY, rs);
            && (forall i, j :: 0 <= i < j < |s.ledger| ==>
                 !(s.ledger[i].instance == Some(id) && s.ledger[j].instance == Some(id)))
            && ((exists i ::
                   0 <= i < |s.ledger| && s.ledger[i].instance == Some(id) && Records(s.ledger[i], s.instances[id]))
                <==> s.instances[id].status == Complete && s.instances[id].assignee.Some?)
  {
    hide Feasible, Run, MembershipsOk, AdminsOk, Served, PairsUnique, PointersOk, InvitesOk, DefinitionsOk;
    ReachableStatesAreConsistent(rs);
    var s := Run(EMPTY, rs);
    assert ShapeOk(s.instances[id]);
    forall i, j | 0 <= i < j < |s.ledger|
      ensures !(s.ledger[i].instance == Some(id) && s.ledger[j].instance == Some(id))
    {
      assert !SameInstance(s.ledger[i], s.ledger[j]);
    }
    if IsAwarded(s.instances[id]) {
      assert HasRow(s.ledger, id);
      var i :| 0 <= i < |s.ledger| && s.ledger[i].instance == Some(id);
      assert Records(s.ledger[i], s.instances[id]);
    }
  }
}
