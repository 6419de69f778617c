/**
 What relates one state to the next, and what follows over whole runs: statuses
 only move forward, closed chores stay as they were closed, deleted series stay
 deleted, and no occurrence is lost.
 */
module History {
  import opened Types
  import opened Filtering
  import opened Rotation
  import opened Schema
  import opened Endpoints
  import opened DailyJob
  import opened Invariants
  import opened Deletion
  import opened JobTheorems
  import opened Runs

  predicate StatusMoves(a: Status, b: Status) {
    || a == b
    || (a == Pending && b != Pending)
    || (a == Overdue && b in {Complete, Dismissed})
  }

  /** The same chore later: identity kept, status moved forward, completion data frozen with it. */
  predicate Advances(a: Instance, b: Instance) {
    && a.definition == b.definition && a.household == b.household && a.due == b.due
    && StatusMoves(a.status, b.status)
    && (a.status == b.status ==> a.completedAt == b.completedAt && a.points == b.points)
  }

  ghost predicate InstancesEvolve(s: DB, s': DB) {
    && (forall id :: id in s.instances && id in s'.instances ==> Advances(s.instances[id], s'.instances[id]))
    && (forall id :: id in s.instances && id !in s'.instances ==> s.instances[id].household !in s'.households)
    && (forall id :: id in s'.instances && id !in s.instances ==> s.nextId <= id)
  }

  ghost predicate DefinitionsEvolve(s: DB, s': DB) {
    && (forall d :: d in s.definitions && d in s'.definitions ==>
         && s'.definitions[d].household == s.definitions[d].household
         && s'.definitions[d].firstDue == s.definitions[d].firstDue
         && s'.definitions[d].recurring == s.definitions[d].recurring
         && (s'.definitions[d].active ==> s.definitions[d].active))
    && (forall d :: d in s'.definitions && d !in s.definitions ==> s.nextId <= d)
  }

  ghost predicate InvitesEvolve(s: DB, s': DB) {
    && (forall i :: i in s.invites && i in s'.invites && s.invites[i].usedAt.Some? ==>
         s'.invites[i].usedAt == s.invites[i].usedAt)
    && (forall i :: i in s'.invites && i !in s.invites ==> s.nextId <= i)
  }

  ghost predicate Evolves(s: DB, s': DB) {
    s.nextId <= s'.nextId && InstancesEvolve(s, s') && DefinitionsEvolve(s, s') && InvitesEvolve(s, s')
  }

  // ---------------------------------------------------------------------------
  // One step
  // ---------------------------------------------------------------------------

  lemma AutoAssignTouchesPointerOnly(s: DB, h: Id)
    ensures AutoAssign(s, h).1 == s.(households := AutoAssign(s, h).1.households)
    ensures AutoAssign(s, h).1.households.Keys == s.households.Keys
  {
    hide Roster;
  }

  lemma UntouchedTables(s: DB, s': DB)
    ensures s'.instances == s.instances ==> InstancesEvolve(s, s')
    ensures s'.definitions == s.definitions ==> DefinitionsEvolve(s, s')
    ensures s'.invites == s.invites ==> InvitesEvolve(s, s')
  {
  }

  lemma OneInstanceAdvances(s: DB, s': DB, id: Id, inst: Instance)
    requires id in s.instances && Advances(s.instances[id], inst) && s'.instances == s.instances[id := inst]
    ensures InstancesEvolve(s, s')
  {
  }

  lemma OneInstanceAppears(s: DB, s': DB, id: Id, inst: Instance)
    requires id !in s.instances && s.nextId <= id && s'.instances == s.instances[id := inst]
    ensures InstancesEvolve(s, s')
  {
  }

  lemma OneDefinitionAppears(s: DB, s': DB, d: Id, def: Definition)
    requires d !in s.definitions && s.nextId <= d && s'.definitions == s.definitions[d := def]
    ensures DefinitionsEvolve(s, s')
  {
  }

  /** What creating a chore does to the tables that carry history. */
  lemma CreateChoreAdds(s: DB, actor: Id, h: Id, draft: Draft)
    requires CreateChore(s, actor, h, draft).1 == Done
    ensures var s' := CreateChore(s, actor, h, draft).0;
            && s'.nextId == s.nextId + 2 && s'.invites == s.invites
            && s.nextId in s'.definitions
            && s'.definitions == s.definitions[s.nextId := s'.definitions[s.nextId]]
            && s.nextId + 1 in s'.instances
            && s'.instances == s.instances[s.nextId + 1 := s'.instances[s.nextId + 1]]
  {
    hide RequireAdmin, AutoAssign, ActiveIn;
    var def := Definition(h, draft.effort, draft.recurring, draft.rule, draft.firstDue, true);
    AutoAssignTouchesPointerOnly(s.(definitions := s.definitions[s.nextId := def], nextId := s.nextId + 1), h);
    var s' := CreateChore(s, actor, h, draft).0;
    assert s'.definitions == s.definitions[s.nextId := def];
    assert s'.instances == s.instances[s.nextId + 1 := s'.instances[s.nextId + 1]];
  }

  lemma CreateChoreEvolves(s: DB, actor: Id, h: Id, draft: Draft)
    requires Inv(s)
    ensures Evolves(s, CreateChore(s, actor, h, draft).0)
  {
    KeysBelow(s);
    DefinitionKeysBelow(s);
    NothingChanges(s);
    var (s', outcome) := CreateChore(s, actor, h, draft);
    assert outcome != Done ==> s' == s;
    hide Inv, CreateChore, InstancesEvolve, InvitesEvolve, DefinitionsEvolve;
    if outcome == Done {
      CreateChoreAdds(s, actor, h, draft);
      UntouchedTables(s, s');
      OneDefinitionAppears(s, s', s.nextId, s'.definitions[s.nextId]);
      OneInstanceAppears(s, s', s.nextId + 1, s'.instances[s.nextId + 1]);
    }
  }

  lemma ClosingEvolves(s: DB, actor: Id, h: Id, id: Id, now: Time)
    ensures Evolves(s, CompleteChore(s, actor, h, id, now).0) && Evolves(s, DismissChore(s, actor, h, id, now).0)
  {
    hide TerminalGate, InstancesEvolve, DefinitionsEvolve, InvitesEvolve;
    var s1, s2 := CompleteChore(s, actor, h, id, now).0, DismissChore(s, actor, h, id, now).0;
    UntouchedTables(s, s1);
    UntouchedTables(s, s2);
    if TerminalGate(s, actor, h, id) == Done {
      OpenWhenGatePasses(s, actor, h, id);
      OneInstanceAdvances(s, s1, id, s1.instances[id]);
      OneInstanceAdvances(s, s2, id, s2.instances[id]);
    }
  }

  lemma ReassignEvolves(s: DB, actor: Id, h: Id, id: Id, assignee: Option<Id>)
    ensures Evolves(s, ReassignChore(s, actor, h, id, assignee).0)
  {
    hide RequireAdmin, AutoAssign, ActiveIn, InstancesEvolve, DefinitionsEvolve, InvitesEvolve;
    var (s', outcome) := ReassignChore(s, actor, h, id, assignee);
    UntouchedTables(s, s');
    AutoAssignTouchesPointerOnly(s, h);
    if outcome == Done {
      OneInstanceAdvances(s, s', id, s'.instances[id]);
    }
  }

  lemma OpenWhenGatePasses(s: DB, actor: Id, h: Id, id: Id)
    requires TerminalGate(s, actor, h, id) == Done
    ensures id in s.instances && (s.instances[id].status == Pending || s.instances[id].status == Overdue)
  {
    var status := s.instances[id].status;
    assert status.Pending? || status.Overdue? || Terminal(status);
  }

  lemma MembershipStepsEvolve(s: DB, r: Request)
    requires r.RegisterUser? || r.CreateHouseholdReq? || r.UpdateRoleReq?
    ensures Evolves(s, Step(s, r).0)
  {
    hide RequireAdmin, ActiveIn, CountAdmins, WithRole, InstancesEvolve, DefinitionsEvolve, InvitesEvolve;
    UntouchedTables(s, Step(s, r).0);
  }

  lemma CreateInviteEvolves(s: DB, actor: Id, h: Id, now: Time)
    requires Inv(s)
    ensures Evolves(s, CreateInvite(s, actor, h, now).0)
  {
    DefinitionKeysBelow(s);
    NothingChanges(s);
    hide Inv, RequireAdmin, InstancesEvolve, DefinitionsEvolve, InvitesEvolve, InvitesExpired;
    var (s', outcome) := CreateInvite(s, actor, h, now);
    UntouchedTables(s, s');
    if outcome == Done {
      InvitesReplaced(s, s', h, now, s'.invites[s.nextId]);
    }
  }

  lemma InvitesReplaced(s: DB, s': DB, h: Id, now: Time, invite: Invite)
    requires Below(s.invites.Keys, s.nextId)
    requires s'.invites == InvitesExpired(s.invites, h, now)[s.nextId := invite]
    ensures InvitesEvolve(s, s')
  {
  }

  lemma AcceptInviteEvolves(s: DB, actor: Id, token: Id, now: Time)
    ensures Evolves(s, AcceptInvite(s, actor, token, now).0)
  {
    hide ActiveIn, InstancesEvolve, DefinitionsEvolve;
    UntouchedTables(s, AcceptInvite(s, actor, token, now).0);
  }

  lemma RevokeInviteEvolves(s: DB, actor: Id, h: Id, token: Id, now: Time)
    ensures Evolves(s, RevokeInvite(s, actor, h, token, now).0)
  {
    hide RequireAdmin, InstancesEvolve, DefinitionsEvolve;
    UntouchedTables(s, RevokeInvite(s, actor, h, token, now).0);
  }

  lemma DefinitionStepsEvolve(s: DB, r: Request)
    requires r.UpdateDefinitionReq? || r.DeleteDefinitionReq?
    ensures Evolves(s, Step(s, r).0)
  {
    hide RequireAdmin, InvitesEvolve, InstancesEvolve, DefinitionsEvolve, PendingCancelled;
    var s' := Step(s, r).0;
    UntouchedTables(s, s');
    if s' != s {
      var d := r.definition;
      OneDefinitionRewritten(s, s', d, s'.definitions[d]);
      CancellingEvolves(s, s', d);
    }
  }

  lemma OneDefinitionRewritten(s: DB, s': DB, d: Id, def: Definition)
    requires d in s.definitions && s'.definitions == s.definitions[d := def]
    requires def == s.definitions[d].(effort := def.effort, rule := def.rule, active := def.active)
    requires def.active ==> s.definitions[d].active
    ensures DefinitionsEvolve(s, s')
  {
  }

  lemma CancellingEvolves(s: DB, s': DB, d: Id)
    ensures s'.instances == PendingCancelled(s.instances, d) ==> InstancesEvolve(s, s')
  {
  }

  /** Redistribution rewrites assignees and pointers only. */
  lemma RedistributionTouches(s: DB, h: Id, u: Id, rows: seq<Id>)
    ensures var s' := Redistributed(s, h, u, rows);
            && s' == s.(households := s'.households, instances := s'.instances)
            && s'.households.Keys == s.households.Keys
            && s'.instances.Keys == s.instances.Keys
            && forall id :: id in s.instances ==>
                 s'.instances[id] == s.instances[id].(assignee := s'.instances[id].assignee)
  {
    hide HandOver, Corrected, WithAssignees;
    var (dealt, s1) := HandOver(s, h, u, rows);
    HandOverTouches(s, h, u, rows);
    CorrectionTouches(s, s1.(instances := WithAssignees(s1.instances, dealt)), h, u);
    AssigneesTouched(s.instances, dealt);
  }

  lemma HandOverTouches(s: DB, h: Id, u: Id, rows: seq<Id>)
    ensures var s1 := HandOver(s, h, u, rows).1;
            s1 == s.(households := s1.households) && s1.households.Keys == s.households.Keys
  {
    hide Roster, Deal, Filter;
  }

  lemma CorrectionTouches(before: DB, now: DB, h: Id, u: Id)
    ensures var s1 := Corrected(before, now, h, u);
            s1 == now.(households := s1.households) && s1.households.Keys == now.households.Keys
  {
    hide RemovedIndex, Filter, CorrectedPointer;
  }

  lemma AssigneesTouched(instances: Instances, dealt: Assignments)
    ensures var after := WithAssignees(instances, dealt);
            && after.Keys == instances.Keys
            && forall id :: id in instances ==> after[id] == instances[id].(assignee := after[id].assignee)
  {
  }

  lemma {:induction false} LeaveEachTouches(s: DB, u: Id, hs: seq<Id>, rows: map<Id, seq<Id>>)
    ensures var s' := LeaveEach(s, u, hs, rows);
            && s' == s.(households := s'.households, instances := s'.instances)
            && s'.households.Keys == s.households.Keys
            && s'.instances.Keys == s.instances.Keys
            && forall id :: id in s.instances ==>
                 s'.instances[id] == s.instances[id].(assignee := s'.instances[id].assignee)
  {
    hide Redistributed;
    if hs != [] {
      var h, front := hs[|hs| - 1], hs[..|hs| - 1];
      LeaveEachTouches(s, u, front, rows);
      RedistributionTouches(LeaveEach(s, u, front, rows), h, u, if h in rows then rows[h] else []);
    }
  }

  lemma LeavingEvolves(s: DB, h: Id, u: Id, rows: seq<Id>)
    ensures Evolves(s, MemberLeaves(s, h, u, rows))
  {
    hide Redistributed, Deactivated;
    RedistributionTouches(s.(memberships := Deactivated(s.memberships, {h}, u)), h, u, rows);
  }

  lemma CascadeEvolves(s: DB, hs: set<Id>)
    requires Inv(s)
    ensures Evolves(s, DeleteHouseholds(s, hs))
  {
    hide InstancesEvolve, DefinitionsEvolve, InvitesEvolve, Inv, DeleteHouseholds, InstancesOutside;
    hide DefinitionsOutside;
    CascadeLeavesNoDanglingRows(s, hs);
    CascadeKeepsRest(s, hs);
    var s' := DeleteHouseholds(s, hs);
    RowsOutsideEvolve(s, s', hs);
  }

  lemma CascadeKeepsRest(s: DB, hs: set<Id>)
    ensures var s' := DeleteHouseholds(s, hs);
            && s'.nextId == s.nextId && (forall h :: h in hs ==> h !in s'.households)
            && InvitesEvolve(s, s')
  {
    hide Filter, ForgetInstances;
  }

  lemma RowsOutsideEvolve(s: DB, s': DB, hs: set<Id>)
    requires s'.instances == InstancesOutside(s.instances, hs)
        && s'.definitions == DefinitionsOutside(s.definitions, hs)
    requires forall h :: h in hs ==> h !in s'.households
    ensures InstancesEvolve(s, s') && DefinitionsEvolve(s, s')
  {
  }

  lemma DeletionEvolves(s: DB, actor: Id, order: seq<Id>, rows: map<Id, seq<Id>>)
    requires Inv(s)
    ensures Evolves(s, DeleteAccount(s, actor, order, rows).0)
  {
    hide Inv, DeleteHouseholds, Deactivated, LeaveEach, ToLeave, ToDelete, SoleAdminAmongOthers, Filter;
    var (s', outcome) := DeleteAccount(s, actor, order, rows);
    if outcome == Done {
      var doomed := AsSet(ToDelete(s, order));
      CascadeEvolves(s, doomed);
      LeaveEachTouches(Prepared(s, actor, order), actor, ToLeave(s, order), rows);
    }
  }

  lemma JobEvolves(s: DB, order: seq<Id>, today: Day)
    requires Inv(s) && forall d :: d in order ==> d in s.definitions
    ensures Evolves(s, RunDailyJob(s, order, today))
  {
    KeysBelow(s);
    hide Inv, FillSlots, Slots;
    SlotsKnown(s.definitions, order, today);
    FillSlotsExtends(s, Slots(s.definitions, order, today));
    FillSlotsFresh(s, Slots(s.definitions, order, today));
    FlaggingEvolves(s, Generated(s, order, today), today);
  }

  /** Tables that only gained instances, after flagging. */
  lemma FlaggingEvolves(s: DB, s1: DB, today: Day)
    requires s1.definitions == s.definitions && s1.invites == s.invites && s.nextId <= s1.nextId
    requires Extends(s.instances, s1.instances)
    requires forall id :: id in s1.instances && id !in s.instances ==> s.nextId <= id
    ensures Evolves(s, Flagged(s1, today))
  {
    hide DefinitionsEvolve, InvitesEvolve;
    UntouchedTables(s, Flagged(s1, today));
  }

  lemma {:induction false} FillSlotsFresh(s: DB, slots: seq<Slot>)
    requires forall slot :: slot in slots ==> slot.definition in s.definitions
    ensures s.nextId <= FillSlots(s, slots).nextId
    ensures forall id :: id in FillSlots(s, slots).instances && id !in s.instances ==> s.nextId <= id
    ensures FillSlots(s, slots).households.Keys == s.households.Keys
  {
    if slots != [] {
      FillSlotsFresh(s, slots[..|slots| - 1]);
      var s1 := FillSlots(s, slots[..|slots| - 1]);
      AutoAssignTouchesPointerOnly(s1, s.definitions[slots[|slots| - 1].definition].household);
    }
  }

  lemma StepEvolves(s: DB, r: Request)
    requires Inv(s) && Fits(s, r)
    ensures Evolves(s, Step(s, r).0)
  {
    hide Inv, RunDailyJob, DeleteHouseholds, MemberLeaves, DeleteAccount, Enumerates, ActiveIn, CountAdmins;
    hide RequireAdmin, RequireMember, Evolves;
    NothingChanges(s);
    match r
    case DeleteHouseholdReq(_, h, _) => CascadeEvolves(s, {h});
    case RemoveMemberReq(_, h, target, rows) => LeavingEvolves(s, h, target, rows);
    case LeaveReq(actor, h, rows) => LeavingEvolves(s, h, actor, rows);
    case DeleteAccountReq(actor, order, rows) => DeletionEvolves(s, actor, order, rows);
    case DailyJobReq(order, today) =>
      if forall d :: d in order ==> d in s.definitions {
        JobEvolves(s, order, today);
      }
    case CreateChoreReq(actor, h, draft) => CreateChoreEvolves(s, actor, h, draft);
    case CompleteReq(actor, h, id, now) => ClosingEvolves(s, actor, h, id, now);
    case DismissReq(actor, h, id, now) => ClosingEvolves(s, actor, h, id, now);
    case ReassignReq(actor, h, id, assignee) => ReassignEvolves(s, actor, h, id, assignee);
    case CreateInviteReq(actor, h, now) => CreateInviteEvolves(s, actor, h, now);
    case AcceptInviteReq(actor, token, now) => AcceptInviteEvolves(s, actor, token, now);
    case RevokeInviteReq(actor, h, token, now) => RevokeInviteEvolves(s, actor, h, token, now);
    case UpdateDefinitionReq(_, _, _, _) => DefinitionStepsEvolve(s, r);
    case DeleteDefinitionReq(_, _, _) => DefinitionStepsEvolve(s, r);
    case _ => MembershipStepsEvolve(s, r);
  }

  lemma NothingChanges(s: DB)
    ensures Evolves(s, s)
  {
  }

  // ---------------------------------------------------------------------------
  // Status over whole runs
  // ---------------------------------------------------------------------------

  function Rank(status: Status): nat {
    match status
    case Pending => 0
    case Overdue => 1
    case _ => 2
  }

  /** How far an instance id has come: not yet issued, pending, overdue, closed or gone. */
  function Progress(s: DB, id: Id): nat {
    if id in s.instances then Rank(s.instances[id].status)
    else if id < s.nextId then 2
    else 0
  }

  predicate ChangesStatus(s: DB, s': DB, id: Id) {
    id in s.instances && id in s'.instances && s.instances[id].status != s'.instances[id].status
  }

  function StatusChanges(s: DB, rs: seq<Request>, id: Id): nat {
    if rs == [] then 0
    else
      var before := Run(s, rs[..|rs| - 1]);
      StatusChanges(s, rs[..|rs| - 1], id) + if ChangesStatus(before, Step(before, rs[|rs| - 1]).0, id) then 1 else 0
  }

  lemma ProgressRises(s: DB, s': DB, id: Id)
    requires Evolves(s, s') && Below(s.instances.Keys, s.nextId)
    ensures Progress(s, id) + (if ChangesStatus(s, s', id) then 1 else 0) <= Progress(s', id)
  {
    hide DefinitionsEvolve, InvitesEvolve;
  }

  lemma {:induction false} ProgressOverRuns(s: DB, rs: seq<Request>, id: Id)
    requires Inv(s) && Feasible(s, rs)
    ensures Progress(s, id) + StatusChanges(s, rs, id) <= Progress(Run(s, rs), id)
  {
    hide Inv, Step, Fits, Evolves, Progress, ChangesStatus;
    if rs != [] {
      var front, last := rs[..|rs| - 1], rs[|rs| - 1];
      ProgressOverRuns(s, front, id);
      RunKeepsInv(s, front);
      var before := Run(s, front);
      StepEvolves(before, last);
      KeysBelow(before);
      ProgressRises(before, Step(before, last).0, id);
    }
  }

  /** In any run each instance changes status at most twice. */
  lemma AtMostTwoStatusChanges(rs: seq<Request>, id: Id)
    requires Feasible(EMPTY, rs)
    ensures StatusChanges(EMPTY, rs, id) <= 2
  {
    hide Feasible, Run, StatusChanges;
    ProgressOverRuns(EMPTY, rs, id);
  }

  /** `later` closed as `inst` was, or gone together with its household. */
  ghost predicate ClosedAs(s: DB, id: Id, inst: Instance) {
    if id in s.instances
    then s.instances[id].status == inst.status && s.instances[id].completedAt == inst.completedAt
         && s.instances[id].points == inst.points
    else id < s.nextId
  }

  lemma ClosedStep(s: DB, s': DB, id: Id, inst: Instance)
    requires Evolves(s, s') && Below(s.instances.Keys, s.nextId) && Terminal(inst.status) && ClosedAs(s, id, inst)
    ensures ClosedAs(s', id, inst)
  {
    hide DefinitionsEvolve, InvitesEvolve;
  }

  /** Once closed, always closed: status, completion time and points never change again. */
  lemma {:induction false} ClosedStaysClosed(s: DB, rs: seq<Request>, id: Id)
    requires Inv(s) && Feasible(s, rs) && id in s.instances && Terminal(s.instances[id].status)
    ensures ClosedAs(Run(s, rs), id, s.instances[id])
  {
    hide Inv, Step, Fits, Evolves, Terminal;
    if rs != [] {
      var front, last := rs[..|rs| - 1], rs[|rs| - 1];
      ClosedStaysClosed(s, front, id);
      RunKeepsInv(s, front);
      KeysBelow(Run(s, front));
      StepEvolves(Run(s, front), last);
      ClosedStep(Run(s, front), Run(s, rs), id, s.instances[id]);
    }
  }

  /** Once a definition is deleted, no later state has a pending instance of it. */
  lemma {:induction false} DeletedSeriesStaysQuiet(s: DB, rs: seq<Request>, d: Id, id: Id)
    requires Inv(s) && Feasible(s, rs) && d in s.definitions && !s.definitions[d].active
    ensures var s' := Run(s, rs);
            id in s'.instances && s'.instances[id].definition == Some(d) ==> s'.instances[id].status != Pending
  {
    InactiveStaysInactive(s, rs, d);
    RunKeepsInv(s, rs);
    hide Run, Feasible, MembershipsOk, AdminsOk, PairsUnique, Served, LedgerOk, KeysOk, ShapeOk;
    if id in Run(s, rs).instances {
      assert InstanceOk(Run(s, rs).instances[id], Run(s, rs).definitions, Run(s, rs).users, Run(s, rs).households.Keys);
    }
  }

  lemma {:induction false} InactiveStaysInactive(s: DB, rs: seq<Request>, d: Id)
    requires Inv(s) && Feasible(s, rs) && d in s.definitions && !s.definitions[d].active
    ensures var s' := Run(s, rs); d < s'.nextId && (d in s'.definitions ==> !s'.definitions[d].active)
  {
    DefinitionKeysBelow(s);
    hide Inv, Step, Fits, InstancesEvolve, InvitesEvolve;
    if rs != [] {
      var front, last := rs[..|rs| - 1], rs[|rs| - 1];
      InactiveStaysInactive(s, front, d);
      RunKeepsInv(s, front);
      StepEvolves(Run(s, front), last);
    }
  }

  lemma DefinitionKeysBelow(s: DB)
    requires Inv(s)
    ensures Below(s.definitions.Keys, s.nextId) && Below(s.invites.Keys, s.nextId)
  {
  }

  /** An invite is redeemed at most once, even if the household is deleted in between. */
  lemma {:induction false} InviteIsSingleUse(s: DB, rs: seq<Request>, token: Id, actor: Id, now: Time)
    requires Inv(s) && Feasible(s, rs) && token in s.invites && s.invites[token].usedAt.Some?
    ensures AcceptInvite(Run(s, rs), actor, token, now).1 in {Gone, Unauthorized}
  {
    UsedStaysUsed(s, rs, token);
  }

  lemma {:induction false} UsedStaysUsed(s: DB, rs: seq<Request>, token: Id)
    requires Inv(s) && Feasible(s, rs) && token in s.invites && s.invites[token].usedAt.Some?
    ensures var s' := Run(s, rs); token < s'.nextId && (token in s'.invites ==> s'.invites[token].usedAt.Some?)
  {
    DefinitionKeysBelow(s);
    hide Inv, Step, Fits, InstancesEvolve, DefinitionsEvolve;
    if rs != [] {
      var front, last := rs[..|rs| - 1], rs[|rs| - 1];
      UsedStaysUsed(s, front, token);
      RunKeepsInv(s, front);
      StepEvolves(Run(s, front), last);
    }
  }
}
