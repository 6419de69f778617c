/**
 Fairness of the rotation over runs of requests: while a household's roster stays
 as it is, the members chosen automatically are the consecutive turns, whatever
 else is requested in between.
 */
module TurnTaking {
  import opened Types
  import opened Filtering
  import opened Rotation
  import opened Schema
  import opened Endpoints
  import opened DailyJob
  import opened Invariants
  import opened Tables
  import opened Preservation
  import opened Deletion
  import opened JobTheorems
  import opened Runs
  import opened History
  import Scheduler

  // ---------------------------------------------------------------------------
  // What the rotation chose
  // ---------------------------------------------------------------------------

  /** The assignees of `ids`, in that order. */
  function Assigned(instances: Instances, ids: seq<Id>): seq<Id> {
    if ids == [] then []
    else
      var id := ids[|ids| - 1];
      Assigned(instances, ids[..|ids| - 1])
      + if id in instances && instances[id].assignee.Some? then [instances[id].assignee.value] else []
  }

  /** The instances of `h` among the `n` ids from `base`, in order of creation. */
  function IdsOf(instances: Instances, base: Id, n: nat, h: Id): seq<Id> {
    if n == 0 then []
    else
      var id := base + n - 1;
      IdsOf(instances, base, n - 1, h) + if id in instances && instances[id].household == h then [id] else []
  }

  /** Whom one request assigned in `h` without being told whom, in order. */
  function AutoPicks(s: DB, r: Request, h: Id): seq<Id> {
    var (s', outcome) := Step(s, r);
    if outcome != Done then []
    else
      match r
      case CreateChoreReq(_, x, draft) =>
        if x == h && draft.assignee.None? then Assigned(s'.instances, [s.nextId + 1]) else []
      case ReassignReq(_, x, id, assignee) => if x == h && assignee.None? then Assigned(s'.instances, [id]) else []
      case DailyJobReq(_, _) =>
        if s.nextId > s'.nextId then []
        else Assigned(s'.instances, IdsOf(s'.instances, s.nextId, s'.nextId - s.nextId, h))
      case _ => []
  }

  function AutoPicksOver(s: DB, rs: seq<Request>, h: Id): seq<Id> {
    if rs == [] then []
    else AutoPicksOver(s, rs[..|rs| - 1], h) + AutoPicks(Run(s, rs[..|rs| - 1]), rs[|rs| - 1], h)
  }

  ghost predicate RosterStays(s: DB, rs: seq<Request>, h: Id, roster: seq<Id>) {
    && Roster(Run(s, rs).memberships, h) == roster
    && (rs == [] || RosterStays(s, rs[..|rs| - 1], h, roster))
  }

  /** `picks` are the turns between the two pointers. */
  ghost predicate TakesTurns(s: DB, s': DB, h: Id, roster: seq<Id>, picks: seq<Id>)
    requires roster != []
  {
    && h in s.households && h in s'.households
    && picks == Picks(roster, s.households[h].pointer, |picks|)
    && s'.households[h].pointer == s.households[h].pointer + |picks|
  }

  // ---------------------------------------------------------------------------
  // One request
  // ---------------------------------------------------------------------------

  lemma PointerUntouched(s: DB, s': DB, h: Id, roster: seq<Id>)
    requires roster != [] && h in s.households && h in s'.households
    requires s'.households[h].pointer == s.households[h].pointer
    ensures TakesTurns(s, s', h, roster, [])
  {
  }

  lemma RosterHasHousehold(s: DB, h: Id)
    requires Inv(s) && Roster(s.memberships, h) != []
    ensures h in s.households
  {
    hide Inv, Roster;
    RosterIsActiveMembers(s.memberships, h);
    MemberHouseholdExists(s, h, Roster(s.memberships, h)[0]);
  }

  lemma OneTurn(s: DB, h: Id)
    requires h in s.households && Roster(s.memberships, h) != []
    ensures var (user, s') := AutoAssign(s, h);
            var roster := Roster(s.memberships, h);
            user.Some? && TakesTurns(s, s', h, roster, [user.value])
  {
    hide Roster, Turn, AutoAssign;
    Scheduler.AutoAssignEffect(s, h);
    var roster, P := Roster(s.memberships, h), s.households[h].pointer;
    assert Picks(roster, P, 1) == Picks(roster, P, 0) + [Turn(roster, P + 0)];
  }

  lemma CreationTakesATurn(s: DB, actor: Id, h: Id, draft: Draft, x: Id)
    requires x in s.households && Roster(s.memberships, x) != []
    ensures var r := CreateChoreReq(actor, h, draft);
            TakesTurns(s, Step(s, r).0, x, Roster(s.memberships, x), AutoPicks(s, r, x))
  {
    hide RequireAdmin, ActiveIn, AutoAssign, Roster, TakesTurns;
    var roster := Roster(s.memberships, x);
    var s' := CreateChore(s, actor, h, draft).0;
    var def := Definition(h, draft.effort, draft.recurring, draft.rule, draft.firstDue, true);
    var s1 := s.(definitions := s.definitions[s.nextId := def], nextId := s.nextId + 1);
    Scheduler.AutoAssignEffect(s1, h);
    if CreateChore(s, actor, h, draft).1 == Done && draft.assignee.None? && x == h {
      OneTurn(s1, h);
      var user := AutoAssign(s1, h).0;
      assert s'.instances[s.nextId + 1].assignee == user;
      AssignedOne(s'.instances, s.nextId + 1);
      assert AutoPicks(s, CreateChoreReq(actor, h, draft), x) == [user.value];
      SameHouseholds(s1, s, AutoAssign(s1, h).1, s', h, roster, [user.value]);
    } else {
      PointerUntouched(s, s', x, roster);
    }
  }

  lemma AssignedOne(instances: Instances, id: Id)
    requires id in instances && instances[id].assignee.Some?
    ensures Assigned(instances, [id]) == [instances[id].assignee.value]
  {
    assert [id][..0] == [];
  }

  lemma AssignedAppend(instances: Instances, ids: seq<Id>, id: Id)
    requires id in instances && instances[id].assignee.Some?
    ensures Assigned(instances, ids + [id]) == Assigned(instances, ids) + [instances[id].assignee.value]
  {
    assert (ids + [id])[..|ids|] == ids;
  }

  lemma SameHouseholds(a: DB, b: DB, a': DB, b': DB, h: Id, roster: seq<Id>, picks: seq<Id>)
    requires a.households == b.households && a'.households == b'.households
    requires roster != [] && TakesTurns(a, a', h, roster, picks)
    ensures TakesTurns(b, b', h, roster, picks)
  {
  }

  lemma ReassignmentTakesATurn(s: DB, actor: Id, h: Id, id: Id, assignee: Option<Id>, x: Id)
    requires x in s.households && Roster(s.memberships, x) != []
    ensures var r := ReassignReq(actor, h, id, assignee);
            TakesTurns(s, Step(s, r).0, x, Roster(s.memberships, x), AutoPicks(s, r, x))
  {
    hide RequireAdmin, ActiveIn, AutoAssign, Roster, TakesTurns;
    var roster := Roster(s.memberships, x);
    var s' := ReassignChore(s, actor, h, id, assignee).0;
    Scheduler.AutoAssignEffect(s, h);
    if ReassignChore(s, actor, h, id, assignee).1 == Done && assignee.None? && x == h {
      OneTurn(s, h);
      var user := AutoAssign(s, h).0;
      assert s'.instances[id].assignee == user;
      AssignedOne(s'.instances, id);
      assert AutoPicks(s, ReassignReq(actor, h, id, assignee), x) == [user.value];
      SameHouseholds(s, s, AutoAssign(s, h).1, s', h, roster, [user.value]);
    } else {
      PointerUntouched(s, s', x, roster);
    }
  }

  // ---------------------------------------------------------------------------
  // The job
  // ---------------------------------------------------------------------------

  /** The j-th slot has its instance, assigned as the closed form says. */
  ghost predicate Instantiated(s: DB, slots: seq<Slot>, instances: Instances, j: nat)
    requires j < |slots|
  {
    && s.nextId + j in instances
    && instances[s.nextId + j].household == Scheduler.HouseholdOf(s.definitions, slots[j])
    && instances[s.nextId + j].assignee == Scheduler.AssigneeOf(s, slots, j)
  }

  lemma {:induction false} NewInstancesTakeTurns(s: DB, slots: seq<Slot>, instances: Instances, h: Id, m: nat)
    requires m <= |slots| && h in s.households && Roster(s.memberships, h) != []
    requires forall j: nat :: j < |slots| ==> Instantiated(s, slots, instances, j)
    ensures var ids := IdsOf(instances, s.nextId, m, h);
            && ids == Scheduler.IdsFor(s.definitions, slots[..m], s.nextId, h)
            && Assigned(instances, ids) == Picks(Roster(s.memberships, h), s.households[h].pointer, |ids|)
  {
    hide Roster, Turn, Assigned, Picks, Scheduler.HouseholdOf, Scheduler.IdsFor, Scheduler.AssigneeOf;
    if m > 0 {
      var j := m - 1;
      NewInstancesTakeTurns(s, slots, instances, h, j);
      assert Instantiated(s, slots, instances, j);
      assert slots[..m] == slots[..j] + [slots[j]];
      Scheduler.IdsForAppend(s.definitions, slots[..j], slots[j], s.nextId, h);
      var ids := IdsOf(instances, s.nextId, j, h);
      if instances[s.nextId + j].household == h {
        NextInstanceTakesTurn(s, slots, instances, h, j, ids);
        assert IdsOf(instances, s.nextId, m, h) == ids + [s.nextId + j];
      } else {
        assert IdsOf(instances, s.nextId, m, h) == ids;
      }
    } else {
      NoTurnsTaken(s, slots, instances, h);
    }
  }

  lemma NoTurnsTaken(s: DB, slots: seq<Slot>, instances: Instances, h: Id)
    requires h in s.households && Roster(s.memberships, h) != []
    ensures Scheduler.IdsFor(s.definitions, slots[..0], s.nextId, h) == [] && Assigned(instances, []) == []
    ensures Picks(Roster(s.memberships, h), s.households[h].pointer, 0) == []
  {
    hide Roster;
  }

  lemma NextInstanceTakesTurn(s: DB, slots: seq<Slot>, instances: Instances, h: Id, j: nat, ids: seq<Id>)
    requires h in s.households && Roster(s.memberships, h) != []
    requires j < |slots| && Instantiated(s, slots, instances, j) && Scheduler.HouseholdOf(s.definitions, slots[j]) == h
    requires ids == Scheduler.IdsFor(s.definitions, slots[..j], s.nextId, h)
    requires Assigned(instances, ids) == Picks(Roster(s.memberships, h), s.households[h].pointer, |ids|)
    ensures Assigned(instances, ids + [s.nextId + j])
         == Picks(Roster(s.memberships, h), s.households[h].pointer, |ids| + 1)
  {
    hide Roster, Turn, Assigned, Scheduler.HouseholdOf, Scheduler.IdsFor;
    AssignedAppend(instances, ids, s.nextId + j);
  }

  lemma JobTakesTurns(s: DB, order: seq<Id>, today: Day, h: Id)
    requires Inv(s) && Enumerates(order, ActiveDefinitions(s.definitions))
    requires h in s.households && Roster(s.memberships, h) != []
    ensures var r := DailyJobReq(order, today);
            TakesTurns(s, Step(s, r).0, h, Roster(s.memberships, h), AutoPicks(s, r, h))
  {
    hide Inv, FillSlots, Slots, Roster, Below, Assigned, IdsOf, TakesTurns, Flagged, Scheduler.FilledFor;
    hide Scheduler.PointerFor, Scheduler.AssigneeOf, Scheduler.IdsFor;
    Scheduler.KnownDefinitions(s.definitions, order);
    KeysBelow(s);
    SlotsKnown(s.definitions, order, today);
    var slots := Scheduler.FreshSlots(s.instances, Slots(s.definitions, order, today));
    var s1 := Generated(s, order, today);
    Scheduler.FillSlotsClosedForm(s, Slots(s.definitions, order, today));
    JobTakesTurnsFor(s, slots, s1, today, h);
    assert Step(s, DailyJobReq(order, today)).0 == Flagged(s1, today);
  }

  lemma JobTakesTurnsFor(s: DB, slots: seq<Slot>, s1: DB, today: Day, h: Id)
    requires Scheduler.FilledFor(s, slots, s1, Scheduler.Everyone())
    requires h in s.households && Roster(s.memberships, h) != []
    ensures var s' := Flagged(s1, today);
            && s.nextId <= s'.nextId
            && TakesTurns(s, s', h, Roster(s.memberships, h),
                          Assigned(s'.instances, IdsOf(s'.instances, s.nextId, s'.nextId - s.nextId, h)))
  {
    hide Roster, Scheduler.AssigneeOf, Scheduler.IdsFor, Scheduler.HouseholdOf, Turn;
    var s' := Flagged(s1, today);
    forall j: nat | j < |slots| ensures Instantiated(s, slots, s'.instances, j) {
      assert s1.instances[s.nextId + j] == Scheduler.NewInstance(s, slots[j], Scheduler.AssigneeOf(s, slots, j));
    }
    NewInstancesTakeTurns(s, slots, s'.instances, h, |slots|);
    assert slots[..|slots|] == slots;
  }

  // ---------------------------------------------------------------------------
  // The requests that choose nobody
  // ---------------------------------------------------------------------------

  lemma CorrectionIsLocal(before: DB, now: DB, h: Id, u: Id, x: Id)
    requires x != h && x in now.households
    ensures x in Corrected(before, now, h, u).households
    ensures Corrected(before, now, h, u).households[x] == now.households[x]
  {
    hide RemovedIndex, Filter, CorrectedPointer;
  }

  lemma RedistributionMovesOnePointer(s: DB, h: Id, u: Id, rows: seq<Id>, x: Id)
    requires x != h && x in s.households
    ensures x in Redistributed(s, h, u, rows).households
    ensures Redistributed(s, h, u, rows).households[x] == s.households[x]
  {
    hide Corrected, Roster, Filter, Deal, WithAssignees;
    var (dealt, s1) := HandOver(s, h, u, rows);
    CorrectionIsLocal(s, s1.(instances := WithAssignees(s1.instances, dealt)), h, u, x);
  }

  lemma {:induction false} LeaveEachMovesTheirPointers(s: DB, u: Id, hs: seq<Id>, rows: map<Id, seq<Id>>, x: Id)
    requires x !in hs && x in s.households
    ensures x in LeaveEach(s, u, hs, rows).households
    ensures LeaveEach(s, u, hs, rows).households[x] == s.households[x]
  {
    hide Redistributed;
    if hs != [] {
      var h, front := hs[|hs| - 1], hs[..|hs| - 1];
      LeaveEachMovesTheirPointers(s, u, front, rows, x);
      RedistributionMovesOnePointer(LeaveEach(s, u, front, rows), h, u, if h in rows then rows[h] else [], x);
    }
  }

  /** Whoever was deactivated is off the roster, so the roster did not stay. */
  lemma DepartureChangesRoster(ms: seq<Membership>, hs: set<Id>, h: Id, u: Id)
    requires ActiveIn(ms, h, u) && h in hs
    ensures Roster(Deactivated(ms, hs, u), h) != Roster(ms, h)
  {
    RosterIsActiveMembers(ms, h);
    RosterIsActiveMembers(Deactivated(ms, hs, u), h);
    DeactivationKeepsActive(ms, hs, u);
    hide Roster, Deactivated;
    assert u in Roster(ms, h);
  }

  lemma DepartureTakesNoTurn(s: DB, h: Id, u: Id, rows: seq<Id>, x: Id)
    requires ActiveIn(s.memberships, h, u) && x in s.households
    requires Roster(MemberLeaves(s, h, u, rows).memberships, x) == Roster(s.memberships, x) != []
    ensures TakesTurns(s, MemberLeaves(s, h, u, rows), x, Roster(s.memberships, x), [])
  {
    hide Redistributed, Roster, Deactivated, ActiveIn;
    var s1 := s.(memberships := Deactivated(s.memberships, {h}, u));
    RedistributionTouches(s1, h, u, rows);
    if x == h {
      DepartureChangesRoster(s.memberships, {h}, h, u);
    }
    RedistributionMovesOnePointer(s1, h, u, rows, x);
  }

  lemma AccountDeletionTakesNoTurn(s: DB, actor: Id, order: seq<Id>, rows: map<Id, seq<Id>>, x: Id)
    requires Inv(s) && ReadsForDeletion(s, actor, order, rows) && x in s.households && Roster(s.memberships, x) != []
    requires Roster(DeleteAccount(s, actor, order, rows).0.memberships, x) == Roster(s.memberships, x)
    ensures TakesTurns(s, DeleteAccount(s, actor, order, rows).0, x, Roster(s.memberships, x), [])
  {
    hide Inv, Roster, Deactivated, LeaveEach, ToLeave, ToDelete, SoleAdminAmongOthers, Filter, ActiveIn, SoleMember;
    var (s', outcome) := DeleteAccount(s, actor, order, rows);
    if outcome == Done {
      HouseholdsOfMeans(s.memberships, actor);
      ValidatePassSplits(s, order);
      RosterIsActiveMembers(s.memberships, x);
      RosterIsActiveMembers(s'.memberships, x);
      GoneAfterDeletion(s, actor, order, rows, x);
      assert x !in order;
      LeaveEachMovesTheirPointers(Prepared(s, actor, order), actor, ToLeave(s, order), rows, x);
    }
  }

  lemma GoneAfterDeletion(s: DB, actor: Id, order: seq<Id>, rows: map<Id, seq<Id>>, x: Id)
    requires DeleteAccount(s, actor, order, rows).1 == Done
    ensures !ActiveIn(DeleteAccount(s, actor, order, rows).0.memberships, x, actor)
  {
    hide DeleteHouseholds, LeaveEach, ToLeave, ToDelete, SoleAdminAmongOthers, Filter, Deactivated;
    var last := LeaveEach(Prepared(s, actor, order), actor, ToLeave(s, order), rows);
    var kept := Filter(last.memberships, OfOtherUsers(actor));
    FilterMembers(last.memberships, OfOtherUsers(actor));
    forall i | 0 <= i < |kept| ensures kept[i].user != actor {
      assert kept[i] in kept;
    }
  }

  lemma OthersTakeNoTurn(s: DB, r: Request, h: Id)
    requires || r.RegisterUser? || r.CreateHouseholdReq? || r.DeleteHouseholdReq? || r.CreateInviteReq?
        || r.AcceptInviteReq?
             || r.RevokeInviteReq? || r.UpdateRoleReq? || r.CompleteReq? || r.DismissReq? || r.UpdateDefinitionReq?
             || r.DeleteDefinitionReq?
    requires h in s.households && h in Step(s, r).0.households && h < s.nextId
    ensures Step(s, r).0.households[h] == s.households[h]
  {
    hide RequireAdmin, RequireMember, TerminalGate, ActiveIn, CountAdmins, WithRole, InvitesExpired;
    hide PendingCancelled, Filter;
  }

  lemma DeparturesTakeNoTurn(s: DB, r: Request, h: Id)
    requires Inv(s) && Fits(s, r) && (r.RemoveMemberReq? || r.LeaveReq? || r.DeleteAccountReq?)
    requires h in s.households && Roster(Step(s, r).0.memberships, h) == Roster(s.memberships, h) != []
    ensures TakesTurns(s, Step(s, r).0, h, Roster(s.memberships, h), [])
  {
    hide Inv, Roster, ActiveIn, AdminIn, TakesTurns, MemberLeaves, DeleteAccount, CountAdmins, Enumerates;
    hide ReadsForDeletion, OpenChores;
    PointerUntouched(s, s, h, Roster(s.memberships, h));
    if Step(s, r).1 == Done {
      match r
      case RemoveMemberReq(_, x, u, rows) => DepartureTakesNoTurn(s, x, u, rows, h);
      case LeaveReq(u, x, rows) => DepartureTakesNoTurn(s, x, u, rows, h);
      case DeleteAccountReq(actor, order, rows) => AccountDeletionTakesNoTurn(s, actor, order, rows, h);
    } else {
      FailuresChangeNothing(s, r);
    }
  }

  /** While the roster stays, a request takes exactly the turns it hands out. */
  lemma StepTakesTurns(s: DB, r: Request, h: Id)
    requires Inv(s) && Fits(s, r)
    requires Roster(Step(s, r).0.memberships, h) == Roster(s.memberships, h) != []
    ensures TakesTurns(s, Step(s, r).0, h, Roster(s.memberships, h), AutoPicks(s, r, h))
  {
    hide Inv, Roster, TakesTurns, Step, Assigned, IdsOf, Enumerates, ReadsForDeletion, OpenChores;
    hide ActiveDefinitions, JoinsLast;
    StepKeepsInv(s, r);
    RosterHasHousehold(s, h);
    RosterHasHousehold(Step(s, r).0, h);
    KeyIsBelow(s, h);
    match r
    case RemoveMemberReq(_, _, _, _) => DeparturesTakeNoTurn(s, r, h);
    case LeaveReq(_, _, _) => DeparturesTakeNoTurn(s, r, h);
    case DeleteAccountReq(_, _, _) => DeparturesTakeNoTurn(s, r, h);
    case CreateChoreReq(actor, x, draft) => CreationTakesATurn(s, actor, x, draft, h);
    case ReassignReq(actor, x, id, assignee) => ReassignmentTakesATurn(s, actor, x, id, assignee, h);
    case DailyJobReq(order, today) => JobTakesTurns(s, order, today, h);
    case _ =>
      OthersTakeNoTurn(s, r, h);
      PointerUntouched(s, Step(s, r).0, h, Roster(s.memberships, h));
  }

  lemma KeyIsBelow(s: DB, h: Id)
    requires Inv(s) && h in s.households
    ensures h < s.nextId
  {
  }

  // ---------------------------------------------------------------------------
  // Whole runs
  // ---------------------------------------------------------------------------

  /**
   While the roster of `h` stays, everybody assigned automatically over the run is
   the next in turn, and the pointer counts them; manual assignments and every
   other request neither take nor skip a turn.
   */
  lemma {:induction false} RunTakesTurns(s: DB, rs: seq<Request>, h: Id)
    requires Inv(s) && Feasible(s, rs)
    requires Roster(s.memberships, h) != [] && RosterStays(s, rs, h, Roster(s.memberships, h))
    ensures TakesTurns(s, Run(s, rs), h, Roster(s.memberships, h), AutoPicksOver(s, rs, h))
  {
    hide Inv, Step, Fits, Roster, AutoPicks;
    if rs != [] {
      var front, last := rs[..|rs| - 1], rs[|rs| - 1];
      RunTakesTurns(s, front, h);
      RunKeepsInv(s, front);
      StepTakesTurns(Run(s, front), last, h);
      PicksConcatenate(Roster(s.memberships, h), s.households[h].pointer,
                       |AutoPicksOver(s, front, h)|, |AutoPicks(Run(s, front), last, h)|);
    } else {
      RosterHasHousehold(s, h);
    }
  }

  /** Over any such run, every block of k consecutive choices gives each of the n members k/n, rounded down or up. */
  lemma RequestsAreServedFairly(s: DB, rs: seq<Request>, h: Id, from: nat, k: nat, u: Id)
    requires Inv(s) && Feasible(s, rs) && ActiveIn(s.memberships, h, u)
    requires RosterStays(s, rs, h, Roster(s.memberships, h)) && from + k <= |AutoPicksOver(s, rs, h)|
    ensures var n := |Roster(s.memberships, h)|;
            var block := AutoPicksOver(s, rs, h)[from..from + k];
            && 0 < n
            && k / n <= multiset(block)[u] <= (k + n - 1) / n
  {
    hide Inv, Roster, ActiveIn, AutoPicksOver, RosterStays, Feasible, Picks;
    var roster := Roster(s.memberships, h);
    RosterIsActiveMembers(s.memberships, h);
    RosterIsDistinct(s, h);
    RunTakesTurns(s, rs, h);
    WindowOfPicks(roster, s.households[h].pointer, |AutoPicksOver(s, rs, h)|, from, k);
    Fairness(roster, s.households[h].pointer + from, k, u);
  }

  lemma RosterIsDistinct(s: DB, h: Id)
    requires Inv(s)
    ensures Distinct(Roster(s.memberships, h))
  {
    hide Roster, Distinct;
    RosterInJoiningOrder(s.memberships, s.users, s.households.Keys, h);
  }
}
