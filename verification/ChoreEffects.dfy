/** When each request about chores is accepted, and what has happened once it is. */
module ChoreEffects {
  import opened Types
  import opened Rotation
  import opened Schema
  import opened Endpoints
  import opened DailyJob
  import opened Invariants
  import opened Preservation
  import opened JobTheorems
  import opened Runs
  import opened History
  import opened Causes
  import opened Effects
  import Scheduler

  // ---------------------------------------------------------------------------
  // Who is assigned
  // ---------------------------------------------------------------------------

  /** The named user; or, when nobody is named, whoever's turn it is. */
  ghost predicate AssignedTo(s: DB, h: Id, named: Option<Id>, assignee: Option<Id>) {
    if named.Some? then assignee == named
    else
      && h in s.households && Roster(s.memberships, h) != []
      && assignee == Some(Roster(s.memberships, h)[s.households[h].pointer % |Roster(s.memberships, h)|])
  }

  /** The pointers stand, except that an unnamed assignment takes one turn in `h`. */
  ghost predicate PointersAfter(s: DB, s': DB, h: Id, named: Option<Id>) {
    && s'.households.Keys == s.households.Keys
    && forall x :: x in s.households ==>
         s'.households[x].name == s.households[x].name
         && s'.households[x].pointer
            == s.households[x].pointer + if x == h && named.None? then 1 else 0
  }

  lemma SomebodyIsNext(s: DB, h: Id)
    requires Inv(s) && h in s.households
    ensures Roster(s.memberships, h) != []
  {
    hide MembershipsOk, DefinitionsOk, InstancesOk, PairsUnique, Served, LedgerOk, InvitesOk, PointersOk, KeysOk;
    HasAdminIffCounted(s.memberships, h);
    hide Roster;
  }

  lemma TurnTaken(s: DB, h: Id)
    requires h in s.households && Roster(s.memberships, h) != []
    ensures var (user, s') := AutoAssign(s, h);
            && AssignedTo(s, h, None, user) && PointersAfter(s, s', h, None)
            && s' == s.(households := s'.households)
  {
    hide Roster, AutoAssign;
    Scheduler.AutoAssignEffect(s, h);
  }

  lemma NoTurnTaken(s: DB, h: Id, user: Id)
    ensures AssignedTo(s, h, Some(user), Some(user)) && PointersAfter(s, s, h, Some(user))
  {
    hide Roster;
  }

  lemma AdminHousehold(s: DB, actor: Id, h: Id)
    requires Inv(s) && RequireAdmin(s, actor, h) == Done
    ensures h in s.households
  {
    hide Inv, AdminIn, ActiveIn;
    MemberHouseholdExists(s, h, actor);
  }

  // ---------------------------------------------------------------------------
  // Creating and reassigning
  // ---------------------------------------------------------------------------

  lemma CreateChoreAccepted(s: DB, actor: Id, h: Id, draft: Draft)
    requires Inv(s)
    ensures Step(s, CreateChoreReq(actor, h, draft)).1 == Done <==>
            && AdminIn(s.memberships, h, actor)
            && (draft.recurring ==> draft.rule.Some?)
            && (draft.assignee.Some? ==> ActiveIn(s.memberships, h, draft.assignee.value))
  {
    hide Inv, RequireAdmin, AdminIn, ActiveIn, AutoAssign;
    AdminGate(s, actor, h);
  }

  /** One definition and its first pending chore, given to the named member or whoever's turn it is. */
  lemma CreateChoreEffect(s: DB, actor: Id, h: Id, draft: Draft)
    requires Inv(s) && Step(s, CreateChoreReq(actor, h, draft)).1 == Done
    ensures var s' := Step(s, CreateChoreReq(actor, h, draft)).0;
            var d, id := s.nextId, s.nextId + 1;
            && d !in s.definitions && id !in s.instances && id in s'.instances
            && s'.definitions == s.definitions[
                 d := Definition(h, draft.effort, draft.recurring, draft.rule, draft.firstDue, true)]
            && s'.instances == s.instances[id := s'.instances[id]]
            && s'.instances[id] == Instance(Some(d), h, s'.instances[id].assignee, draft.assignee.Some?,
                                            draft.firstDue, Pending, None, None)
            && AssignedTo(s, h, draft.assignee, s'.instances[id].assignee)
            && PointersAfter(s, s', h, draft.assignee)
            && s' == s.(households := s'.households, definitions := s'.definitions, instances := s'.instances,
                        nextId := s'.nextId)
  {
    hide Inv, RequireAdmin, ActiveIn, AutoAssign, AssignedTo, PointersAfter;
    KeysAreNew(s);
    AdminHousehold(s, actor, h);
    SomebodyIsNext(s, h);
    var def := Definition(h, draft.effort, draft.recurring, draft.rule, draft.firstDue, true);
    var s1 := s.(definitions := s.definitions[s.nextId := def], nextId := s.nextId + 1);
    if draft.assignee.Some? {
      NoTurnTaken(s, h, draft.assignee.value);
      SamePointers(s, s, s, Step(s, CreateChoreReq(actor, h, draft)).0, h, draft.assignee, draft.assignee);
    } else {
      TurnTaken(s1, h);
      var (user, s2) := AutoAssign(s1, h);
      SamePointers(s1, s2, s, Step(s, CreateChoreReq(actor, h, draft)).0, h, None, user);
    }
  }

  /** Who is assigned and how the pointers move depends on households and memberships only. */
  lemma SamePointers(a: DB, a': DB, b: DB, b': DB, h: Id, named: Option<Id>, user: Option<Id>)
    requires a.households == b.households && a.memberships == b.memberships && a'.households == b'.households
    requires AssignedTo(a, h, named, user) && PointersAfter(a, a', h, named)
    ensures AssignedTo(b, h, named, user) && PointersAfter(b, b', h, named)
  {
    hide Roster;
  }

  lemma KeysAreNew(s: DB)
    requires Inv(s)
    ensures s.nextId !in s.definitions && s.nextId + 1 !in s.instances
  {
    hide MembershipsOk, AdminsOk, DefinitionsOk, InstancesOk, PairsUnique, Served, LedgerOk, InvitesOk, PointersOk;
  }

  predicate IsOpen(inst: Instance) {
    inst.status == Pending || inst.status == Overdue
  }

  lemma ReassignAccepted(s: DB, actor: Id, h: Id, id: Id, assignee: Option<Id>)
    requires Inv(s)
    ensures Step(s, ReassignReq(actor, h, id, assignee)).1 == Done <==>
            && AdminIn(s.memberships, h, actor)
            && id in s.instances && s.instances[id].household == h && IsOpen(s.instances[id])
            && (assignee.Some? ==> ActiveIn(s.memberships, h, assignee.value))
  {
    hide Inv, RequireAdmin, AdminIn, ActiveIn, AutoAssign;
    AdminGate(s, actor, h);
    if id in s.instances {
      OwnHousehold(s, id);
      OpenOrTerminal(s.instances[id].status);
    }
  }

  lemma OpenOrTerminal(status: Status)
    ensures Terminal(status) <==> !(status == Pending || status == Overdue)
  {
    assert status.Pending? || status.Overdue? || status.Complete? || status.Cancelled? || status.Dismissed?;
  }

  /** Only the assignee and the manual mark of this chore change. */
  lemma ReassignEffect(s: DB, actor: Id, h: Id, id: Id, assignee: Option<Id>)
    requires Inv(s) && Step(s, ReassignReq(actor, h, id, assignee)).1 == Done
    ensures var s' := Step(s, ReassignReq(actor, h, id, assignee)).0;
            && id in s.instances && id in s'.instances
            && s'.instances == s.instances[id := s'.instances[id]]
            && s'.instances[id]
               == s.instances[id].(assignee := s'.instances[id].assignee, manual := assignee.Some?)
            && AssignedTo(s, h, assignee, s'.instances[id].assignee)
            && PointersAfter(s, s', h, assignee)
            && s' == s.(households := s'.households, instances := s'.instances)
  {
    hide Inv, RequireAdmin, ActiveIn, AutoAssign, AssignedTo, PointersAfter;
    AdminHousehold(s, actor, h);
    SomebodyIsNext(s, h);
    var s' := Step(s, ReassignReq(actor, h, id, assignee)).0;
    if assignee.Some? {
      NoTurnTaken(s, h, assignee.value);
      SamePointers(s, s, s, s', h, assignee, assignee);
    } else {
      TurnTaken(s, h);
      SamePointers(s, AutoAssign(s, h).1, s, s', h, None, AutoAssign(s, h).0);
    }
  }

  // ---------------------------------------------------------------------------
  // Closing
  // ---------------------------------------------------------------------------

  /** An open chore of the household, and the caller a member who is its assignee or an admin. */
  ghost predicate MayBeClosedBy(s: DB, actor: Id, h: Id, id: Id) {
    && ActiveIn(s.memberships, h, actor)
    && id in s.instances && s.instances[id].household == h && IsOpen(s.instances[id])
    && (s.instances[id].assignee == Some(actor) || AdminIn(s.memberships, h, actor))
  }

  lemma ClosingGate(s: DB, actor: Id, h: Id, id: Id)
    requires Inv(s)
    ensures TerminalGate(s, actor, h, id) == Done <==> MayBeClosedBy(s, actor, h, id)
    ensures TerminalGate(s, actor, h, id) == NotFound <==>
            ActiveIn(s.memberships, h, actor) && (id in s.instances ==> s.instances[id].household != h)
    ensures TerminalGate(s, actor, h, id) == Conflict <==>
            && ActiveIn(s.memberships, h, actor)
            && id in s.instances && s.instances[id].household == h && !IsOpen(s.instances[id])
            && (s.instances[id].assignee == Some(actor) || AdminIn(s.memberships, h, actor))
  {
    hide Inv, RequireMember, AdminIn, ActiveIn;
    MemberGate(s, actor, h);
    if id in s.instances {
      OwnHousehold(s, id);
      OpenOrTerminal(s.instances[id].status);
    }
  }

  lemma ClosingAccepted(s: DB, actor: Id, h: Id, id: Id, now: Time)
    requires Inv(s)
    ensures Step(s, CompleteReq(actor, h, id, now)).1 == Done <==> MayBeClosedBy(s, actor, h, id)
    ensures Step(s, DismissReq(actor, h, id, now)).1 == Done <==> MayBeClosedBy(s, actor, h, id)
  {
    hide Inv, TerminalGate, MayBeClosedBy;
    ClosingGate(s, actor, h, id);
  }

  /** 10, 25 or 50 points for an easy, medium or hard chore, to its assignee, once; nothing else changes. */
  lemma CompleteEffect(s: DB, actor: Id, h: Id, id: Id, now: Time)
    requires Inv(s) && Step(s, CompleteReq(actor, h, id, now)).1 == Done
    ensures var s' := Step(s, CompleteReq(actor, h, id, now)).0;
            && id in s.instances && s.instances[id].assignee.Some?
            && s.instances[id].definition.Some? && s.instances[id].definition.value in s.definitions
            && var effort := s.definitions[s.instances[id].definition.value].effort;
               var points := if effort.Easy? then 10 else if effort.Medium? then 25 else 50;
               && s'.instances
                  == s.instances[
                       id := s.instances[id].(status := Complete, completedAt := Some(now), points := Some(points))]
               && s'.ledger == s.ledger + [LedgerRow(h, s.instances[id].assignee.value, Some(id), points, now)]
               && s' == s.(instances := s'.instances, ledger := s'.ledger)
  {
    hide Inv, MayBeClosedBy;
    ClosingAccepted(s, actor, h, id, now);
    WhoMayClose(s, actor, h, id);
    OwnHousehold(s, id);
    OpenIsAssigned(s, id);
    hide TerminalGate;
  }

  lemma WhoMayClose(s: DB, actor: Id, h: Id, id: Id)
    requires MayBeClosedBy(s, actor, h, id)
    ensures id in s.instances && s.instances[id].status in {Pending, Overdue} && s.instances[id].household == h
  {
  }

  lemma DismissEffect(s: DB, actor: Id, h: Id, id: Id, now: Time)
    requires Inv(s) && Step(s, DismissReq(actor, h, id, now)).1 == Done
    ensures var s' := Step(s, DismissReq(actor, h, id, now)).0;
            && id in s.instances
            && s' == s.(instances := s.instances[
                          id := s.instances[id].(status := Dismissed, completedAt := Some(now), points := None)])
  {
    hide Inv, MayBeClosedBy;
    ClosingAccepted(s, actor, h, id, now);
    WhoMayClose(s, actor, h, id);
    hide TerminalGate;
  }

  // ---------------------------------------------------------------------------
  // Definitions
  // ---------------------------------------------------------------------------

  lemma UpdateDefinitionAccepted(s: DB, actor: Id, h: Id, d: Id, edit: Edit)
    requires Inv(s)
    ensures Step(s, UpdateDefinitionReq(actor, h, d, edit)).1 == Done <==>
            && AdminIn(s.memberships, h, actor)
            && d in s.definitions && s.definitions[d].household == h && s.definitions[d].active
  {
    hide Inv, RequireAdmin, AdminIn;
    AdminGate(s, actor, h);
  }

  /** The given fields of this definition have the given values; everything else, chores included, is as it was. */
  lemma UpdateDefinitionEffect(s: DB, actor: Id, h: Id, d: Id, edit: Edit)
    requires Step(s, UpdateDefinitionReq(actor, h, d, edit)).1 == Done
    ensures var s' := Step(s, UpdateDefinitionReq(actor, h, d, edit)).0;
            && d in s.definitions && d in s'.definitions
            && s' == s.(definitions := s.definitions[d := s'.definitions[d]])
            && var before, after := s.definitions[d], s'.definitions[d];
               && after == before.(effort := after.effort, rule := after.rule)
               && (edit.effort.Some? ==> after.effort == edit.effort.value)
               && (edit.effort.None? ==> after.effort == before.effort)
               && (edit.rule.Some? ==> after.rule == edit.rule.value)
               && (edit.rule.None? ==> after.rule == before.rule)
  {
    hide RequireAdmin;
  }

  lemma DeleteDefinitionAccepted(s: DB, actor: Id, h: Id, d: Id)
    requires Inv(s)
    ensures Step(s, DeleteDefinitionReq(actor, h, d)).1 == Done <==>
            AdminIn(s.memberships, h, actor) && d in s.definitions && s.definitions[d].household == h
  {
    hide Inv, RequireAdmin, AdminIn, PendingCancelled;
    AdminGate(s, actor, h);
  }

  /** The definition is inactive, exactly its pending chores are cancelled, and nothing else changes. */
  lemma DeleteDefinitionEffect(s: DB, actor: Id, h: Id, d: Id)
    requires Step(s, DeleteDefinitionReq(actor, h, d)).1 == Done
    ensures var s' := Step(s, DeleteDefinitionReq(actor, h, d)).0;
            && d in s.definitions
            && s'.definitions == s.definitions[d := s.definitions[d].(active := false)]
            && s'.instances.Keys == s.instances.Keys
            && (forall id :: id in s.instances ==>
                 var inst := s.instances[id];
                 s'.instances[id] == inst.(status := s'.instances[id].status)
                 && (inst.definition == Some(d) && inst.status == Pending ==> s'.instances[id].status == Cancelled)
                 && (inst.definition != Some(d) || inst.status != Pending ==> s'.instances[id] == inst))
            && s' == s.(definitions := s'.definitions, instances := s'.instances)
  {
    hide RequireAdmin;
  }

  // ---------------------------------------------------------------------------
  // The job
  // ---------------------------------------------------------------------------

  /** A chore as generation makes it: of an active definition, for its household, assigned, nothing completed. */
  ghost predicate FreshlyGenerated(s: DB, today: Day, inst: Instance) {
    && inst.definition.Some? && inst.definition.value in s.definitions
    && s.definitions[inst.definition.value].active && s.definitions[inst.definition.value].recurring
    && inst.household == s.definitions[inst.definition.value].household
    && inst.assignee.Some? && !inst.manual && inst.completedAt.None? && inst.points.None?
    && inst.status == if inst.due < today then Overdue else Pending
  }

  /**
   What the job does: of the chores there were, exactly the pending ones past due
   become overdue; the new ones are freshly generated; no table but the chores changes,
   besides the pointers.
   */
  lemma JobEffect(s: DB, order: seq<Id>, today: Day)
    requires Inv(s) && Fits(s, DailyJobReq(order, today))
    ensures var (s', outcome) := Step(s, DailyJobReq(order, today));
            && outcome == Done
            && s' == s.(households := s'.households, instances := s'.instances, nextId := s'.nextId)
            && (forall id :: id in s.instances ==> id in s'.instances)
            && (forall id :: id in s.instances ==>
                 s'.instances[id] == s.instances[id].(
                   status := if s.instances[id].status == Pending && s.instances[id].due < today then Overdue
                             else s.instances[id].status))
            && (forall id :: id in s'.instances && id !in s.instances ==> FreshlyGenerated(s, today, s'.instances[id]))
  {
    hide Inv, FillSlots, Slots, Below, FreshlyGenerated, Scheduler.FilledFor;
    Scheduler.KnownDefinitions(s.definitions, order);
    KeysBelow(s);
    SlotsKnown(s.definitions, order, today);
    var slots := Slots(s.definitions, order, today);
    var s1 := FillSlots(s, slots);
    Scheduler.FillSlotsClosedForm(s, slots);
    FilledExtends(s, Scheduler.FreshSlots(s.instances, slots), s1);
    var s' := Step(s, DailyJobReq(order, today)).0;
    assert s' == Flagged(s1, today);
    forall id | id in s'.instances && id !in s.instances ensures FreshlyGenerated(s, today, s'.instances[id]) {
      NewChoreIsGenerated(s, order, today, id);
    }
  }

  lemma FilledExtends(s: DB, slots: seq<Slot>, s1: DB)
    requires Scheduler.FilledFor(s, slots, s1, Scheduler.Everyone())
    ensures s1 == s.(households := s1.households, instances := s1.instances, nextId := s1.nextId)
    ensures forall id :: id in s.instances ==> id in s1.instances && s1.instances[id] == s.instances[id]
  {
    hide Scheduler.PointersMoved, Scheduler.AssigneeOf, Scheduler.NewInstance;
  }

  lemma {:induction false} FreshSlotsAreSlots(instances: Instances, slots: seq<Slot>)
    ensures forall slot :: slot in Scheduler.FreshSlots(instances, slots) ==> slot in slots
  {
    hide PairExists;
    if slots != [] {
      var front, last := slots[..|slots| - 1], slots[|slots| - 1];
      FreshSlotsAreSlots(instances, front);
      assert slots == front + [last];
    }
  }

  lemma NewChoreIsGenerated(s: DB, order: seq<Id>, today: Day, id: Id)
    requires Inv(s) && Fits(s, DailyJobReq(order, today))
    requires var s' := Step(s, DailyJobReq(order, today)).0; id in s'.instances && id !in s.instances
    ensures FreshlyGenerated(s, today, Step(s, DailyJobReq(order, today)).0.instances[id])
  {
    hide Inv, FillSlots, Slots, Below, Scheduler.PointersMoved, Scheduler.AssigneeOf, Scheduler.FreshSlots, PairExists;
    Scheduler.KnownDefinitions(s.definitions, order);
    KeysBelow(s);
    SlotsKnown(s.definitions, order, today);
    var slots := Slots(s.definitions, order, today);
    var created := Scheduler.FreshSlots(s.instances, slots);
    var s1 := FillSlots(s, slots);
    Scheduler.FillSlotsClosedForm(s, slots);
    FreshSlotsAreSlots(s.instances, slots);
    var s' := Step(s, DailyJobReq(order, today)).0;
    assert s' == Flagged(s1, today);
    var j: nat := id - s.nextId;
    assert s1.instances[s.nextId + j]
        == Scheduler.NewInstance(s, created[j], Scheduler.AssigneeOf(s, created, j));
    assert created[j] in slots;
    assert created[j].definition in ActiveDefinitions(s.definitions);
    StepKeepsInv(s, DailyJobReq(order, today));
    OpenIsAssigned(s', id);
  }

  // ---------------------------------------------------------------------------
  // Branches that consistent tables never take
  // ---------------------------------------------------------------------------

  /** Completing a chore that has lost its assignee closes it without points. */
  lemma CompletingUnassignedAwardsNothing(s: DB, actor: Id, h: Id, id: Id, now: Time)
    requires id in s.instances && s.instances[id].assignee.None?
    requires Step(s, CompleteReq(actor, h, id, now)).1 == Done
    ensures Step(s, CompleteReq(actor, h, id, now)).0
         == s.(instances := s.instances[
                 id := s.instances[id].(status := Complete, completedAt := Some(now), points := None)])
  {
    hide TerminalGate;
  }

  /** A chore whose definition is gone can be neither closed nor reassigned. */
  lemma OrphansStay(s: DB, actor: Id, h: Id, id: Id, now: Time, assignee: Option<Id>)
    requires id in s.instances
    requires s.instances[id].definition.None? || s.instances[id].definition.value !in s.definitions
    ensures Step(s, CompleteReq(actor, h, id, now)).1 != Done
    ensures Step(s, DismissReq(actor, h, id, now)).1 != Done
    ensures Step(s, ReassignReq(actor, h, id, assignee)).1 != Done
  {
    hide RequireMember, RequireAdmin, AdminIn, ActiveIn, AutoAssign;
  }
}
