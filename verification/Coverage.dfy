/** Over whole runs: which occurrences of a series exist, and that regular jobs lose none. */
module Coverage {
  import opened Types
  import opened Schema
  import opened Endpoints
  import opened DailyJob
  import opened Invariants
  import opened Deletion
  import opened JobTheorems
  import opened Runs
  import opened History

  /** Requests other than the job add instances only together with their definition. */
  ghost predicate AddsOnlyWithDefinition(s: DB, s': DB) {
    forall id :: id in s'.instances && id !in s.instances ==>
      s'.instances[id].definition.Some? && s.nextId <= s'.instances[id].definition.value
  }

  lemma OnlyCreationAdds(s: DB, r: Request)
    requires Inv(s) && Fits(s, r) && !r.DailyJobReq?
    ensures AddsOnlyWithDefinition(s, Step(s, r).0)
  {
    if r.CreateChoreReq? {
      CreationAddsBoth(s, r.actor, r.household, r.draft);
    } else {
      OthersAddNothing(s, r);
    }
  }

  lemma CreationAddsBoth(s: DB, actor: Id, h: Id, draft: Draft)
    ensures AddsOnlyWithDefinition(s, CreateChore(s, actor, h, draft).0)
  {
    hide RequireAdmin, AutoAssign, ActiveIn;
    var def := Definition(h, draft.effort, draft.recurring, draft.rule, draft.firstDue, true);
    AutoAssignTouchesPointerOnly(s.(definitions := s.definitions[s.nextId := def], nextId := s.nextId + 1), h);
  }

  lemma OthersAddNothing(s: DB, r: Request)
    requires Inv(s) && !r.DailyJobReq? && !r.CreateChoreReq?
    ensures forall id :: id in Step(s, r).0.instances ==> id in s.instances
  {
    hide Inv, RequireAdmin, RequireMember, AutoAssign, TerminalGate, ActiveIn, CountAdmins, AdminIn;
    hide DeleteHouseholds, MemberLeaves, DeleteAccount, WithRole, InvitesExpired;
    match r
    case DeleteHouseholdReq(_, h, _) => CascadeAddsNothing(s, {h});
    case RemoveMemberReq(_, h, u, rows) => LeavingAddsNothing(s, h, u, rows);
    case LeaveReq(u, h, rows) => LeavingAddsNothing(s, h, u, rows);
    case DeleteAccountReq(actor, order, rows) => DeletionAddsNothing(s, actor, order, rows);
    case ReassignReq(_, h, _, _) => AutoAssignTouchesPointerOnly(s, h);
    case CompleteReq(actor, h, id, _) => ClosedChoreExists(s, actor, h, id);
    case DismissReq(actor, h, id, _) => ClosedChoreExists(s, actor, h, id);
    case _ =>
  }

  lemma ClosedChoreExists(s: DB, actor: Id, h: Id, id: Id)
    ensures TerminalGate(s, actor, h, id) == Done ==> id in s.instances
  {
  }

  lemma CascadeAddsNothing(s: DB, hs: set<Id>)
    ensures forall id :: id in DeleteHouseholds(s, hs).instances ==> id in s.instances
  {
  }

  lemma LeavingAddsNothing(s: DB, h: Id, u: Id, rows: seq<Id>)
    ensures MemberLeaves(s, h, u, rows).instances.Keys == s.instances.Keys
  {
    hide Redistributed;
    RedistributionTouches(s.(memberships := Deactivated(s.memberships, {h}, u)), h, u, rows);
  }

  lemma DeletionAddsNothing(s: DB, actor: Id, order: seq<Id>, rows: map<Id, seq<Id>>)
    ensures forall id :: id in DeleteAccount(s, actor, order, rows).0.instances ==> id in s.instances
  {
    hide DeleteHouseholds, LeaveEach, SoleAdminAmongOthers, ToLeave, ToDelete;
    CascadeAddsNothing(s, AsSet(ToDelete(s, order)));
    LeaveEachTouches(Prepared(s, actor, order), actor, ToLeave(s, order), rows);
  }

  /** While its definition exists, an occurrence neither disappears nor appears outside the job. */
  lemma OccurrencesAreStable(s: DB, r: Request, d: Id, x: Day)
    requires Inv(s) && Fits(s, r) && !r.DailyJobReq?
    requires d in s.definitions && d in Step(s, r).0.definitions
    ensures PairExists(Step(s, r).0.instances, d, x) <==> PairExists(s.instances, d, x)
  {
    var s' := Step(s, r).0;
    StepEvolves(s, r);
    StepKeepsInv(s, r);
    OnlyCreationAdds(s, r);
    DefinitionKeysBelow(s);
    assert s.definitions[d].household in s'.households;
    hide Step, Fits, Inv;
    if PairExists(s.instances, d, x) {
      var id :| id in s.instances && s.instances[id].definition == Some(d) && s.instances[id].due == x;
      OccurrenceHousehold(s, id, d);
      assert id in s'.instances;
    }
    if PairExists(s'.instances, d, x) {
      var id :| id in s'.instances && s'.instances[id].definition == Some(d) && s'.instances[id].due == x;
      assert id in s.instances;
    }
  }

  lemma OccurrenceHousehold(s: DB, id: Id, d: Id)
    requires Inv(s) && id in s.instances && s.instances[id].definition == Some(d)
    ensures d in s.definitions && s.instances[id].household == s.definitions[d].household
  {
    hide MembershipsOk, AdminsOk, PairsUnique, Served, LedgerOk, KeysOk, ShapeOk;
  }

  predicate CoversDay(r: Request, x: Day) {
    r.DailyJobReq? && r.today - GRACE_DAYS <= x <= r.today + DAYS_AHEAD
  }

  /** Request i of the run is a job whose window holds `x` while `x` is a date of the definition's series. */
  ghost predicate Fills(s: DB, rs: seq<Request>, i: nat, d: Id, x: Day)
    requires i < |rs|
  {
    var definitions := Run(s, rs[..i]).definitions;
    CoversDay(rs[i], x) && d in definitions && SeriesDate(definitions[d], x)
  }

  ghost predicate SomeJobFills(s: DB, rs: seq<Request>, d: Id, x: Day) {
    exists i: nat :: i < |rs| && Fills(s, rs, i, d, x)
  }

  lemma SomeJobFillsAppend(s: DB, rs: seq<Request>, d: Id, x: Day)
    requires rs != []
    ensures SomeJobFills(s, rs, d, x) <==> SomeJobFills(s, rs[..|rs| - 1], d, x) || Fills(s, rs, |rs| - 1, d, x)
  {
    hide Run, SeriesDate, CoversDay;
    var front := rs[..|rs| - 1];
    forall i: nat | i < |front| ensures Fills(s, front, i, d, x) == Fills(s, rs, i, d, x) {
      assert front[..i] == rs[..i];
    }
  }

  /** A definition that is gone never comes back. */
  lemma DefinitionWasThere(s: DB, rs: seq<Request>, d: Id)
    requires Inv(s) && Feasible(s, rs) && rs != [] && d in s.definitions && d in Run(s, rs).definitions
    ensures d in Run(s, rs[..|rs| - 1]).definitions
  {
    hide Inv, Step, Fits, InstancesEvolve, InvitesEvolve;
    var front := rs[..|rs| - 1];
    RunKeepsInv(s, front);
    StepEvolves(Run(s, front), rs[|rs| - 1]);
    KeyStaysBelow(s, front, d);
  }

  lemma {:induction false} KeyStaysBelow(s: DB, rs: seq<Request>, d: Id)
    requires Inv(s) && Feasible(s, rs) && d in s.definitions
    ensures d < Run(s, rs).nextId
  {
    DefinitionKeysBelow(s);
    hide Inv, Step, Fits, InstancesEvolve, DefinitionsEvolve, InvitesEvolve;
    if rs != [] {
      var front := rs[..|rs| - 1];
      KeyStaysBelow(s, front, d);
      RunKeepsInv(s, front);
      StepEvolves(Run(s, front), rs[|rs| - 1]);
    }
  }

  /**
   Exactly which occurrences exist after any run at the end of which the
   definition still exists: those from before, and the dates that some job found
   in its window while they belonged to the series as it then was.
   */
  lemma {:induction false} OccurrencesAfterRun(s: DB, rs: seq<Request>, d: Id, x: Day)
    requires Inv(s) && Feasible(s, rs) && d in s.definitions && d in Run(s, rs).definitions
    ensures PairExists(Run(s, rs).instances, d, x) <==> PairExists(s.instances, d, x) || SomeJobFills(s, rs, d, x)
  {
    hide Inv, PairExists, SeriesDate, RunDailyJob, Fits;
    if rs != [] {
      var front, last := rs[..|rs| - 1], rs[|rs| - 1];
      var before := Run(s, front);
      DefinitionWasThere(s, rs, d);
      OccurrencesAfterRun(s, front, d, x);
      RunKeepsInv(s, front);
      SomeJobFillsAppend(s, rs, d, x);
      hide SomeJobFills;
      if last.DailyJobReq? {
        JobStepFills(before, last.order, last.today, d, x);
      } else {
        OccurrencesAreStable(before, last, d, x);
      }
    }
  }

  lemma JobStepFills(s: DB, order: seq<Id>, today: Day, d: Id, x: Day)
    requires Inv(s) && Fits(s, DailyJobReq(order, today)) && d in s.definitions
    ensures PairExists(Step(s, DailyJobReq(order, today)).0.instances, d, x) <==>
            PairExists(s.instances, d, x)
            || (SeriesDate(s.definitions[d], x) && CoversDay(DailyJobReq(order, today), x))
  {
    hide Inv, PairExists, SeriesDate, RunDailyJob;
    forall d' | d' in order ensures d' in s.definitions {
      assert d' in ActiveDefinitions(s.definitions);
    }
    DailyJobFillsWindowExactly(s, order, today, d, x);
  }

  // ---------------------------------------------------------------------------
  // How often the job has to run
  // ---------------------------------------------------------------------------

  ghost predicate Covered(days: seq<Day>, x: int) {
    exists i :: 0 <= i < |days| && days[i] - GRACE_DAYS <= x <= days[i] + DAYS_AHEAD
  }

  const LONGEST_GAP := GRACE_DAYS + DAYS_AHEAD + 1

  ghost predicate GapsFit(days: seq<Day>) {
    forall i :: 0 <= i < |days| - 1 ==> days[i + 1] - days[i] <= LONGEST_GAP
  }

  lemma {:induction false} SmallGapsCover(days: seq<Day>, x: int)
    requires days != [] && GapsFit(days)
    requires days[0] - GRACE_DAYS <= x <= days[|days| - 1] + DAYS_AHEAD
    ensures Covered(days, x)
  {
    var n := |days| - 1;
    if days[n] - GRACE_DAYS > x {
      SmallGapsCover(days[..n], x);
      var i :| 0 <= i < n && days[..n][i] - GRACE_DAYS <= x <= days[..n][i] + DAYS_AHEAD;
      assert days[i] == days[..n][i];
    }
  }

  /**
   Jobs on increasing days cover everything between the first and the last window
   exactly when no gap exceeds grace + ahead + 1 (or there is nothing to cover).
   */
  lemma CoverageNeedsSmallGaps(days: seq<Day>)
    requires days != [] && forall i, j :: 0 <= i < j < |days| ==> days[i] < days[j]
    ensures (forall x :: days[0] - GRACE_DAYS <= x <= days[|days| - 1] + DAYS_AHEAD ==> Covered(days, x))
            <==> GapsFit(days) || days[|days| - 1] + DAYS_AHEAD < days[0] - GRACE_DAYS
  {
    if GapsFit(days) {
      forall x | days[0] - GRACE_DAYS <= x <= days[|days| - 1] + DAYS_AHEAD ensures Covered(days, x) {
        SmallGapsCover(days, x);
      }
    } else if days[0] - GRACE_DAYS <= days[|days| - 1] + DAYS_AHEAD {
      var i :| 0 <= i < |days| - 1 && days[i + 1] - days[i] > LONGEST_GAP;
      assert days[0] <= days[i] && days[i + 1] <= days[|days| - 1];
      assert !Covered(days, if LONGEST_GAP < 0 then days[0] - GRACE_DAYS else days[i] + DAYS_AHEAD + 1);
    }
  }

  /** What the series of a definition depends on. */
  predicate SameSeries(a: Definition, b: Definition) {
    a.recurring == b.recurring && a.active == b.active && a.rule == b.rule && a.firstDue == b.firstDue
  }

  /** Throughout the run the definition exists with the series of `def`; other fields may be edited. */
  ghost predicate Unchanged(s: DB, rs: seq<Request>, d: Id, def: Definition) {
    && d in Run(s, rs).definitions && SameSeries(Run(s, rs).definitions[d], def)
    && (rs == [] || Unchanged(s, rs[..|rs| - 1], d, def))
  }

  lemma {:induction false} UnchangedBefore(s: DB, rs: seq<Request>, d: Id, def: Definition, i: nat)
    requires Unchanged(s, rs, d, def) && i <= |rs|
    ensures d in Run(s, rs[..i]).definitions && SameSeries(Run(s, rs[..i]).definitions[d], def)
  {
    hide Run, SameSeries;
    if i < |rs| {
      UnchangedBefore(s, rs[..|rs| - 1], d, def, i);
      assert rs[..|rs| - 1][..i] == rs[..i];
    } else {
      assert rs[..i] == rs;
    }
  }

  lemma SameSeriesSameDates(a: Definition, b: Definition, x: Day)
    requires SameSeries(a, b)
    ensures SeriesDate(a, x) <==> SeriesDate(b, x)
  {
  }

  /** The run contains a job on each of the days. */
  ghost predicate JobsOn(rs: seq<Request>, days: seq<Day>) {
    forall i :: 0 <= i < |days| ==> exists j :: 0 <= j < |rs| && rs[j].DailyJobReq? && rs[j].today == days[i]
  }

  /**
   No lost occurrences: with jobs at most grace + ahead + 1 days apart and the
   series unchanged, every series date from the first window to the last has an
   instance afterwards, and only one.
   */
  lemma NoLostOccurrences(s: DB, rs: seq<Request>, d: Id, days: seq<Day>, x: Day)
    requires Inv(s) && Feasible(s, rs) && d in s.definitions && Unchanged(s, rs, d, s.definitions[d])
    requires days != [] && JobsOn(rs, days) && GapsFit(days)
    requires days[0] - GRACE_DAYS <= x <= days[|days| - 1] + DAYS_AHEAD
    requires SeriesDate(s.definitions[d], x)
    ensures var instances := Run(s, rs).instances;
            exists id :: && id in instances && instances[id].definition == Some(d) && instances[id].due == x
                         && forall y ::
                              y in instances && instances[y].definition == Some(d) && instances[y].due == x ==> y == id
  {
    hide Inv, Feasible, Run, Unchanged, SeriesDate, SameSeries, PairExists;
    SmallGapsCover(days, x);
    var i :| 0 <= i < |days| && days[i] - GRACE_DAYS <= x <= days[i] + DAYS_AHEAD;
    var j: nat :| 0 <= j < |rs| && rs[j].DailyJobReq? && rs[j].today == days[i];
    UnchangedBefore(s, rs, d, s.definitions[d], j);
    UnchangedBefore(s, rs, d, s.definitions[d], |rs|);
    assert rs[..|rs|] == rs;
    SameSeriesSameDates(Run(s, rs[..j]).definitions[d], s.definitions[d], x);
    assert Fills(s, rs, j, d, x);
    OccurrencesAfterRun(s, rs, d, x);
    RunKeepsInv(s, rs);
    UniqueOccurrence(Run(s, rs), d, x);
  }

  lemma UniqueOccurrence(s: DB, d: Id, x: Day)
    requires Inv(s) && PairExists(s.instances, d, x)
    ensures exists id :: && id in s.instances && s.instances[id].definition == Some(d) && s.instances[id].due == x
                         && forall y :: y in s.instances ==>
                              s.instances[y].definition == Some(d) && s.instances[y].due == x ==> y == id
  {
    hide MembershipsOk, AdminsOk, InstancesOk, Served, LedgerOk, KeysOk;
    var id :| id in s.instances && s.instances[id].definition == Some(d) && s.instances[id].due == x;
    forall y | y in s.instances && s.instances[y].definition == Some(d) && s.instances[y].due == x ensures y == id {
      assert SamePair(s.instances[y], s.instances[id]);
    }
  }
}
