/** The daily job: invariant, exact effect, idempotence and coverage. */
module JobTheorems {
  import opened Types
  import opened Recurrence
  import opened Schema
  import opened Endpoints
  import opened DailyJob
  import opened Invariants
  import opened Tables
  import opened Preservation

  lemma FillSlotKeepsInv(s: DB, slot: Slot)
    requires Inv(s) && slot.definition in s.definitions && s.definitions[slot.definition].active
    ensures Inv(FillSlot(s, slot))
  {
    hide MembershipsOk, AdminsOk, InstancesOk, PairsUnique, Served, LedgerOk, InvitesOk, PointersOk, KeysOk;
    hide AutoAssign, AddInstance, PairExists;
    if !PairExists(s.instances, slot.definition, slot.due) {
      var h := s.definitions[slot.definition].household;
      AutoAssignAdvances(s, h);
      var (user, s1) := AutoAssign(s, h);
      InstanceAdded(s1, slot.definition, h, user.value, false, slot.due);
    }
  }

  ghost predicate AllActive(definitions: Definitions, slots: seq<Slot>) {
    forall slot :: slot in slots ==> slot.definition in definitions && definitions[slot.definition].active
  }

  lemma {:induction false} FillSlotsKeepsInv(s: DB, slots: seq<Slot>)
    requires Inv(s) && AllActive(s.definitions, slots)
    ensures Inv(FillSlots(s, slots))
  {
    hide Inv, FillSlot;
    if slots != [] {
      FillSlotsKeepsInv(s, slots[..|slots| - 1]);
      FillSlotKeepsInv(FillSlots(s, slots[..|slots| - 1]), slots[|slots| - 1]);
    }
  }

  lemma FlaggedKeepsInv(s: DB, today: Day)
    requires Inv(s)
    ensures Inv(Flagged(s, today))
  {
    hide MembershipsOk, AdminsOk, DefinitionsOk, PairsUnique, LedgerOk, InvitesOk, PointersOk, Below, ActiveIn;
    var s' := Flagged(s, today);
    assert s'.instances.Keys == s.instances.Keys;
    PairsRewritten(s.instances, s'.instances);
    AwardsUntouched(s.ledger, s.instances, s'.instances);
  }

  lemma ActiveSlots(s: DB, order: seq<Id>, today: Day)
    requires Enumerates(order, ActiveDefinitions(s.definitions))
    ensures AllActive(s.definitions, Slots(s.definitions, order, today))
  {
    forall d | d in order ensures d in s.definitions && ActiveRecurring(s.definitions[d]) {
      assert d in ActiveDefinitions(s.definitions);
    }
    SlotsKnown(s.definitions, order, today);
  }

  lemma DailyJobKeepsInv(s: DB, order: seq<Id>, today: Day)
    requires Inv(s) && Enumerates(order, ActiveDefinitions(s.definitions))
    ensures Inv(RunDailyJob(s, order, today))
  {
    hide Inv, Flagged, FillSlots, Slots;
    ActiveSlots(s, order, today);
    FillSlotsKeepsInv(s, Slots(s.definitions, order, today));
    FlaggedKeepsInv(Generated(s, order, today), today);
  }

  // ---------------------------------------------------------------------------
  // What generation does
  // ---------------------------------------------------------------------------

  /** Generation never alters an instance that exists, and adds only what a slot asks for. */
  ghost predicate Extends(before: Instances, after: Instances) {
    forall id :: id in before ==> id in after && after[id] == before[id]
  }

  lemma {:induction false} FillSlotsExtends(s: DB, slots: seq<Slot>)
    requires Below(s.instances.Keys, s.nextId)
    requires forall slot :: slot in slots ==> slot.definition in s.definitions
    ensures Extends(s.instances, FillSlots(s, slots).instances)
    ensures Below(FillSlots(s, slots).instances.Keys, FillSlots(s, slots).nextId)
    ensures s.nextId <= FillSlots(s, slots).nextId
  {
    if slots != [] {
      FillSlotsExtends(s, slots[..|slots| - 1]);
    }
  }

  /** After the slots are filled, exactly the old pairs and the requested ones exist. */
  lemma {:induction false} FillSlotsExact(s: DB, slots: seq<Slot>, d: Id, due: Day)
    requires Below(s.instances.Keys, s.nextId)
    requires forall slot :: slot in slots ==> slot.definition in s.definitions
    ensures PairExists(FillSlots(s, slots).instances, d, due) <==>
            PairExists(s.instances, d, due) || Slot(d, due) in slots
  {
    if slots != [] {
      var front, last := slots[..|slots| - 1], slots[|slots| - 1];
      assert slots == front + [last];
      FillSlotsExact(s, front, d, due);
      FillSlotsExtends(s, front);
      FillSlotExact(FillSlots(s, front), last, d, due);
    }
  }

  lemma FillSlotExact(s: DB, slot: Slot, d: Id, due: Day)
    requires Below(s.instances.Keys, s.nextId) && slot.definition in s.definitions
    ensures PairExists(FillSlot(s, slot).instances, d, due) <==>
            PairExists(s.instances, d, due) || Slot(d, due) == slot
  {
    var s' := FillSlot(s, slot);
    if PairExists(s.instances, d, due) {
      var id :| id in s.instances && s.instances[id].definition == Some(d) && s.instances[id].due == due;
      assert s'.instances[id] == s.instances[id];
    }
    if !PairExists(s.instances, slot.definition, slot.due) {
      assert s'.instances[s.nextId].definition == Some(slot.definition) && s'.instances[s.nextId].due == slot.due;
    }
  }

  lemma {:induction false} NothingToFill(s: DB, slots: seq<Slot>)
    requires forall slot :: slot in slots ==>
               slot.definition in s.definitions && PairExists(s.instances, slot.definition, slot.due)
    ensures FillSlots(s, slots) == s
  {
    if slots != [] {
      NothingToFill(s, slots[..|slots| - 1]);
    }
  }

  lemma FlaggedTwice(s: DB, today: Day)
    ensures Flagged(Flagged(s, today), today) == Flagged(s, today)
  {
    assert Flagged(Flagged(s, today), today).instances == Flagged(s, today).instances;
  }

  lemma FlaggingKeepsPairs(s: DB, today: Day, d: Id, due: Day)
    ensures PairExists(Flagged(s, today).instances, d, due) <==> PairExists(s.instances, d, due)
  {
    var s' := Flagged(s, today);
    if PairExists(s.instances, d, due) {
      var id :| id in s.instances && s.instances[id].definition == Some(d) && s.instances[id].due == due;
      assert s'.instances[id].due == due;
    }
  }

  /** A second run on the same day changes nothing at all, whatever order its query returns. */
  lemma DailyJobIsIdempotent(s: DB, order: seq<Id>, again: seq<Id>, today: Day)
    requires Inv(s)
    requires Enumerates(order, ActiveDefinitions(s.definitions)) && Enumerates(again, ActiveDefinitions(s.definitions))
    ensures forall d :: d in again ==> d in RunDailyJob(s, order, today).definitions
    ensures RunDailyJob(RunDailyJob(s, order, today), again, today) == RunDailyJob(s, order, today)
  {
    hide Inv, Flagged, FillSlots, PairExists, Slots, Below;
    var s1 := RunDailyJob(s, order, today);
    var first, second := Slots(s.definitions, order, today), Slots(s.definitions, again, today);
    ActiveSlots(s, order, today);
    ActiveSlots(s, again, today);
    assert s1.definitions == s.definitions by {
      FlaggedDefinitions(Generated(s, order, today), today);
    }
    KeysBelow(s);
    forall slot | slot in second
      ensures slot.definition in s1.definitions && PairExists(s1.instances, slot.definition, slot.due)
    {
      SameSlots(s.definitions, order, again, today, slot);
      FillSlotsExact(s, first, slot.definition, slot.due);
      FlaggingKeepsPairs(Generated(s, order, today), today, slot.definition, slot.due);
    }
    NothingToFill(s1, second);
    FlaggedTwice(Generated(s, order, today), today);
  }

  lemma FlaggedDefinitions(s: DB, today: Day)
    ensures Flagged(s, today).definitions == s.definitions
  {
  }

  lemma KeysBelow(s: DB)
    requires Inv(s)
    ensures Below(s.instances.Keys, s.nextId)
  {
  }

  lemma SameSlots(definitions: Definitions, order: seq<Id>, again: seq<Id>, today: Day, slot: Slot)
    requires forall d :: d in order ==> d in definitions
    requires forall d :: d in again ==> d in definitions
    requires forall d :: d in again ==> d in order
    requires slot in Slots(definitions, again, today)
    ensures slot in Slots(definitions, order, today)
  {
    SlotsKnown(definitions, order, today);
    SlotsKnown(definitions, again, today);
    assert slot == Slot(slot.definition, slot.due);
  }

  /** After the job no pending instance is past due, and nothing else was touched by flagging. */
  lemma NothingPendingIsPastDue(s: DB, order: seq<Id>, today: Day)
    requires forall d :: d in order ==> d in s.definitions
    ensures forall id :: id in RunDailyJob(s, order, today).instances &&
              RunDailyJob(s, order, today).instances[id].status == Pending
              ==> today <= RunDailyJob(s, order, today).instances[id].due
  {
    hide FillSlots;
  }

  // ---------------------------------------------------------------------------
  // Coverage
  // ---------------------------------------------------------------------------

  /** `x` is a date of the series of `def`. */
  ghost predicate SeriesDate(def: Definition, x: Day) {
    def.recurring && def.active && def.rule.Some? && InSeries(def.rule.value, def.firstDue, x)
  }

  ghost predicate InWindow(today: Day, x: Day) {
    today - GRACE_DAYS <= x <= today + DAYS_AHEAD
  }

  /** One run makes (d, x) exist exactly when it existed or x is a series date in the run's window. */
  lemma DailyJobFillsWindowExactly(s: DB, order: seq<Id>, today: Day, d: Id, x: Day)
    requires Inv(s) && Enumerates(order, ActiveDefinitions(s.definitions)) && d in s.definitions
    ensures PairExists(RunDailyJob(s, order, today).instances, d, x) <==>
            PairExists(s.instances, d, x) || (SeriesDate(s.definitions[d], x) && InWindow(today, x))
  {
    hide Inv, Flagged, FillSlots, PairExists, Slots, DueDates, InSeries, Below;
    ActiveSlots(s, order, today);
    SlotsKnown(s.definitions, order, today);
    KeysBelow(s);
    FillSlotsExact(s, Slots(s.definitions, order, today), d, x);
    FlaggingKeepsPairs(Generated(s, order, today), today, d, x);
    var def := s.definitions[d];
    assert d in order <==> d in ActiveDefinitions(s.definitions);
    if def.rule.Some? {
      DueDatesExact(def.firstDue, def.rule.value, today + DAYS_AHEAD, Some(today - GRACE_DAYS));
    }
    assert x in WindowDates(def, today) <==>
           def.rule.Some? && InSeries(def.rule.value, def.firstDue, x) && InWindow(today, x);
    assert Slot(d, x).definition == d && Slot(d, x).due == x;
  }

  // ---------------------------------------------------------------------------
  // How much one run creates
  // ---------------------------------------------------------------------------

  /** The instances of `d` that are in `after` but were not in `before`. */
  function CreatedFor(before: Instances, after: Instances, d: Id): set<Id> {
    set id | id in after && id !in before && after[id].definition == Some(d)
  }

  /** Those of `ids` that fall due before `day`. */
  function DueBefore(instances: Instances, ids: set<Id>, day: int): set<Id> {
    set id | id in ids && id in instances && instances[id].due < day
  }

  /** Distinct dates in a range: no more instances than days. */
  lemma {:induction false} DistinctDatesFit(instances: Instances, ids: set<Id>, lo: int, hi: int)
    requires forall id :: id in ids ==> id in instances && lo <= instances[id].due < hi
    requires forall x, y :: x in ids && y in ids && instances[x].due == instances[y].due ==> x == y
    ensures |ids| <= if lo <= hi then hi - lo else 0
    decreases if lo <= hi then hi - lo else 0
  {
    if lo < hi {
      if last :| last in ids && instances[last].due == hi - 1 {
        DistinctDatesFit(instances, ids - {last}, lo, hi - 1);
        assert ids == ids - {last} + {last};
      } else {
        DistinctDatesFit(instances, ids, lo, hi - 1);
      }
    } else {
      assert forall id :: id !in ids;
    }
  }

  /** A new instance falls in the window, and no two of one definition on the same date. */
  lemma CreatedInWindow(s: DB, order: seq<Id>, today: Day, d: Id, x: Id)
    requires Inv(s) && Enumerates(order, ActiveDefinitions(s.definitions)) && d in s.definitions
    requires x in CreatedFor(s.instances, RunDailyJob(s, order, today).instances, d)
    ensures InWindow(today, RunDailyJob(s, order, today).instances[x].due)
  {
    hide Inv, RunDailyJob, InWindow, SeriesDate;
    var after := RunDailyJob(s, order, today).instances;
    assert PairExists(after, d, after[x].due);
    DailyJobFillsWindowExactly(s, order, today, d, after[x].due);
    if PairExists(s.instances, d, after[x].due) {
      var y :| y in s.instances && s.instances[y].definition == Some(d) && s.instances[y].due == after[x].due;
      JobKeepsPairs(s, order, today, y);
      PairsAreUnique(s, order, today, y, x);
    }
  }

  lemma JobKeepsPairs(s: DB, order: seq<Id>, today: Day, id: Id)
    requires Inv(s) && (forall d :: d in order ==> d in s.definitions) && id in s.instances
    ensures var after := RunDailyJob(s, order, today).instances;
            id in after && after[id].definition == s.instances[id].definition && after[id].due == s.instances[id].due
  {
    hide Inv, FillSlots, Slots, Below;
    KeysBelow(s);
    SlotsKnown(s.definitions, order, today);
    FillSlotsExtends(s, Slots(s.definitions, order, today));
  }

  lemma PairsAreUnique(s: DB, order: seq<Id>, today: Day, x: Id, y: Id)
    requires Inv(s) && Enumerates(order, ActiveDefinitions(s.definitions))
    requires var after := RunDailyJob(s, order, today).instances;
             x in after && y in after && SamePair(after[x], after[y])
    ensures x == y
  {
    hide RunDailyJob, MembershipsOk, AdminsOk, DefinitionsOk, InstancesOk, Served, LedgerOk, InvitesOk, PointersOk;
    hide KeysOk;
    DailyJobKeepsInv(s, order, today);
  }

  /** One run creates at most grace + ahead + 1 instances of a definition, at most grace of them already past due. */
  lemma JobCreatesFew(s: DB, order: seq<Id>, today: Day, d: Id)
    requires Inv(s) && Enumerates(order, ActiveDefinitions(s.definitions)) && d in s.definitions
    ensures var after := RunDailyJob(s, order, today).instances;
            var created := CreatedFor(s.instances, after, d);
            && |created| <= (if 0 <= GRACE_DAYS + DAYS_AHEAD + 1 then GRACE_DAYS + DAYS_AHEAD + 1 else 0)
            && |DueBefore(after, created, today)| <= (if 0 <= GRACE_DAYS then GRACE_DAYS else 0)
  {
    hide Inv, RunDailyJob;
    var after := RunDailyJob(s, order, today).instances;
    var created := CreatedFor(s.instances, after, d);
    forall x | x in created ensures InWindow(today, after[x].due) {
      CreatedInWindow(s, order, today, d, x);
    }
    forall x, y | x in created && y in created && after[x].due == after[y].due ensures x == y {
      assert SamePair(after[x], after[y]);
      PairsAreUnique(s, order, today, x, y);
    }
    DistinctDatesFit(after, created, today - GRACE_DAYS, today + DAYS_AHEAD + 1);
    DistinctDatesFit(after, DueBefore(after, created, today), today - GRACE_DAYS, today);
  }
}
