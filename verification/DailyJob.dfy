/** `generate_chore_instances` and `flag_overdue_instances` over the tables. */
module DailyJob {
  import opened Types
  import opened Recurrence
  import opened Schema
  import opened Endpoints

  /** The settings `INSTANCE_GENERATION_DAYS_AHEAD` and `GRACE_DAYS`, whatever they are configured to. */
  const DAYS_AHEAD: int
  const GRACE_DAYS: int

  /** A definition and a date on which it falls due. */
  datatype Slot = Slot(definition: Id, due: Day)

  predicate ActiveRecurring(def: Definition) {
    def.recurring && def.active
  }

  function ActiveDefinitions(definitions: Definitions): set<Id> {
    set d | d in definitions && ActiveRecurring(definitions[d])
  }

  function WindowDates(def: Definition, today: Day): seq<Day> {
    if def.rule.None? then [] else DueDates(def.firstDue, def.rule.value, today + DAYS_AHEAD, Some(today - GRACE_DAYS))
  }

  function SlotsOf(d: Id, dates: seq<Day>): (r: seq<Slot>)
    ensures |r| == |dates| && forall i :: 0 <= i < |r| ==> r[i] == Slot(d, dates[i])
  {
    seq(|dates|, i requires 0 <= i < |dates| => Slot(d, dates[i]))
  }

  /** Everything due in the window, definition by definition in the order the query returned them. */
  function Slots(definitions: Definitions, order: seq<Id>, today: Day): seq<Slot>
    requires forall d :: d in order ==> d in definitions
  {
    if order == [] then []
    else
      var d := order[|order| - 1];
      Slots(definitions, order[..|order| - 1], today) + SlotsOf(d, WindowDates(definitions[d], today))
  }

  /** Create and auto-assign the instance of one slot unless it exists. */
  function FillSlot(s: DB, slot: Slot): DB
    requires slot.definition in s.definitions
  {
    if PairExists(s.instances, slot.definition, slot.due) then s
    else
      var h := s.definitions[slot.definition].household;
      var (user, s1) := AutoAssign(s, h);
      AddInstance(s1, slot.definition, h, user, false, slot.due)
  }

  function FillSlots(s: DB, slots: seq<Slot>): (r: DB)
    requires forall slot :: slot in slots ==> slot.definition in s.definitions
    ensures r == s.(households := r.households, instances := r.instances, nextId := r.nextId)
  {
    if slots == [] then s
    else FillSlot(FillSlots(s, slots[..|slots| - 1]), slots[|slots| - 1])
  }

  lemma SlotsKnown(definitions: Definitions, order: seq<Id>, today: Day)
    requires forall d :: d in order ==> d in definitions
    ensures forall slot :: slot in Slots(definitions, order, today) ==>
              slot.definition in order && slot.due in WindowDates(definitions[slot.definition], today)
    ensures forall d, due :: d in order && due in WindowDates(definitions[d], today) ==>
              Slot(d, due) in Slots(definitions, order, today)
  {
    if order != [] {
      var front, last := order[..|order| - 1], order[|order| - 1];
      SlotsKnown(definitions, front, today);
      assert order == front + [last];
      var dates := WindowDates(definitions[last], today);
      forall due | due in dates ensures Slot(last, due) in SlotsOf(last, dates) {
        var i :| 0 <= i < |dates| && dates[i] == due;
        assert SlotsOf(last, dates)[i] == Slot(last, due);
      }
    }
  }

  function Generated(s: DB, order: seq<Id>, today: Day): DB
    requires forall d :: d in order ==> d in s.definitions
  {
    SlotsKnown(s.definitions, order, today);
    FillSlots(s, Slots(s.definitions, order, today))
  }

  function FlaggedInstance(inst: Instance, today: Day): Instance {
    if inst.status == Pending && inst.due < today then inst.(status := Overdue) else inst
  }

  function Flagged(s: DB, today: Day): DB {
    s.(instances := map id | id in s.instances :: FlaggedInstance(s.instances[id], today))
  }

  function RunDailyJob(s: DB, order: seq<Id>, today: Day): DB
    requires forall d :: d in order ==> d in s.definitions
  {
    Flagged(Generated(s, order, today), today)
  }
}
