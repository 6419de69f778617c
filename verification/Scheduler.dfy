/**
 scheduler.py over the session. Generation first creates all missing instances
 unassigned, household by household remembering them, and then assigns each
 household's batch under one lock; the specification fills slot by slot.
 */
module Scheduler {
  import opened Types
  import opened Recurrence
  import opened Rotation
  import opened Schema
  import opened Endpoints
  import opened DailyJob
  import opened Invariants
  import opened Database
  import opened Redistribution
  import opened RefreshTokens
  import Service = AssignmentService

  // ---------------------------------------------------------------------------
  // Closed form of filling slots
  // ---------------------------------------------------------------------------

  /** The slots for which an instance is created: neither present before nor requested earlier. */
  function FreshSlots(instances: Instances, slots: seq<Slot>): seq<Slot> {
    if slots == [] then []
    else
      var earlier, last := FreshSlots(instances, slots[..|slots| - 1]), slots[|slots| - 1];
      if PairExists(instances, last.definition, last.due) || last in earlier then earlier else earlier + [last]
  }

  function HouseholdOf(definitions: Definitions, slot: Slot): Id {
    if slot.definition in definitions then definitions[slot.definition].household else 0
  }

  /** The ids, counting from `base`, of the slots of household `h`, in order. */
  function IdsFor(definitions: Definitions, slots: seq<Slot>, base: Id, h: Id): seq<Id> {
    if slots == [] then []
    else
      var n := |slots| - 1;
      IdsFor(definitions, slots[..n], base, h) + if HouseholdOf(definitions, slots[n]) == h then [base + n] else []
  }

  /** The assignee of the j-th new instance: its household's pointer moved by the earlier ones of that household. */
  function AssigneeOf(s: DB, slots: seq<Slot>, j: nat): Option<Id>
    requires j < |slots|
  {
    var h := HouseholdOf(s.definitions, slots[j]);
    var roster := Roster(s.memberships, h);
    if h !in s.households || roster == [] then None
    else Some(Turn(roster, s.households[h].pointer + |IdsFor(s.definitions, slots[..j], s.nextId, h)|))
  }

  function NewInstance(s: DB, slot: Slot, assignee: Option<Id>): Instance {
    Instance(Some(slot.definition), HouseholdOf(s.definitions, slot), assignee, false, slot.due, Pending, None, None)
  }

  function PointerFor(s: DB, slots: seq<Slot>, h: Id): int
    requires h in s.households
  {
    s.households[h].pointer
    + if Roster(s.memberships, h) == [] then 0 else |IdsFor(s.definitions, slots, s.nextId, h)|
  }

  /** Among the households, exactly those in `done` have had their pointer moved. */
  ghost predicate PointersMoved(s: DB, slots: seq<Slot>, households: Households, done: Id -> bool) {
    && households.Keys == s.households.Keys
    && (forall h :: h in s.households ==>
         households[h] == if done(h) then s.households[h].(pointer := PointerFor(s, slots, h)) else s.households[h])
  }

  /** One new instance per slot, assigned if its household is in `done`; the old ones are untouched. */
  ghost predicate InstancesAdded(s: DB, slots: seq<Slot>, instances: Instances, done: Id -> bool) {
    && (forall id :: id in instances <==> id in s.instances || s.nextId <= id < s.nextId + |slots|)
    && (forall id :: id in s.instances ==> instances[id] == s.instances[id])
    && (forall j :: 0 <= j < |slots| ==>
         instances[s.nextId + j]
         == NewInstance(s, slots[j],
                        if done(HouseholdOf(s.definitions, slots[j])) then AssigneeOf(s, slots, j) else None))
  }

  /** `s'` is `s` with an instance for every slot; the households in `done` have assigned theirs. */
  ghost predicate FilledFor(s: DB, slots: seq<Slot>, s': DB, done: Id -> bool) {
    && s' == s.(households := s'.households, instances := s'.instances, nextId := s.nextId + |slots|)
    && PointersMoved(s, slots, s'.households, done)
    && InstancesAdded(s, slots, s'.instances, done)
  }

  function Everyone(): Id -> bool {
    (h: Id) => true
  }

  function Nobody(): Id -> bool {
    (h: Id) => false
  }

  function Among(hs: set<Id>): Id -> bool {
    (h: Id) => h in hs
  }

  lemma FilledIsUnique(s: DB, slots: seq<Slot>, a: DB, b: DB)
    requires FilledFor(s, slots, a, Everyone()) && FilledFor(s, slots, b, Everyone())
    ensures a == b
  {
    hide PointerFor, AssigneeOf, NewInstance;
    forall id | id in a.instances ensures a.instances[id] == b.instances[id] {
      if id !in s.instances {
        var j: nat := id - s.nextId;
        assert a.instances[s.nextId + j] == NewInstance(s, slots[j], AssigneeOf(s, slots, j));
        assert b.instances[s.nextId + j] == NewInstance(s, slots[j], AssigneeOf(s, slots, j));
      }
    }
    forall h | h in a.households ensures a.households[h] == b.households[h] {
      assert h in s.households;
    }
    assert a.households == b.households;
    assert a.instances.Keys == b.instances.Keys;
    assert a.instances == b.instances;
  }

  lemma IdsForAppend(definitions: Definitions, slots: seq<Slot>, slot: Slot, base: Id, h: Id)
    ensures IdsFor(definitions, slots + [slot], base, h)
         == IdsFor(definitions, slots, base, h) + if HouseholdOf(definitions, slot) == h then [base + |slots|] else []
  {
    assert (slots + [slot])[..|slots|] == slots;
  }

  lemma AssigneeOfPrefix(s: DB, slots: seq<Slot>, slot: Slot, j: nat)
    requires j < |slots|
    ensures AssigneeOf(s, slots + [slot], j) == AssigneeOf(s, slots, j)
  {
    assert (slots + [slot])[..j] == slots[..j];
  }

  lemma AssigneeOfLast(s: DB, slots: seq<Slot>, slot: Slot)
    ensures var h := HouseholdOf(s.definitions, slot);
            AssigneeOf(s, slots + [slot], |slots|)
            == if h !in s.households || Roster(s.memberships, h) == [] then None
               else Some(Turn(Roster(s.memberships, h), PointerFor(s, slots, h)))
  {
    assert (slots + [slot])[..|slots|] == slots;
  }

  lemma PairExistsAfterFilling(s: DB, slots: seq<Slot>, s': DB, slot: Slot)
    requires FilledFor(s, slots, s', Everyone())
    ensures PairExists(s'.instances, slot.definition, slot.due) <==>
            PairExists(s.instances, slot.definition, slot.due) || slot in slots
  {
    hide PointerFor, AssigneeOf;
    if PairExists(s'.instances, slot.definition, slot.due) {
      var id :| id in s'.instances && s'.instances[id].definition == Some(slot.definition)
        && s'.instances[id].due == slot.due;
      if id !in s.instances {
        var j: nat := id - s.nextId;
        assert s'.instances[s.nextId + j] == s'.instances[id];
        assert slots[j] == slot;
      }
    }
    if PairExists(s.instances, slot.definition, slot.due) {
      var id :| id in s.instances && s.instances[id].definition == Some(slot.definition)
        && s.instances[id].due == slot.due;
      assert s'.instances[id] == s.instances[id];
    }
    if slot in slots {
      var j :| 0 <= j < |slots| && slots[j] == slot;
      assert s'.instances[s.nextId + j].definition == Some(slot.definition);
    }
  }

  lemma AutoAssignEffect(s: DB, h: Id)
    ensures var (user, s') := AutoAssign(s, h);
            var roster := Roster(s.memberships, h);
            (user, s') == if h !in s.households || roster == [] then (None, s)
                          else (Some(Turn(roster, s.households[h].pointer)),
                                s.(households := s.households[h :=
                                  s.households[h].(pointer := s.households[h].pointer + 1)]))
  {
    hide Roster, Turn;
    if h in s.households {
      Service.PointerKept(s, h);
    }
  }

  lemma PointersAdvance(s: DB, slots: seq<Slot>, slot: Slot, before: Households, after: Households)
    requires PointersMoved(s, slots, before, Everyone())
    requires var h := HouseholdOf(s.definitions, slot);
             after == if h !in s.households || Roster(s.memberships, h) == [] then before
                      else before[h := before[h].(pointer := before[h].pointer + 1)]
    ensures PointersMoved(s, slots + [slot], after, Everyone())
  {
    hide IdsFor, Roster, HouseholdOf;
    forall h | h in s.households
      ensures after[h] == s.households[h].(pointer := PointerFor(s, slots + [slot], h))
    {
      IdsForAppend(s.definitions, slots, slot, s.nextId, h);
    }
    assert after.Keys == s.households.Keys;
  }

  lemma InstanceAppended(s: DB, slots: seq<Slot>, slot: Slot, before: Instances, user: Option<Id>, done: Id -> bool)
    requires Below(s.instances.Keys, s.nextId) && InstancesAdded(s, slots, before, done)
    requires user == if done(HouseholdOf(s.definitions, slot)) then AssigneeOf(s, slots + [slot], |slots|) else None
    ensures InstancesAdded(s, slots + [slot], before[s.nextId + |slots| := NewInstance(s, slot, user)], done)
  {
    forall j: nat | j < |slots| ensures AssigneeOf(s, slots + [slot], j) == AssigneeOf(s, slots, j) {
      AssigneeOfPrefix(s, slots, slot, j);
    }
    hide AssigneeOf, NewInstance, HouseholdOf;
  }

  /** What auto-assigning and adding one instance does to a filled state. */
  lemma FillOneMore(s: DB, slots: seq<Slot>, s1: DB, slot: Slot)
    requires FilledFor(s, slots, s1, Everyone()) && Below(s.instances.Keys, s.nextId)
    requires slot.definition in s.definitions && !PairExists(s1.instances, slot.definition, slot.due)
    ensures FilledFor(s, slots + [slot], FillSlot(s1, slot), Everyone())
  {
    hide PointersMoved, InstancesAdded, PairExists, Below, AutoAssign, AssigneeOf, Roster, Turn, PointerFor;
    var h := HouseholdOf(s.definitions, slot);
    AutoAssignEffect(s1, h);
    AssigneeOfLast(s, slots, slot);
    PointerReached(s, slots, s1.households, h);
    var (user, s2) := AutoAssign(s1, h);
    PointersAdvance(s, slots, slot, s1.households, s2.households);
    InstanceAppended(s, slots, slot, s1.instances, user, Everyone());
  }

  lemma PointerReached(s: DB, slots: seq<Slot>, households: Households, h: Id)
    requires PointersMoved(s, slots, households, Everyone())
    ensures h in households <==> h in s.households
    ensures h in s.households ==> households[h].pointer == PointerFor(s, slots, h)
  {
    hide PointerFor;
  }

  /** Filling slot by slot ends in the closed form. */
  lemma {:induction false} FillSlotsClosedForm(s: DB, slots: seq<Slot>)
    requires Below(s.instances.Keys, s.nextId)
    requires forall slot :: slot in slots ==> slot.definition in s.definitions
    ensures FilledFor(s, FreshSlots(s.instances, slots), FillSlots(s, slots), Everyone())
  {
    hide FilledFor, FillSlot, PairExists, Below;
    if slots == [] {
      NothingFilled(s);
    } else {
      var front, last := slots[..|slots| - 1], slots[|slots| - 1];
      FillSlotsClosedForm(s, front);
      var s1 := FillSlots(s, front);
      PairExistsAfterFilling(s, FreshSlots(s.instances, front), s1, last);
      if PairExists(s1.instances, last.definition, last.due) {
        FillPresent(s1, last);
      } else {
        FillOneMore(s, FreshSlots(s.instances, front), s1, last);
      }
    }
  }

  lemma FillPresent(s: DB, slot: Slot)
    requires slot.definition in s.definitions && PairExists(s.instances, slot.definition, slot.due)
    ensures FillSlot(s, slot) == s
  {
  }

  lemma NothingFilled(s: DB)
    ensures FilledFor(s, [], s, Everyone())
  {
  }

  // ---------------------------------------------------------------------------
  // Creating the missing instances
  // ---------------------------------------------------------------------------

  /** `existing` answers, for the queried definitions, whether a pair is in the table or was just created. */
  ghost predicate Knows(instances: Instances, order: seq<Id>, created: seq<Slot>, existing: set<Slot>) {
    forall slot: Slot :: slot.definition in order ==>
      (slot in existing <==> PairExists(instances, slot.definition, slot.due) || slot in created)
  }

  /** `newBy` lists, household by household, the instances created so far. */
  ghost predicate Grouped(s: DB, created: seq<Slot>, newBy: map<Id, seq<Id>>) {
    && (forall h :: IdsFor(s.definitions, created, s.nextId, h) == if h in newBy then newBy[h] else [])
    && (forall h :: h in newBy ==> newBy[h] != [])
  }

  /** The rows of the second query: the pairs of the queried definitions. */
  function ExistingPairs(instances: Instances, order: seq<Id>): set<Slot> {
    set id | id in instances && instances[id].definition.Some? && instances[id].definition.value in order ::
      Slot(instances[id].definition.value, instances[id].due)
  }

  lemma NothingCreated(s: DB, order: seq<Id>, today: Day)
    ensures Slots(s.definitions, order[..0], today) == [] && FreshSlots(s.instances, []) == []
    ensures FilledFor(s, [], s, Nobody())
    ensures Knows(s.instances, order, [], ExistingPairs(s.instances, order))
    ensures Grouped(s, [], map[])
  {
    forall slot: Slot | slot.definition in order && PairExists(s.instances, slot.definition, slot.due)
      ensures slot in ExistingPairs(s.instances, order)
    {
      var id :| id in s.instances && s.instances[id].definition == Some(slot.definition)
        && s.instances[id].due == slot.due;
      assert Slot(s.instances[id].definition.value, s.instances[id].due) == slot;
    }
  }

  lemma CreateOne(s: DB, created: seq<Slot>, s1: DB, slot: Slot)
    requires FilledFor(s, created, s1, Nobody()) && Below(s.instances.Keys, s.nextId)
    requires slot.definition in s.definitions
    ensures FilledFor(s, created + [slot],
              AddInstance(s1, slot.definition, s.definitions[slot.definition].household, None, false, slot.due),
                Nobody())
  {
    hide AssigneeOf, Below;
    InstanceAppended(s, created, slot, s1.instances, None, Nobody());
    hide InstancesAdded, PointerFor;
  }

  lemma GroupOne(s: DB, created: seq<Slot>, newBy: map<Id, seq<Id>>, slot: Slot)
    requires Grouped(s, created, newBy)
    ensures var h := HouseholdOf(s.definitions, slot);
            Grouped(s, created + [slot], newBy[h := (if h in newBy then newBy[h] else []) + [s.nextId + |created|]])
  {
    hide IdsFor, HouseholdOf;
    forall h ensures IdsFor(s.definitions, created + [slot], s.nextId, h)
      == IdsFor(s.definitions, created, s.nextId, h)
         + if HouseholdOf(s.definitions, slot) == h then [s.nextId + |created|] else []
    {
      IdsForAppend(s.definitions, created, slot, s.nextId, h);
    }
  }

  lemma FreshSlotsAppend(instances: Instances, slots: seq<Slot>, slot: Slot)
    ensures var earlier := FreshSlots(instances, slots);
            FreshSlots(instances, slots + [slot])
            == if PairExists(instances, slot.definition, slot.due) || slot in earlier then earlier else earlier + [slot]
  {
    assert (slots + [slot])[..|slots|] == slots;
  }

  // ---------------------------------------------------------------------------
  // Assigning one household's batch
  // ---------------------------------------------------------------------------

  /** The j-th slot's id stands where the earlier slots of its household end. */
  lemma {:induction false} IdsForIndex(definitions: Definitions, slots: seq<Slot>, base: Id, j: nat)
    requires j < |slots|
    ensures var h := HouseholdOf(definitions, slots[j]);
            var k := |IdsFor(definitions, slots[..j], base, h)|;
            k < |IdsFor(definitions, slots, base, h)| && IdsFor(definitions, slots, base, h)[k] == base + j
  {
    if j < |slots| - 1 {
      IdsForIndex(definitions, slots[..|slots| - 1], base, j);
      assert slots[..|slots| - 1][..j] == slots[..j];
    }
  }

  ghost predicate IdOf(definitions: Definitions, slots: seq<Slot>, base: Id, h: Id, id: Id) {
    base <= id < base + |slots| && HouseholdOf(definitions, slots[id - base]) == h
  }

  lemma {:induction false} IdsForMembers(definitions: Definitions, slots: seq<Slot>, base: Id, h: Id)
    ensures forall id :: id in IdsFor(definitions, slots, base, h) ==> IdOf(definitions, slots, base, h, id)
    ensures Distinct(IdsFor(definitions, slots, base, h))
  {
    hide HouseholdOf;
    if slots != [] {
      var front := slots[..|slots| - 1];
      IdsForMembers(definitions, front, base, h);
      var ids := IdsFor(definitions, front, base, h);
      forall id | id in ids ensures IdOf(definitions, slots, base, h, id) && id != base + |front| {
        assert IdOf(definitions, front, base, h, id);
      }
      DistinctAppend(ids, base + |front|);
    }
  }

  lemma DistinctAppend(ids: seq<Id>, id: Id)
    requires Distinct(ids) && id !in ids
    ensures Distinct(ids + [id])
  {
  }

  lemma BulkEffect(s: DB, rows: seq<Id>, h: Id)
    requires rows != [] && Distinct(rows)
    ensures var (dealt, s') := BulkAssign(s, rows, h);
            var roster := Roster(s.memberships, h);
            && (forall id :: id in dealt <==> id in rows)
            && if h !in s.households || roster == []
               then s' == s && forall k :: 0 <= k < |rows| ==> dealt[rows[k]] == None
               else
                 && s' == s.(households := s.households[h :=
                      s.households[h].(pointer := s.households[h].pointer + |rows|)])
                 && forall k :: 0 <= k < |rows| ==> dealt[rows[k]] == Some(Turn(roster, s.households[h].pointer + k))
  {
    hide Roster, Turn;
    var roster := Roster(s.memberships, h);
    if h in s.households {
      if roster == [] {
        Service.PointerKept(s, h);
      } else {
        DealKeys(rows, roster, s.households[h].pointer);
        forall k | 0 <= k < |rows|
          ensures Deal(rows, roster, s.households[h].pointer)[rows[k]]
              == Some(Turn(roster, s.households[h].pointer + k))
        {
          DealByLastOccurrence(rows, roster, s.households[h].pointer, k);
        }
      }
    }
  }

  lemma BatchPointer(s: DB, slots: seq<Slot>, before: Households, after: Households, done: set<Id>, h: Id)
    requires PointersMoved(s, slots, before, Among(done)) && h !in done
    requires var ids := IdsFor(s.definitions, slots, s.nextId, h);
             after == if h !in before || Roster(s.memberships, h) == [] then before
                      else before[h := before[h].(pointer := before[h].pointer + |ids|)]
    ensures PointersMoved(s, slots, after, Among(done + {h}))
  {
    hide IdsFor, Roster;
  }

  /** A batch dealt from the household's pointer gives every new instance of that household its assignee. */
  lemma BatchAssigned(s: DB, slots: seq<Slot>, before: Instances, dealt: Assignments, done: set<Id>, h: Id)
    requires Below(s.instances.Keys, s.nextId) && InstancesAdded(s, slots, before, Among(done)) && h !in done
    requires forall id :: id in dealt ==> IdOf(s.definitions, slots, s.nextId, h, id)
    requires forall j :: 0 <= j < |slots| && HouseholdOf(s.definitions, slots[j]) == h ==>
               s.nextId + j in dealt && dealt[s.nextId + j] == AssigneeOf(s, slots, j)
    ensures InstancesAdded(s, slots, WithAssignees(before, dealt), Among(done + {h}))
  {
    hide AssigneeOf, HouseholdOf, NewInstance, Among, WithAssignees, IdOf;
    WithAssigneesDomain(before, dealt);
    forall id | id in s.instances ensures WithAssignees(before, dealt)[id] == s.instances[id] {
      OldNotDealt(s, slots, h, id);
    }
    forall j: nat | j < |slots|
      ensures WithAssignees(before, dealt)[s.nextId + j]
           == NewInstance(s, slots[j], if Among(done + {h})(HouseholdOf(s.definitions, slots[j]))
             then AssigneeOf(s, slots, j) else None)
    {
      NewIdOf(s, slots, h, j);
      BatchAssignedAt(s, slots, before[s.nextId + j], dealt, done, h, j);
    }
  }

  lemma OldNotDealt(s: DB, slots: seq<Slot>, h: Id, id: Id)
    requires Below(s.instances.Keys, s.nextId) && id in s.instances
    ensures !IdOf(s.definitions, slots, s.nextId, h, id)
  {
    hide HouseholdOf;
  }

  lemma NewIdOf(s: DB, slots: seq<Slot>, h: Id, j: nat)
    requires j < |slots|
    ensures IdOf(s.definitions, slots, s.nextId, h, s.nextId + j) <==> HouseholdOf(s.definitions, slots[j]) == h
  {
    hide HouseholdOf;
  }

  lemma WithAssigneesDomain(instances: Instances, dealt: Assignments)
    ensures forall id :: id in WithAssignees(instances, dealt) <==> id in instances
    ensures forall id :: id in instances ==>
      WithAssignees(instances, dealt)[id] == if id in dealt then instances[id].(assignee := dealt[id])
        else instances[id]
  {
  }

  lemma BatchAssignedAt(s: DB, slots: seq<Slot>, before: Instance, dealt: Assignments, done: set<Id>, h: Id, j: nat)
    requires j < |slots| && h !in done
    requires var k := HouseholdOf(s.definitions, slots[j]);
             && before == NewInstance(s, slots[j], if Among(done)(k) then AssigneeOf(s, slots, j) else None)
             && (s.nextId + j in dealt <==> k == h)
             && (k == h ==> dealt[s.nextId + j] == AssigneeOf(s, slots, j))
    ensures var k := HouseholdOf(s.definitions, slots[j]);
            (if s.nextId + j in dealt then before.(assignee := dealt[s.nextId + j]) else before)
            == NewInstance(s, slots[j], if Among(done + {h})(k) then AssigneeOf(s, slots, j) else None)
  {
    hide AssigneeOf, HouseholdOf;
  }

  lemma DealtByIndex(s: DB, slots: seq<Slot>, s1: DB, rows: seq<Id>, h: Id)
    requires rows == IdsFor(s.definitions, slots, s.nextId, h) && rows != []
    requires s1.memberships == s.memberships && (h in s1.households <==> h in s.households)
    requires h in s.households ==> s1.households[h] == s.households[h]
    ensures var dealt := BulkAssign(s1, rows, h).0;
            && (forall id :: id in dealt ==> IdOf(s.definitions, slots, s.nextId, h, id))
            && (forall j :: 0 <= j < |slots| && HouseholdOf(s.definitions, slots[j]) == h ==>
                 s.nextId + j in dealt && dealt[s.nextId + j] == AssigneeOf(s, slots, j))
  {
    hide BulkAssign, Roster, Turn, IdsFor, HouseholdOf, IdOf, Distinct;
    IdsForMembers(s.definitions, slots, s.nextId, h);
    BulkEffect(s1, rows, h);
    forall j: nat | j < |slots| && HouseholdOf(s.definitions, slots[j]) == h
      ensures var dealt := BulkAssign(s1, rows, h).0;
              s.nextId + j in dealt && dealt[s.nextId + j] == AssigneeOf(s, slots, j)
    {
      DealtAt(s, slots, s1, rows, h, j);
    }
  }

  lemma DealtAt(s: DB, slots: seq<Slot>, s1: DB, rows: seq<Id>, h: Id, j: nat)
    requires rows == IdsFor(s.definitions, slots, s.nextId, h) && rows != []
    requires s1.memberships == s.memberships && (h in s1.households <==> h in s.households)
    requires h in s.households ==> s1.households[h] == s.households[h]
    requires j < |slots| && HouseholdOf(s.definitions, slots[j]) == h
    ensures var dealt := BulkAssign(s1, rows, h).0;
            s.nextId + j in dealt && dealt[s.nextId + j] == AssigneeOf(s, slots, j)
  {
    hide BulkAssign, Roster, Turn, IdsFor, HouseholdOf, IdOf, Distinct;
    IdsForMembers(s.definitions, slots, s.nextId, h);
    BulkEffect(s1, rows, h);
    IdsForIndex(s.definitions, slots, s.nextId, j);
    assert rows[|IdsFor(s.definitions, slots[..j], s.nextId, h)|] == s.nextId + j;
  }

  function BatchDealt(s: DB, rows: seq<Id>, h: Id): DB {
    var (dealt, s') := BulkAssign(s, rows, h);
    s'.(instances := WithAssignees(s'.instances, dealt))
  }

  lemma UntouchedYet(s: DB, slots: seq<Slot>, households: Households, done: set<Id>, h: Id)
    requires PointersMoved(s, slots, households, Among(done)) && h !in done
    ensures h in households <==> h in s.households
    ensures h in s.households ==> households[h] == s.households[h]
  {
    hide PointerFor;
  }

  lemma RowsPresent(s: DB, slots: seq<Slot>, instances: Instances, rows: seq<Id>, done: set<Id>, h: Id)
    requires InstancesAdded(s, slots, instances, Among(done))
    requires forall id :: id in rows ==> IdOf(s.definitions, slots, s.nextId, h, id)
    ensures forall i :: 0 <= i < |rows| ==> rows[i] in instances
  {
    hide AssigneeOf, HouseholdOf, NewInstance;
    forall i | 0 <= i < |rows| ensures rows[i] in instances {
      assert IdOf(s.definitions, slots, s.nextId, h, rows[i]);
    }
  }

  lemma DealHousehold(s: DB, slots: seq<Slot>, s1: DB, rows: seq<Id>, done: set<Id>, h: Id)
    requires FilledFor(s, slots, s1, Among(done)) && Below(s.instances.Keys, s.nextId) && h !in done
    requires rows == IdsFor(s.definitions, slots, s.nextId, h) && rows != []
    ensures FilledFor(s, slots, BatchDealt(s1, rows, h), Among(done + {h}))
    ensures forall i :: 0 <= i < |rows| ==> rows[i] in s1.instances
    ensures forall id :: id in BulkAssign(s1, rows, h).0 <==> id in rows
    ensures BulkAssign(s1, rows, h).1 == s1.(households := BulkAssign(s1, rows, h).1.households)
  {
    hide BulkAssign, Roster, Turn, IdsFor, HouseholdOf, AssigneeOf, NewInstance, Below, PointerFor, WithAssignees,
         PointersMoved, InstancesAdded, IdOf, Distinct;
    IdsForMembers(s.definitions, slots, s.nextId, h);
    BulkEffect(s1, rows, h);
    UntouchedYet(s, slots, s1.households, done, h);
    RowsPresent(s, slots, s1.instances, rows, done, h);
    DealtByIndex(s, slots, s1, rows, h);
    var (dealt, s2) := BulkAssign(s1, rows, h);
    BatchPointer(s, slots, s1.households, s2.households, done, h);
    BatchAssigned(s, slots, s1.instances, dealt, done, h);
  }

  /** Once every household with new instances is done, the closed form is reached. */
  lemma AllDealt(s: DB, slots: seq<Slot>, s1: DB, done: set<Id>)
    requires FilledFor(s, slots, s1, Among(done))
    requires forall h :: h in done <==> IdsFor(s.definitions, slots, s.nextId, h) != []
    ensures FilledFor(s, slots, s1, Everyone())
  {
    forall j: nat | j < |slots| ensures HouseholdOf(s.definitions, slots[j]) in done {
      IdsForIndex(s.definitions, slots, s.nextId, j);
    }
    hide HouseholdOf, AssigneeOf, IdsFor, Roster;
  }

  /** The inner loop of generation: the missing instances of one definition, unassigned. */
  method CreateMissing(
      db: Session, ghost s: DB, ghost order: seq<Id>, ghost seen: seq<Slot>, d: Id, dates: seq<Day>,
      existing: set<Slot>, newBy: map<Id, seq<Id>>)
    returns (existing': set<Slot>, newBy': map<Id, seq<Id>>)
    requires d in order && d in s.definitions && Below(s.instances.Keys, s.nextId)
    requires FilledFor(s, FreshSlots(s.instances, seen), db.View(), Nobody())
    requires Knows(s.instances, order, FreshSlots(s.instances, seen), existing)
    requires Grouped(s, FreshSlots(s.instances, seen), newBy)
    modifies db
    ensures FilledFor(s, FreshSlots(s.instances, seen + SlotsOf(d, dates)), db.View(), Nobody())
    ensures Knows(s.instances, order, FreshSlots(s.instances, seen + SlotsOf(d, dates)), existing')
    ensures Grouped(s, FreshSlots(s.instances, seen + SlotsOf(d, dates)), newBy')
  {
    hide FreshSlots, Grouped, PointersMoved, InstancesAdded, PairExists, Below, IdsFor;
    ghost var slots := SlotsOf(d, dates);
    existing', newBy' := existing, newBy;
    var k := 0;
    assert seen + slots[..0] == seen;
    while k < |dates|
      invariant 0 <= k <= |dates|
      invariant FilledFor(s, FreshSlots(s.instances, seen + slots[..k]), db.View(), Nobody())
      invariant Knows(s.instances, order, FreshSlots(s.instances, seen + slots[..k]), existing')
      invariant Grouped(s, FreshSlots(s.instances, seen + slots[..k]), newBy')
    {
      var slot := Slot(d, dates[k]);
      ghost var created := FreshSlots(s.instances, seen + slots[..k]);
      FreshSlotsAppend(s.instances, seen + slots[..k], slot);
      assert seen + slots[..k + 1] == seen + slots[..k] + [slot];
      if slot !in existing' {
        CreateOne(s, created, db.View(), slot);
        GroupOne(s, created, newBy', slot);
        var h := db.definitions[d].household;
        newBy' := newBy'[h := (if h in newBy' then newBy'[h] else []) + [db.nextId]];
        db.instances := db.instances[db.nextId := Instance(Some(d), h, None, false, slot.due, Pending, None, None)];
        db.nextId := db.nextId + 1;
        existing' := existing' + {slot};
      }
      k := k + 1;
    }
    assert slots[..k] == slots;
  }

  method AssignBatch(db: Session, ghost s: DB, ghost created: seq<Slot>, rows: seq<Id>, ghost done: set<Id>, h: Id)
    requires FilledFor(s, created, db.View(), Among(done)) && Below(s.instances.Keys, s.nextId) && h !in done
    requires rows == IdsFor(s.definitions, created, s.nextId, h) && rows != []
    modifies db
    ensures FilledFor(s, created, db.View(), Among(done + {h}))
  {
    hide FilledFor, IdsFor, Below, BulkAssign, WithAssignees;
    DealHousehold(s, created, db.View(), rows, done, h);
    var dealt := Service.RedistributeChoresBulk(db, rows, h);
    WriteAssignees(db, rows, dealt);
  }

  /** One lock and one batch per household with new instances. */
  method AssignBatches(db: Session, ghost s: DB, ghost created: seq<Slot>, newBy: map<Id, seq<Id>>)
    requires Below(s.instances.Keys, s.nextId)
    requires FilledFor(s, created, db.View(), Nobody()) && Grouped(s, created, newBy)
    modifies db
    ensures FilledFor(s, created, db.View(), Everyone())
  {
    hide FilledFor, IdsFor, Below, Grouped;
    var todo := newBy.Keys;
    NobodyIsNone(s, created, db.View());
    assert newBy.Keys - todo == {};
    GroupsOf(s, created, newBy);
    while todo != {}
      invariant todo <= newBy.Keys && FilledFor(s, created, db.View(), Among(newBy.Keys - todo))
      decreases |todo|
    {
      var h :| h in todo;
      OneLess(newBy.Keys, todo, h);
      AssignBatch(db, s, created, newBy[h], newBy.Keys - todo, h);
      todo := todo - {h};
    }
    AllDealt(s, created, db.View(), newBy.Keys - todo);
  }

  lemma SlotsStep(definitions: Definitions, order: seq<Id>, i: nat, today: Day)
    requires i < |order| && forall d :: d in order ==> d in definitions
    ensures Slots(definitions, order[..i + 1], today)
         == Slots(definitions, order[..i], today) + SlotsOf(order[i], WindowDates(definitions[order[i]], today))
  {
    assert order[..i + 1][..i] == order[..i];
  }

  lemma SameDefinitions(s: DB, slots: seq<Slot>, s1: DB)
    requires FilledFor(s, slots, s1, Nobody())
    ensures s1.definitions == s.definitions
  {
  }

  lemma KnownDefinitions(definitions: Definitions, order: seq<Id>)
    requires Enumerates(order, ActiveDefinitions(definitions))
    ensures forall d :: d in order ==> d in definitions
  {
  }

  lemma OneLess(all: set<Id>, todo: set<Id>, h: Id)
    requires h in todo && todo <= all
    ensures all - (todo - {h}) == all - todo + {h} && |todo - {h}| < |todo|
  {
  }

  lemma GroupsOf(s: DB, created: seq<Slot>, newBy: map<Id, seq<Id>>)
    requires Grouped(s, created, newBy)
    ensures forall h :: h in newBy.Keys <==> IdsFor(s.definitions, created, s.nextId, h) != []
    ensures forall h :: h in newBy ==> newBy[h] == IdsFor(s.definitions, created, s.nextId, h)
  {
    hide IdsFor;
  }

  lemma NobodyIsNone(s: DB, created: seq<Slot>, s1: DB)
    requires FilledFor(s, created, s1, Nobody())
    ensures FilledFor(s, created, s1, Among({}))
  {
    hide IdsFor, HouseholdOf, AssigneeOf, PointerFor, NewInstance;
  }

  /** `generate_chore_instances`; `order` is what its first query returned. */
  method GenerateChoreInstances(db: Session, order: seq<Id>, today: Day)
    requires Enumerates(order, ActiveDefinitions(db.definitions)) && Below(db.instances.Keys, db.nextId)
    modifies db
    ensures db.View() == Generated(old(db.View()), order, today)
  {
    hide FilledFor, Grouped, Knows, Below, FillSlots, FreshSlots, ActiveDefinitions, ExistingPairs, Slots;
    hide Everyone, Nobody;
    ghost var s := db.View();
    var existing := ExistingPairs(db.instances, order);
    var newBy: map<Id, seq<Id>> := map[];
    ghost var seen: seq<Slot> := [];
    NothingCreated(s, order, today);
    var i := 0;
    KnownDefinitions(s.definitions, order);
    while i < |order|
      invariant 0 <= i <= |order|
      invariant seen == Slots(s.definitions, order[..i], today)
      invariant FilledFor(s, FreshSlots(s.instances, seen), db.View(), Nobody())
      invariant Knows(s.instances, order, FreshSlots(s.instances, seen), existing)
      invariant Grouped(s, FreshSlots(s.instances, seen), newBy)
    {
      SameDefinitions(s, FreshSlots(s.instances, seen), db.View());
      SlotsStep(s.definitions, order, i, today);
      var d := order[i];
      var definition := db.definitions[d];
      var dates: seq<Day> := [];
      if definition.rule.Some? {
        dates := ComputeDueDates(definition.firstDue, definition.rule.value, today + DAYS_AHEAD,
          Some(today - GRACE_DAYS));
      }
      existing, newBy := CreateMissing(db, s, order, seen, d, dates, existing, newBy);
      seen := seen + SlotsOf(d, dates);
      i := i + 1;
    }
    assert order[..i] == order;
    SlotsKnown(s.definitions, order, today);
    FillSlotsClosedForm(s, seen);
    AssignBatches(db, s, FreshSlots(s.instances, seen), newBy);
    FilledIsUnique(s, FreshSlots(s.instances, seen), db.View(), FillSlots(s, seen));
  }

  // ---------------------------------------------------------------------------
  // Flagging, and the job
  // ---------------------------------------------------------------------------

  /** `flag_overdue_instances`: one UPDATE, returning the ids it changed. */
  method FlagOverdueInstances(db: Session, today: Day) returns (flagged: set<Id>)
    modifies db
    ensures db.View() == Flagged(old(db.View()), today)
    ensures forall id :: id in flagged <==>
      id in old(db.instances) && old(db.instances)[id].status == Pending && db.instances[id].status == Overdue
  {
    flagged := set id | id in db.instances && db.instances[id].status == Pending && db.instances[id].due < today;
    db.instances := map id | id in db.instances ::
      if id in flagged then db.instances[id].(status := Overdue) else db.instances[id];
    assert db.instances == Flagged(old(db.View()), today).instances;
  }

  /** How a run of the job ends: without the lock, committed, or with an exception passed on. */
  datatype JobEnd = Skipped | Finished | Raised

  /**
   `run_daily_job`: all three steps or none. `acquired` is the answer of the
   advisory lock. When an exception strikes, anywhere inside a step or at the
   commit, the transaction's work may be in any state; it is rolled back and the
   exception raised again.
   */
  method RunJob(db: Session, auth: AuthServer, order: seq<Id>, today: Day, now: Time, acquired: bool, fails: bool)
    returns (end: JobEnd)
    requires Enumerates(order, ActiveDefinitions(db.definitions)) && Below(db.instances.Keys, db.nextId)
    modifies db, auth
    ensures end == if !acquired then Skipped else if fails then Raised else Finished
    ensures end.Finished? ==> db.View() == RunDailyJob(old(db.View()), order, today)
    ensures end.Finished? ==> auth.View() == CleanUp(old(auth.View()), now)
    ensures forall t :: end.Finished? && t in auth.rows ==> now <= auth.rows[t].expiresAt
    ensures forall t, later ::
      now <= later ==> Refresh(auth.View(), t, later).1 == Refresh(old(auth.View()), t, later).1
    ensures !end.Finished? ==> db.View() == old(db.View()) && auth.View() == old(auth.View())
  {
    hide Below, ActiveDefinitions, FillSlots, Slots, Enumerates;
    if !acquired {
      return Skipped;
    }
    if fails {
      var tables, tokens := db.View(), auth.rows;
      db.households, db.instances, db.nextId, auth.rows := *, *, *, *;
      db.Rollback(tables);
      auth.Restore(tokens);
      return Raised;
    }
    GenerateChoreInstances(db, order, today);
    var flagged := FlagOverdueInstances(db, today);
    auth.DeleteExpired(now);
    end := Finished;
  }
}
