/**
 The tables, the queries the endpoints run over them, and the ON DELETE rules.
 Memberships and ledger rows are sequences in insertion order; the other tables
 are keyed maps.
 */
module Schema {
  import opened Types
  import opened Filtering
  import opened Recurrence
  import opened Rotation

  datatype Role = Admin | Member

  datatype Status = Pending | Overdue | Complete | Cancelled | Dismissed

  datatype Effort = Easy | Medium | Hard

  function EffortPoints(effort: Effort): int {
    match effort
    case Easy => 10
    case Medium => 25
    case Hard => 50
  }

  predicate Terminal(status: Status) {
    status in {Complete, Cancelled, Dismissed}
  }

  datatype Household = Household(name: string, pointer: int)

  datatype Membership = Membership(household: Id, user: Id, role: Role, joinedAt: Time, active: bool)

  datatype Definition = Definition(
    household: Id, effort: Effort, recurring: bool, rule: Option<Rule>, firstDue: Day, active: bool)

  datatype Instance = Instance(
    definition: Option<Id>, household: Id, assignee: Option<Id>, manual: bool, due: Day,
    status: Status, completedAt: Option<Time>, points: Option<int>)

  datatype LedgerRow = LedgerRow(household: Id, user: Id, instance: Option<Id>, points: int, awardedAt: Time)

  datatype Invite = Invite(household: Id, expiresAt: Time, usedAt: Option<Time>)

  type Households = map<Id, Household>
  type Definitions = map<Id, Definition>
  type Instances = map<Id, Instance>
  type Invites = map<Id, Invite>

  datatype DB = DB(
    users: set<Id>, households: Households, memberships: seq<Membership>, definitions: Definitions,
    instances: Instances, ledger: seq<LedgerRow>, invites: Invites, nextId: Id)

  const EMPTY := DB({}, map[], [], map[], map[], [], map[], 0)

  // ---------------------------------------------------------------------------
  // Membership queries
  // ---------------------------------------------------------------------------

  predicate IsActive(m: Membership, h: Id, u: Id) {
    m.household == h && m.user == u && m.active
  }

  predicate ActiveIn(ms: seq<Membership>, h: Id, u: Id) {
    exists i :: 0 <= i < |ms| && IsActive(ms[i], h, u)
  }

  predicate AdminIn(ms: seq<Membership>, h: Id, u: Id) {
    exists i :: 0 <= i < |ms| && IsActive(ms[i], h, u) && ms[i].role == Admin
  }

  function ActiveMembers(h: Id): Membership -> bool {
    (m: Membership) => m.household == h && m.active
  }

  function ActiveAdmins(h: Id): Membership -> bool {
    (m: Membership) => m.household == h && m.active && m.role == Admin
  }

  function ActiveOthers(h: Id, u: Id): Membership -> bool {
    (m: Membership) => m.household == h && m.active && m.user != u
  }

  function JoinedBefore(h: Id, t: Time): Membership -> bool {
    (m: Membership) => m.household == h && m.active && m.joinedAt < t
  }

  function RowsOf(h: Id, u: Id): Membership -> bool {
    (m: Membership) => m.household == h && m.user == u
  }

  function UsersOf(ms: seq<Membership>): (us: seq<Id>)
    ensures |us| == |ms| && forall i :: 0 <= i < |us| ==> us[i] == ms[i].user
  {
    seq(|ms|, i requires 0 <= i < |ms| => ms[i].user)
  }

  /** The active members ordered by `joined_at`; rows are stored in joining order. */
  function Roster(ms: seq<Membership>, h: Id): seq<Id> {
    UsersOf(Filter(ms, ActiveMembers(h)))
  }

  function CountAdmins(ms: seq<Membership>, h: Id): nat {
    |Filter(ms, ActiveAdmins(h))|
  }

  /** `joined_at` of the latest membership of `u` in `h`, active or not. */
  function LatestJoin(ms: seq<Membership>, h: Id, u: Id): Option<Time> {
    if ms == [] then None
    else
      var earlier, last := LatestJoin(ms[..|ms| - 1], h, u), ms[|ms| - 1];
      if RowsOf(h, u)(last) && (earlier.None? || earlier.value < last.joinedAt) then Some(last.joinedAt) else earlier
  }

  /** Mark the active memberships of `u` in the households `hs` inactive. */
  function Deactivated(ms: seq<Membership>, hs: set<Id>, u: Id): (r: seq<Membership>)
    ensures |r| == |ms|
    ensures forall i :: 0 <= i < |r| ==>
      r[i] == if ms[i].household in hs && ms[i].user == u then ms[i].(active := false) else ms[i]
  {
    seq(|ms|, i requires 0 <= i < |ms| =>
      if ms[i].household in hs && ms[i].user == u then ms[i].(active := false) else ms[i])
  }

  function WithRole(ms: seq<Membership>, h: Id, u: Id, role: Role): (r: seq<Membership>)
    ensures |r| == |ms|
    ensures forall i :: 0 <= i < |r| ==>
      r[i] == if IsActive(ms[i], h, u) then ms[i].(role := role) else ms[i]
  {
    seq(|ms|, i requires 0 <= i < |ms| => if IsActive(ms[i], h, u) then ms[i].(role := role) else ms[i])
  }

  // ---------------------------------------------------------------------------
  // Instance queries
  // ---------------------------------------------------------------------------

  predicate IsOpenChore(inst: Instance, h: Id, u: Id) {
    inst.assignee == Some(u) && inst.household == h && inst.status in {Pending, Overdue}
  }

  function OpenChores(instances: Instances, h: Id, u: Id): set<Id> {
    set id | id in instances && IsOpenChore(instances[id], h, u)
  }

  predicate PairExists(instances: Instances, d: Id, due: Day) {
    exists id :: id in instances && instances[id].definition == Some(d) && instances[id].due == due
  }

  function WithAssignees(instances: Instances, dealt: Assignments): Instances {
    map id | id in instances ::
      if id in dealt then instances[id].(assignee := dealt[id]) else instances[id]
  }

  // ---------------------------------------------------------------------------
  // Assignment under the household's row lock
  // ---------------------------------------------------------------------------

  function LockOf(s: DB, h: Id): Lock {
    Lock(if h in s.households then Some(s.households[h].pointer) else None, Roster(s.memberships, h))
  }

  function WithPointer(s: DB, h: Id, pointer: Option<int>): DB {
    if h in s.households && pointer.Some?
    then s.(households := s.households[h := s.households[h].(pointer := pointer.value)])
    else s
  }

  function AutoAssign(s: DB, h: Id): (Option<Id>, DB) {
    var (user, lock) := Assign(LockOf(s, h));
    (user, WithPointer(s, h, lock.pointer))
  }

  function BulkAssign(s: DB, ids: seq<Id>, h: Id): (Assignments, DB) {
    var (dealt, lock) := Bulk(ids, LockOf(s, h));
    (dealt, WithPointer(s, h, lock.pointer))
  }

  // ---------------------------------------------------------------------------
  // ON DELETE rules
  // ---------------------------------------------------------------------------

  function OutsideHouseholds(hs: set<Id>): Membership -> bool {
    (m: Membership) => m.household !in hs
  }

  function LedgerOutside(hs: set<Id>): LedgerRow -> bool {
    (r: LedgerRow) => r.household !in hs
  }

  function OfOtherUsers(u: Id): Membership -> bool {
    (m: Membership) => m.user != u
  }

  function LedgerOfOthers(u: Id): LedgerRow -> bool {
    (r: LedgerRow) => r.user != u
  }

  /** SET NULL on `point_ledger.chore_instance_id`. */
  function ForgetInstances(ledger: seq<LedgerRow>, kept: Instances): (r: seq<LedgerRow>)
    ensures |r| == |ledger|
    ensures forall i :: 0 <= i < |r| ==>
      r[i] == if ledger[i].instance.Some? && ledger[i].instance.value !in kept then ledger[i].(instance := None)
        else ledger[i]
  {
    seq(|ledger|, i requires 0 <= i < |ledger| =>
      if ledger[i].instance.Some? && ledger[i].instance.value !in kept then ledger[i].(instance := None) else ledger[i])
  }

  /** Delete households: CASCADE to memberships, definitions, instances, ledger and invites, SET NULL elsewhere. */
  function DeleteHouseholds(s: DB, hs: set<Id>): DB {
    var definitions := map d | d in s.definitions && s.definitions[d].household !in hs :: s.definitions[d];
    var instances := map id | id in s.instances && s.instances[id].household !in hs ::
      if s.instances[id].definition.Some? && s.instances[id].definition.value !in definitions
      then s.instances[id].(definition := None) else s.instances[id];
    s.(households := map h | h in s.households && h !in hs :: s.households[h],
       memberships := Filter(s.memberships, OutsideHouseholds(hs)),
       definitions := definitions,
       instances := instances,
       ledger := ForgetInstances(Filter(s.ledger, LedgerOutside(hs)), instances),
       invites := map i | i in s.invites && s.invites[i].household !in hs :: s.invites[i])
  }

  /** Delete a user: CASCADE to memberships and ledger rows, SET NULL on assignees. */
  function DeleteUser(s: DB, u: Id): DB {
    s.(users := s.users - {u},
       memberships := Filter(s.memberships, OfOtherUsers(u)),
       instances := map id | id in s.instances ::
         if s.instances[id].assignee == Some(u) then s.instances[id].(assignee := None) else s.instances[id],
       ledger := Filter(s.ledger, LedgerOfOthers(u)))
  }
}
