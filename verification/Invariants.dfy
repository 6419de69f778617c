/**
 What holds of the tables in every reachable state, stated table by table so
 that an endpoint disturbs only the parts that mention what it writes.
 */
module Invariants {
  import opened Types
  import opened Filtering
  import opened Rotation
  import opened Schema

  /** References resolve, joining times rise within a household, only a user's last row may be active. */
  ghost predicate MembershipsOk(ms: seq<Membership>, users: set<Id>, households: set<Id>) {
    && (forall i :: 0 <= i < |ms| ==> ms[i].household in households && ms[i].user in users)
    && (forall i, j {:trigger InOrder(ms[i], ms[j])} :: 0 <= i < j < |ms| ==> InOrder(ms[i], ms[j]))
  }

  ghost predicate InOrder(earlier: Membership, later: Membership) {
    earlier.household == later.household ==>
      earlier.joinedAt < later.joinedAt && (earlier.user == later.user ==> !earlier.active)
  }

  ghost predicate HasAdmin(ms: seq<Membership>, h: Id) {
    exists i :: 0 <= i < |ms| && ActiveAdmins(h)(ms[i])
  }

  ghost predicate AdminsOk(ms: seq<Membership>, households: set<Id>) {
    forall h :: h in households ==> HasAdmin(ms, h)
  }

  ghost predicate DefinitionsOk(definitions: Definitions, households: set<Id>) {
    forall d :: d in definitions ==> definitions[d].household in households
  }

  /** Status decides which completion fields are set. */
  ghost predicate ShapeOk(inst: Instance) {
    match inst.status
    case Pending => inst.completedAt.None? && inst.points.None?
    case Overdue => inst.completedAt.None? && inst.points.None?
    case Cancelled => inst.completedAt.None? && inst.points.None?
    case Dismissed => inst.completedAt.Some? && inst.points.None?
    case Complete => inst.completedAt.Some? && inst.points.Some?
  }

  ghost predicate InstanceOk(inst: Instance, definitions: Definitions, users: set<Id>, households: set<Id>) {
    && inst.household in households
    && inst.definition.Some? && inst.definition.value in definitions
    && definitions[inst.definition.value].household == inst.household
    && (inst.status == Pending ==> definitions[inst.definition.value].active)
    && (inst.assignee.Some? ==> inst.assignee.value in users)
    && ShapeOk(inst)
  }

  ghost predicate InstancesOk(instances: Instances, definitions: Definitions, users: set<Id>, households: set<Id>) {
    forall id :: id in instances ==> InstanceOk(instances[id], definitions, users, households)
  }

  /** The unique constraint on (definition_id, due_date). */
  ghost predicate PairsUnique(instances: Instances) {
    forall x, y {:trigger SamePair(instances[x], instances[y])} ::
      x in instances && y in instances && SamePair(instances[x], instances[y]) ==> x == y
  }

  ghost predicate SamePair(a: Instance, b: Instance) {
    a.definition == b.definition && a.due == b.due
  }

  /**
   Every open instance is assigned to an active member of its household; while
   `leaver` is being taken out of the households `pending`, to them.
   */
  ghost predicate Served(instances: Instances, ms: seq<Membership>, leaver: Id, pending: set<Id>) {
    forall id :: id in instances && instances[id].status in {Pending, Overdue} ==>
      && instances[id].assignee.Some?
      && (ActiveIn(ms, instances[id].household, instances[id].assignee.value)
          || (instances[id].assignee.value == leaver && instances[id].household in pending))
  }

  predicate IsAwarded(inst: Instance) {
    inst.status == Complete && inst.points.Some? && inst.assignee.Some?
  }

  ghost predicate Records(row: LedgerRow, inst: Instance) {
    && IsAwarded(inst)
    && row.household == inst.household && row.user == inst.assignee.value
    && row.points == inst.points.value && inst.completedAt == Some(row.awardedAt)
  }

  ghost predicate HasRow(ledger: seq<LedgerRow>, id: Id) {
    exists i :: 0 <= i < |ledger| && ledger[i].instance == Some(id)
  }

  ghost predicate SameInstance(a: LedgerRow, b: LedgerRow) {
    a.instance == b.instance
  }

  /** Ledger rows and awarded instances correspond one to one and agree. */
  ghost predicate LedgerOk(ledger: seq<LedgerRow>, instances: Instances) {
    && (forall i, j {:trigger SameInstance(ledger[i], ledger[j])} :: 0 <= i < j < |ledger| ==>
         !SameInstance(ledger[i], ledger[j]))
    && (forall i :: 0 <= i < |ledger| ==>
         && ledger[i].instance.Some? && ledger[i].instance.value in instances
         && Records(ledger[i], instances[ledger[i].instance.value]))
    && (forall id :: id in instances && IsAwarded(instances[id]) ==> HasRow(ledger, id))
  }

  ghost predicate InvitesOk(invites: Invites, households: set<Id>) {
    forall i :: i in invites ==> invites[i].household in households
  }

  ghost predicate PointersOk(households: Households) {
    forall h :: h in households ==> 0 <= households[h].pointer
  }

  ghost predicate Below(keys: set<Id>, n: Id) {
    forall k :: k in keys ==> k < n
  }

  ghost predicate KeysOk(s: DB) {
    && Below(s.users, s.nextId)
    && Below(s.households.Keys, s.nextId)
    && Below(s.definitions.Keys, s.nextId)
    && Below(s.instances.Keys, s.nextId)
    && Below(s.invites.Keys, s.nextId)
  }

  ghost predicate InvWhile(s: DB, leaver: Id, pending: set<Id>) {
    && MembershipsOk(s.memberships, s.users, s.households.Keys)
    && AdminsOk(s.memberships, s.households.Keys)
    && DefinitionsOk(s.definitions, s.households.Keys)
    && InstancesOk(s.instances, s.definitions, s.users, s.households.Keys)
    && PairsUnique(s.instances)
    && Served(s.instances, s.memberships, leaver, pending)
    && LedgerOk(s.ledger, s.instances)
    && InvitesOk(s.invites, s.households.Keys)
    && PointersOk(s.households)
    && KeysOk(s)
  }

  ghost predicate Inv(s: DB) {
    InvWhile(s, 0, {})
  }

  lemma NobodyLeaving(s: DB, leaver: Id)
    ensures InvWhile(s, leaver, {}) <==> Inv(s)
  {
  }

  // ---------------------------------------------------------------------------
  // Membership facts
  // ---------------------------------------------------------------------------

  lemma RosterIsActiveMembers(ms: seq<Membership>, h: Id)
    ensures forall u :: u in Roster(ms, h) <==> ActiveIn(ms, h, u)
  {
    var rows := Filter(ms, ActiveMembers(h));
    FilterMembers(ms, ActiveMembers(h));
    forall u | u in Roster(ms, h) ensures ActiveIn(ms, h, u) {
      var i :| 0 <= i < |rows| && rows[i].user == u;
      assert rows[i] in ms;
      var j :| 0 <= j < |ms| && ms[j] == rows[i];
      assert IsActive(ms[j], h, u);
    }
    forall u | ActiveIn(ms, h, u) ensures u in Roster(ms, h) {
      var j :| 0 <= j < |ms| && IsActive(ms[j], h, u);
      assert ms[j] in rows;
      var i :| 0 <= i < |rows| && rows[i] == ms[j];
      assert UsersOf(rows)[i] == u;
    }
  }

  /** The roster lists distinct members, strictly ordered by joining time: it is the query's ORDER BY. */
  lemma RosterInJoiningOrder(ms: seq<Membership>, users: set<Id>, households: set<Id>, h: Id)
    requires MembershipsOk(ms, users, households)
    ensures Distinct(Roster(ms, h))
    ensures var rows := Filter(ms, ActiveMembers(h));
            forall j, k :: 0 <= j < k < |rows| ==> rows[j].joinedAt < rows[k].joinedAt
  {
    var rows := Filter(ms, ActiveMembers(h));
    forall j, k | 0 <= j < k < |rows|
      ensures rows[j].joinedAt < rows[k].joinedAt && rows[j].user != rows[k].user
    {
      SourceIncreases(ms, ActiveMembers(h), j, k);
      assert InOrder(ms[Source(ms, ActiveMembers(h), j)], ms[Source(ms, ActiveMembers(h), k)]);
    }
  }

  lemma HasAdminIffCounted(ms: seq<Membership>, h: Id)
    ensures HasAdmin(ms, h) <==> 1 <= CountAdmins(ms, h)
    ensures HasAdmin(ms, h) ==> Roster(ms, h) != []
  {
    FilterMembers(ms, ActiveAdmins(h));
    FilterMembers(ms, ActiveMembers(h));
    var admins := Filter(ms, ActiveAdmins(h));
    if HasAdmin(ms, h) {
      var i :| 0 <= i < |ms| && ActiveAdmins(h)(ms[i]);
      assert ms[i] in admins;
      assert ms[i] in Filter(ms, ActiveMembers(h));
    }
    if 1 <= |admins| {
      assert admins[0] in ms;
    }
  }

  /** With two active admins, one of them is not `u`. */
  lemma AnotherAdmin(ms: seq<Membership>, users: set<Id>, households: set<Id>, h: Id, u: Id) returns (i: nat)
    requires MembershipsOk(ms, users, households) && 2 <= CountAdmins(ms, h)
    ensures i < |ms| && ActiveAdmins(h)(ms[i]) && ms[i].user != u
  {
    var p := ActiveAdmins(h);
    SourceIncreases(ms, p, 0, 1);
    var a, b := Source(ms, p, 0), Source(ms, p, 1);
    assert InOrder(ms[a], ms[b]);
    i := if ms[a].user != u then a else b;
  }
}
