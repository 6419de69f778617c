/** How single tables may change without losing their part of the invariant. */
module Tables {
  import opened Types
  import opened Schema
  import opened Invariants

  // ---------------------------------------------------------------------------
  // Keys
  // ---------------------------------------------------------------------------

  lemma BelowNext(keys: set<Id>, n: Id)
    requires Below(keys, n)
    ensures Below(keys, n + 1) && Below(keys + {n}, n + 1) && n !in keys
  {
  }

  // ---------------------------------------------------------------------------
  // Instances and ledger
  // ---------------------------------------------------------------------------

  lemma PairsRewritten(before: Instances, after: Instances)
    requires PairsUnique(before) && before.Keys == after.Keys
    requires forall id :: id in after ==> SamePair(before[id], after[id])
    ensures PairsUnique(after)
  {
    forall x, y | x in after && y in after && SamePair(after[x], after[y]) ensures x == y {
      assert SamePair(before[x], before[y]);
    }
  }

  lemma PairsInserted(before: Instances, id: Id, inst: Instance)
    requires PairsUnique(before) && id !in before
    requires forall x :: x in before ==> !SamePair(before[x], inst)
    ensures PairsUnique(before[id := inst])
  {
    var after := before[id := inst];
    assert forall x :: x in before ==> !SamePair(before[x], inst) && !SamePair(inst, before[x]);
    forall x, y | x in after && y in after && SamePair(after[x], after[y]) ensures x == y {
      if x != id && y != id {
        assert SamePair(before[x], before[y]);
      }
    }
  }

  lemma PairsDeleted(before: Instances, after: Instances)
    requires PairsUnique(before)
    requires forall id :: id in after ==> id in before && SamePair(before[id], after[id])
    ensures PairsUnique(after)
  {
    forall x, y | x in after && y in after && SamePair(after[x], after[y]) ensures x == y {
      assert SamePair(before[x], before[y]);
    }
  }

  /** Rewriting or adding instances without touching an award. */
  lemma AwardsUntouched(ledger: seq<LedgerRow>, before: Instances, after: Instances)
    requires LedgerOk(ledger, before)
    requires forall id :: id in before && IsAwarded(before[id]) ==> id in after && after[id] == before[id]
    requires forall id :: id in after && IsAwarded(after[id]) ==> id in before && IsAwarded(before[id])
    ensures LedgerOk(ledger, after)
  {
  }

  /** Recording one award together with its ledger row. */
  lemma AwardRecorded(ledger: seq<LedgerRow>, before: Instances, id: Id, inst: Instance, row: LedgerRow)
    requires LedgerOk(ledger, before) && id in before && !IsAwarded(before[id])
    requires row.instance == Some(id) && Records(row, inst)
    ensures LedgerOk(ledger + [row], before[id := inst])
  {
    var ledger', after := ledger + [row], before[id := inst];
    var n := |ledger|;
    forall i | 0 <= i < n ensures ledger'[i] == ledger[i] && !SameInstance(ledger[i], row) {
      assert Records(ledger[i], before[ledger[i].instance.value]);
    }
    forall i, j | 0 <= i < j < n + 1 ensures !SameInstance(ledger'[i], ledger'[j]) {
      if j < n {
        assert !SameInstance(ledger[i], ledger[j]);
      }
    }
    forall x | x in after && IsAwarded(after[x]) ensures HasRow(ledger', x) {
      if x == id {
        assert ledger'[n].instance == Some(id);
      } else {
        assert HasRow(ledger, x);
        var i :| 0 <= i < n && ledger[i].instance == Some(x);
        assert ledger'[i].instance == Some(x);
      }
    }
  }

  // ---------------------------------------------------------------------------
  // Memberships
  // ---------------------------------------------------------------------------

  /** Everybody active in `ms` is still active in `ms'`, except `u` in the households `hs`. */
  ghost predicate KeepsActive(ms: seq<Membership>, ms': seq<Membership>, hs: set<Id>, u: Id) {
    forall h, v :: ActiveIn(ms, h, v) && !(h in hs && v == u) ==> ActiveIn(ms', h, v)
  }

  lemma ServedStays(instances: Instances, ms: seq<Membership>, ms': seq<Membership>, u: Id, hs: set<Id>)
    requires Served(instances, ms, u, {}) && KeepsActive(ms, ms', hs, u)
    ensures Served(instances, ms', u, hs)
  {
  }

  /** Appending rows keeps everybody active. */
  lemma ActiveAfterAppend(ms: seq<Membership>, m: Membership)
    ensures KeepsActive(ms, ms + [m], {}, 0)
    ensures forall h :: HasAdmin(ms, h) ==> HasAdmin(ms + [m], h)
    ensures m.active && m.role == Admin ==> HasAdmin(ms + [m], m.household)
  {
    var ms' := ms + [m];
    forall h, v | ActiveIn(ms, h, v) ensures ActiveIn(ms', h, v) {
      var i :| 0 <= i < |ms| && IsActive(ms[i], h, v);
      assert IsActive(ms'[i], h, v);
    }
    forall h | HasAdmin(ms, h) ensures HasAdmin(ms', h) {
      var i :| 0 <= i < |ms| && ActiveAdmins(h)(ms[i]);
      assert ActiveAdmins(h)(ms'[i]);
    }
    assert m.active && m.role == Admin ==> ActiveAdmins(m.household)(ms'[|ms|]);
  }

  lemma MembershipAppended(
    ms: seq<Membership>, m: Membership, users: set<Id>, households: set<Id>, households': set<Id>)
    requires MembershipsOk(ms, users, households) && households <= households'
    requires m.household in households' && m.user in users
    requires forall i :: 0 <= i < |ms| ==> InOrder(ms[i], m)
    ensures MembershipsOk(ms + [m], users, households')
  {
    var ms' := ms + [m];
    forall i, j | 0 <= i < j < |ms'| ensures InOrder(ms'[i], ms'[j]) {
      if j < |ms| {
        assert InOrder(ms[i], ms[j]);
      }
    }
  }

  lemma MoreUsers(ms: seq<Membership>, users: set<Id>, users': set<Id>, households: set<Id>)
    requires MembershipsOk(ms, users, households) && users <= users'
    ensures MembershipsOk(ms, users', households)
  {
  }

  /** Rewriting role or activity of rows, never activating one. */
  lemma MembershipsRewritten(ms: seq<Membership>, ms': seq<Membership>, users: set<Id>, households: set<Id>)
    requires MembershipsOk(ms, users, households) && |ms| == |ms'|
    requires forall i :: 0 <= i < |ms| ==>
               && ms'[i].household == ms[i].household && ms'[i].user == ms[i].user
               && ms'[i].joinedAt == ms[i].joinedAt && (ms'[i].active ==> ms[i].active)
    ensures MembershipsOk(ms', users, households)
  {
    forall i, j | 0 <= i < j < |ms'| ensures InOrder(ms'[i], ms'[j]) {
      assert InOrder(ms[i], ms[j]);
    }
  }

  lemma ActiveMembersAreUsers(ms: seq<Membership>, users: set<Id>, households: set<Id>, h: Id, u: Id)
    requires MembershipsOk(ms, users, households) && ActiveIn(ms, h, u)
    ensures u in users && h in households
  {
  }

  lemma RoleChangeKeepsActive(ms: seq<Membership>, h: Id, u: Id, role: Role)
    ensures KeepsActive(ms, WithRole(ms, h, u, role), {}, 0)
  {
    var ms' := WithRole(ms, h, u, role);
    forall x, v | ActiveIn(ms, x, v) ensures ActiveIn(ms', x, v) {
      var i :| 0 <= i < |ms| && IsActive(ms[i], x, v);
      assert IsActive(ms'[i], x, v);
    }
  }

  /** Somebody other than `u` is an active admin of `h`. */
  ghost predicate AdminBesides(ms: seq<Membership>, h: Id, u: Id) {
    exists i :: 0 <= i < |ms| && ActiveAdmins(h)(ms[i]) && ms[i].user != u
  }

  lemma RoleChangeKeepsAdmins(ms: seq<Membership>, h: Id, u: Id, role: Role, households: set<Id>)
    requires AdminsOk(ms, households)
    requires (role == Admin && ActiveIn(ms, h, u)) || AdminBesides(ms, h, u)
    ensures AdminsOk(WithRole(ms, h, u, role), households)
  {
    var ms' := WithRole(ms, h, u, role);
    forall x | x in households ensures HasAdmin(ms', x) {
      if x != h {
        var i :| 0 <= i < |ms| && ActiveAdmins(x)(ms[i]);
        assert ActiveAdmins(x)(ms'[i]);
      } else if AdminBesides(ms, h, u) {
        var i :| 0 <= i < |ms| && ActiveAdmins(h)(ms[i]) && ms[i].user != u;
        assert ActiveAdmins(h)(ms'[i]);
      } else {
        var i :| 0 <= i < |ms| && IsActive(ms[i], h, u);
        assert ActiveAdmins(h)(ms'[i]);
      }
    }
  }

  lemma DeactivationKeepsAdmins(ms: seq<Membership>, hs: set<Id>, u: Id, households: set<Id>)
    requires AdminsOk(ms, households)
    requires forall h :: h in hs && h in households ==> AdminBesides(ms, h, u)
    ensures AdminsOk(Deactivated(ms, hs, u), households)
  {
    var ms' := Deactivated(ms, hs, u);
    forall h | h in households ensures HasAdmin(ms', h) {
      if h in hs {
        var i :| 0 <= i < |ms| && ActiveAdmins(h)(ms[i]) && ms[i].user != u;
        assert ActiveAdmins(h)(ms'[i]);
      } else {
        var i :| 0 <= i < |ms| && ActiveAdmins(h)(ms[i]);
        assert ActiveAdmins(h)(ms'[i]);
      }
    }
  }

  lemma DeactivationKeepsActive(ms: seq<Membership>, hs: set<Id>, u: Id)
    ensures KeepsActive(ms, Deactivated(ms, hs, u), hs, u)
    ensures forall h :: h in hs ==> !ActiveIn(Deactivated(ms, hs, u), h, u)
  {
    var ms' := Deactivated(ms, hs, u);
    forall h, v | ActiveIn(ms, h, v) && !(h in hs && v == u) ensures ActiveIn(ms', h, v) {
      var i :| 0 <= i < |ms| && IsActive(ms[i], h, v);
      assert IsActive(ms'[i], h, v);
    }
  }
}
