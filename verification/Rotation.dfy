/**
 The round-robin engine (`RoundRobinStrategy.assign`, `redistribute_chores`,
 `redistribute_chores_bulk`) and the pointer correction applied when a member
 leaves. The pointer is stored unbounded and reduced modulo the roster on use.
 */
module Rotation {
  import opened Types
  import opened Arithmetic

  /**
   What one locked read returns: the pointer (None without a household row) and the
   active members in joining order.
   */
  datatype Lock = Lock(pointer: Option<int>, roster: seq<Id>)

  type Assignments = map<Id, Option<Id>>

  ghost predicate Distinct(s: seq<Id>) {
    forall i, j :: 0 <= i < j < |s| ==> s[i] != s[j]
  }

  function Turn(roster: seq<Id>, pointer: int): Id
    requires roster != []
  {
    roster[pointer % |roster|]
  }

  function Assign(lock: Lock): (Option<Id>, Lock) {
    if lock.pointer.None? || lock.roster == [] then (None, lock)
    else (Some(Turn(lock.roster, lock.pointer.value)), lock.(pointer := Some(lock.pointer.value + 1)))
  }

  /** One `Assign`, hence one lock acquisition, per chore. */
  function OneByOne(ids: seq<Id>, lock: Lock): (Assignments, Lock) {
    if ids == [] then (map[], lock)
    else
      var (done, held) := OneByOne(ids[..|ids| - 1], lock);
      var (user, released) := Assign(held);
      (done[ids[|ids| - 1] := user], released)
  }

  function Unassigned(ids: seq<Id>): Assignments {
    map id | id in ids :: None
  }

  /** Members dealt to `ids` in turn, starting at `pointer`; a repeated id keeps its last turn. */
  function Deal(ids: seq<Id>, roster: seq<Id>, pointer: int): Assignments
    requires roster != []
  {
    if ids == [] then map[]
    else Deal(ids[..|ids| - 1], roster, pointer)[ids[|ids| - 1] := Some(Turn(roster, pointer + |ids| - 1))]
  }

  /** One lock acquisition for the whole batch. */
  function Bulk(ids: seq<Id>, lock: Lock): (Assignments, Lock) {
    if ids == [] then (map[], lock)
    else if lock.pointer.None? || lock.roster == [] then (Unassigned(ids), lock)
    else (Deal(ids, lock.roster, lock.pointer.value), lock.(pointer := Some(lock.pointer.value + |ids|)))
  }

  /** The batch form agrees with the one-at-a-time form: same assignments, same final pointer, on every input. */
  lemma {:induction false} BulkRefinesOneByOne(ids: seq<Id>, lock: Lock)
    ensures Bulk(ids, lock) == OneByOne(ids, lock)
  {
    if ids != [] {
      var front := ids[..|ids| - 1];
      BulkRefinesOneByOne(front, lock);
      if lock.pointer.None? || lock.roster == [] {
        assert Unassigned(ids) == Unassigned(front)[ids[|ids| - 1] := None];
      }
    }
  }

  /** Which turn each id gets: that of its last occurrence. */
  lemma {:induction false} DealByLastOccurrence(ids: seq<Id>, roster: seq<Id>, pointer: int, j: nat)
    requires roster != [] && j < |ids|
    requires forall i :: j < i < |ids| ==> ids[i] != ids[j]
    ensures ids[j] in Deal(ids, roster, pointer)
    ensures Deal(ids, roster, pointer)[ids[j]] == Some(Turn(roster, pointer + j))
  {
    if j < |ids| - 1 {
      DealByLastOccurrence(ids[..|ids| - 1], roster, pointer, j);
    }
  }

  lemma DealKeys(ids: seq<Id>, roster: seq<Id>, pointer: int)
    requires roster != []
    ensures forall id :: id in Deal(ids, roster, pointer) <==> id in ids
    ensures forall id :: id in ids ==>
      Deal(ids, roster, pointer)[id].Some? && Deal(ids, roster, pointer)[id].value in roster
  {
    if ids != [] {
      DealKeys(ids[..|ids| - 1], roster, pointer);
    }
  }

  // ---------------------------------------------------------------------------
  // Fairness
  // ---------------------------------------------------------------------------

  /** The next `k` members the rotation picks. */
  function Picks(roster: seq<Id>, pointer: int, k: nat): (picks: seq<Id>)
    requires roster != []
    ensures |picks| == k
    ensures forall i :: 0 <= i < k ==> picks[i] == Turn(roster, pointer + i)
  {
    if k == 0 then [] else Picks(roster, pointer, k - 1) + [Turn(roster, pointer + k - 1)]
  }

  /** How many x' < x leave remainder i, up to a constant. */
  function Hits(i: nat, n: int, x: int): int
    requires i < n
  {
    (x + n - 1 - i) / n
  }

  predicate OnTurn(i: nat, n: int, x: int)
    requires i < n
  {
    x % n == i
  }

  lemma HitsAdvance(i: nat, n: int, x: int)
    requires i < n
    ensures Hits(i, n, x + 1) == Hits(i, n, x) + if OnTurn(i, n, x) then 1 else 0
  {
    var y := x + n - 1 - i;
    var q, r := y / n, y % n;
    if r == n - 1 {
      assert n * (q + 1) == n * q + n;
      QuotientIsUnique(y + 1, n, q + 1, 0);
      assert n * q == y - (n - 1);
      QuotientIsUnique(x, n, q, i);
    } else {
      QuotientIsUnique(y + 1, n, q, r + 1);
      if x % n == i {
        assert x == n * (x / n) + i;
        QuotientIsUnique(y, n, x / n, n - 1);
      }
    }
  }

  /** How often `u` is among the next `k` picks. */
  function Turns(roster: seq<Id>, pointer: int, k: nat, u: Id): nat
    requires roster != []
  {
    multiset(Picks(roster, pointer, k))[u]
  }

  lemma TurnsAdvance(roster: seq<Id>, pointer: int, k: nat, i: nat)
    requires Distinct(roster) && i < |roster|
    ensures Turns(roster, pointer, k + 1, roster[i])
         == Turns(roster, pointer, k, roster[i]) + if OnTurn(i, |roster|, pointer + k) then 1 else 0
  {
    var before, last := Picks(roster, pointer, k), Turn(roster, pointer + k);
    assert multiset(before + [last]) == multiset(before) + multiset{last};
  }

  lemma NoTurnsYet(roster: seq<Id>, pointer: int, u: Id)
    requires roster != []
    ensures Turns(roster, pointer, 0, u) == 0
  {
    assert Picks(roster, pointer, 0) == [];
  }

  lemma {:induction false} TurnCount(roster: seq<Id>, pointer: int, k: nat, i: nat)
    requires Distinct(roster) && i < |roster|
    ensures Turns(roster, pointer, k, roster[i]) == Hits(i, |roster|, pointer + k) - Hits(i, |roster|, pointer)
  {
    hide *;
    if k == 0 {
      NoTurnsYet(roster, pointer, roster[i]);
      assert pointer + k == pointer;
    } else {
      TurnCount(roster, pointer, k - 1, i);
      TurnsAdvance(roster, pointer, k - 1, i);
      HitsAdvance(i, |roster|, pointer + (k - 1));
    }
  }

  /** Any `k` consecutive picks give each of the `n` members k/n turns, rounded down or up. */
  lemma Fairness(roster: seq<Id>, pointer: int, k: nat, u: Id)
    requires Distinct(roster) && u in roster
    ensures k / |roster| <= multiset(Picks(roster, pointer, k))[u] <= (k + |roster| - 1) / |roster|
  {
    hide Hits, Picks;
    var n := |roster|;
    var i :| 0 <= i < n && roster[i] == u;
    TurnCount(roster, pointer, k, i);
    HitsSpread(i, n, pointer, k);
  }

  lemma HitsSpread(i: nat, n: int, x: int, k: nat)
    requires i < n
    ensures k / n <= Hits(i, n, x + k) - Hits(i, n, x) <= (k + n - 1) / n
  {
    SumOfRemainders(x + n - 1 - i, k, n);
    SumOfRemainders(k, n - 1, n);
    SmallRemainder(n - 1, n);
  }

  /** `n` consecutive picks are a permutation of the roster. */
  lemma FullRoundIsPermutation(roster: seq<Id>, pointer: int)
    requires Distinct(roster) && roster != []
    ensures multiset(Picks(roster, pointer, |roster|)) == multiset(roster)
  {
    var n := |roster|;
    var picks := Picks(roster, pointer, n);
    forall u ensures multiset(picks)[u] == multiset(roster)[u] {
      if u in roster {
        Fairness(roster, pointer, n, u);
        QuotientIsUnique(n, n, 1, 0);
        QuotientIsUnique(n + n - 1, n, 1, n - 1);
        OccursOnce(roster, u);
      } else {
        assert u !in picks;
      }
    }
  }

  lemma {:induction false} OccursOnce(s: seq<Id>, u: Id)
    requires Distinct(s) && u in s
    ensures multiset(s)[u] == 1
  {
    var front, last := s[..|s| - 1], s[|s| - 1];
    assert s == front + [last];
    if u != last {
      OccursOnce(front, u);
    } else {
      assert u !in multiset(front);
    }
  }

  /** The assignment calls a household sees while its roster stays the same. */
  datatype Call = Auto | Batch(ids: seq<Id>)

  /** The users the rotation chooses over a run of calls, and the pointer it ends on. */
  function RunCalls(roster: seq<Id>, pointer: int, calls: seq<Call>): (seq<Id>, int)
    requires roster != []
  {
    if calls == [] then ([], pointer)
    else
      var (picks, p) := RunCalls(roster, pointer, calls[..|calls| - 1]);
      match calls[|calls| - 1]
      case Auto => (picks + [Assign(Lock(Some(p), roster)).0.value], Assign(Lock(Some(p), roster)).1.pointer.value)
      case Batch(ids) => (picks + DealtInOrder(ids, roster, p), Bulk(ids, Lock(Some(p), roster)).1.pointer.value)
  }

  /** The members `Deal` hands out, in the order it hands them out. */
  function DealtInOrder(ids: seq<Id>, roster: seq<Id>, pointer: int): seq<Id>
    requires roster != []
  {
    if ids == [] then []
    else DealtInOrder(ids[..|ids| - 1], roster, pointer)
         + [Deal(ids, roster, pointer)[ids[|ids| - 1]].value]
  }

  lemma {:induction false} DealtArePicks(ids: seq<Id>, roster: seq<Id>, pointer: int)
    requires roster != []
    ensures DealtInOrder(ids, roster, pointer) == Picks(roster, pointer, |ids|)
  {
    if ids != [] {
      DealtArePicks(ids[..|ids| - 1], roster, pointer);
    }
  }

  lemma {:induction false} PicksConcatenate(roster: seq<Id>, pointer: int, j: nat, k: nat)
    requires roster != []
    ensures Picks(roster, pointer, j) + Picks(roster, pointer + j, k) == Picks(roster, pointer, j + k)
  {
  }

  /**
   Over any mix of single and batch assignments the rotation picks exactly the
   consecutive turns from the starting pointer.
   */
  lemma {:induction false} RunsPickConsecutiveTurns(roster: seq<Id>, pointer: int, calls: seq<Call>)
    requires roster != []
    ensures var (picks, p) := RunCalls(roster, pointer, calls);
            p == pointer + |picks| && picks == Picks(roster, pointer, |picks|)
  {
    if calls != [] {
      var front := calls[..|calls| - 1];
      RunsPickConsecutiveTurns(roster, pointer, front);
      var (picks, p) := RunCalls(roster, pointer, front);
      match calls[|calls| - 1]
      case Auto =>
        assert Picks(roster, pointer, |picks| + 1) == picks + [Turn(roster, p)];
      case Batch(ids) =>
        DealtArePicks(ids, roster, p);
        PicksConcatenate(roster, pointer, |picks|, |ids|);
    }
  }

  lemma WindowOfPicks(roster: seq<Id>, pointer: int, total: nat, from: nat, k: nat)
    requires roster != [] && from + k <= total
    ensures Picks(roster, pointer, total)[from..from + k] == Picks(roster, pointer + from, k)
  {
    hide Turn;
    var window, picks := Picks(roster, pointer, total)[from..from + k], Picks(roster, pointer + from, k);
    forall i | 0 <= i < k ensures window[i] == picks[i] {
      assert pointer + (from + i) == (pointer + from) + i;
    }
  }

  // ---------------------------------------------------------------------------
  // Removing a member
  // ---------------------------------------------------------------------------

  function Survivors(roster: seq<Id>, r: nat): seq<Id>
    requires r < |roster|
  {
    roster[..r] + roster[r + 1..]
  }

  /** The correction compares with the pointer as it was before redistribution and clamps at zero. */
  function CorrectedPointer(original: int, current: int, memberCount: int, r: int): int
    requires memberCount > 0
  {
    if r < original % memberCount then (if current - 1 < 0 then 0 else current - 1) else current
  }

  /** The clamp never binds for a pointer that was not negative. */
  lemma ClampNeverBinds(original: int, current: int, memberCount: int, r: nat)
    requires memberCount > 0 && 0 <= original <= current
    ensures CorrectedPointer(original, current, memberCount, r)
         == current - if r < original % memberCount then 1 else 0
  {
    if original == 0 {
      SmallRemainder(0, memberCount);
    }
  }

  /**
   With P = q n + e, after removing index r and dealing k chores to the others the
   next survivor is number (e - [r < e] + q + k) mod (n - 1).
   */
  lemma RemovalLaw(roster: seq<Id>, pointer: int, k: nat, r: nat)
    requires |roster| >= 2 && r < |roster| && 0 <= pointer
    ensures var n := |roster|;
            var q, e := pointer / n, pointer % n;
            Turn(Survivors(roster, r), CorrectedPointer(pointer, pointer + k, n, r))
            == Survivors(roster, r)[(e - (if r < e then 1 else 0) + q + k) % (n - 1)]
  {
    var n := |roster|;
    var q, e := pointer / n, pointer % n;
    var shift := if r < e then 1 else 0;
    ClampNeverBinds(pointer, pointer + k, n, r);
    assert pointer + k - shift == (e - shift + q + k) + q * (n - 1);
    AddMultiple(e - shift + q + k, q, n - 1);
  }

  /** The member the code's comment promises: the one who was next, or the cyclic successor if that one was removed. */
  function PromisedNext(roster: seq<Id>, pointer: int, r: nat): Id
    requires r < |roster|
  {
    var e := pointer % |roster|;
    if r == e then roster[(e + 1) % |roster|] else roster[e]
  }

  lemma PromisedIsSurvivor(roster: seq<Id>, pointer: int, r: nat)
    requires |roster| >= 2 && r < |roster|
    ensures var n, e := |roster|, pointer % |roster|;
            PromisedNext(roster, pointer, r) == Survivors(roster, r)[(e - if r < e then 1 else 0) % (n - 1)]
  {
    var n, e := |roster|, pointer % |roster|;
    if r == e == n - 1 {
      QuotientIsUnique(n, n, 1, 0);
      QuotientIsUnique(n - 1, n - 1, 1, 0);
    } else {
      SmallRemainder(e - if r < e then 1 else 0, n - 1);
      if r == e {
        SmallRemainder(e + 1, n);
      }
    }
  }

  /**
   The promise is kept exactly when q + k, the completed rounds q = P / n plus the
   k chores dealt, is a multiple of the number of survivors; so always when P < n
   and nothing is dealt.
   */
  lemma PromiseKeptExactlyWhen(roster: seq<Id>, pointer: int, k: nat, r: nat)
    requires Distinct(roster) && |roster| >= 2 && r < |roster| && 0 <= pointer
    ensures var n := |roster|;
            Turn(Survivors(roster, r), CorrectedPointer(pointer, pointer + k, n, r)) == PromisedNext(roster, pointer, r)
            <==> (pointer / n + k) % (n - 1) == 0
  {
    var n := |roster|;
    var q, e := pointer / n, pointer % n;
    var survivors := Survivors(roster, r);
    var i := e - if r < e then 1 else 0;
    RemovalLaw(roster, pointer, k, r);
    PromisedIsSurvivor(roster, pointer, r);
    SameRemainder(i, q + k, n - 1);
    assert Distinct(survivors);
    assert survivors[(i + q + k) % (n - 1)] == survivors[i % (n - 1)] <==> (i + q + k) % (n - 1) == i % (n - 1);
  }

  /**
   Three members, the last one removed: with pointer 3 and nothing to deal, and
   with pointer 0 and one chore to deal, the first member was next and the second
   one is served.
   */
  lemma PromiseCanBreak(a: Id, b: Id, c: Id)
    requires Distinct([a, b, c])
    ensures PromisedNext([a, b, c], 3, 2) == a
    ensures Turn(Survivors([a, b, c], 2), CorrectedPointer(3, 3, 3, 2)) == b
    ensures PromisedNext([a, b, c], 0, 2) == a
    ensures Turn(Survivors([a, b, c], 2), CorrectedPointer(0, 1, 3, 2)) == b
  {
    assert Survivors([a, b, c], 2) == [a, b];
  }
}
