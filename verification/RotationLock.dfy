/**
 Concurrent users of one rotation pointer. A caller of the assignment service
 locks the household row, reads the pointer, deals its batch and keeps the lock
 until its transaction ends. Redistribution for a leaving member instead reads
 the pointer first, without the lock, and computes from that read what it writes
 later. Steps of all of them interleave freely.
 */
module RotationLock {
  import opened Types
  import opened Arithmetic
  import opened Rotation

  datatype Phase =
    | Waiting
    | Locked(seen: int)
    | Written(dealt: Assignments, next: int)
    | Committed(dealt: Assignments)
    | RolledBack

  /**
   The redistribution: `since` and `at` are the numbers of callers that had
   committed when it read the pointer and when it committed itself, `seen` and
   `found` the committed pointer at these moments.
   */
  datatype Leaving =
    | NotBegun
    | Peeked(seen: int, since: nat)
    | Claimed(seen: int, since: nat)
    | Left(seen: int, since: nat, found: int, at: nat, dealt: Assignments)
    | Abandoned

  datatype Holder = Nobody | Caller(index: nat) | Leaver

  /**
   `pointer` is the committed value; `log` lists the callers in the order in which
   they committed; the member at `place` leaves, with the open chores `rows`.
   */
  datatype Desk = Desk(
    roster: seq<Id>, batches: seq<seq<Id>>, rows: seq<Id>, place: nat,
    phases: seq<Phase>, leaving: Leaving, pointer: int, holder: Holder, log: seq<nat>)

  datatype Move =
    | Acquire(caller: nat)
    | Write(caller: nat)
    | Commit(caller: nat)
    | Abort(caller: nat)
    | Peek
    | Claim
    | Leave
    | Abandon

  predicate ByCaller(m: Move) {
    m.Acquire? || m.Write? || m.Commit? || m.Abort?
  }

  predicate Shaped(d: Desk) {
    |d.phases| == |d.batches| && 2 <= |d.roster| && d.place < |d.roster|
  }

  /** The pointer that redistribution computes from the value it read. */
  function Computed(d: Desk, seen: int): int
    requires Shaped(d)
  {
    CorrectedPointer(seen, seen + |d.rows|, |d.roster|, d.place)
  }

  /** It needs the row lock to deal chores or to write a pointer that differs from the one it loaded. */
  predicate NeedsLock(d: Desk, seen: int)
    requires Shaped(d)
  {
    d.rows != [] || Computed(d, seen) != seen
  }

  predicate CanMove(d: Desk, m: Move) {
    && Shaped(d)
    && (ByCaller(m) ==> m.caller < |d.phases|)
    && match m
       case Acquire(i) => d.phases[i].Waiting? && d.holder.Nobody?
       case Write(i) => d.phases[i].Locked?
       case Commit(i) => d.phases[i].Written?
       case Abort(i) => d.phases[i].Locked? || d.phases[i].Written?
       case Peek => d.leaving.NotBegun?
       case Claim => d.leaving.Peeked? && NeedsLock(d, d.leaving.seen) && d.holder.Nobody?
       case Leave => d.leaving.Claimed? || (d.leaving.Peeked? && !NeedsLock(d, d.leaving.seen))
       case Abandon => d.leaving.Peeked? || d.leaving.Claimed?
  }

  /** What `redistribute_chores_bulk` returns and writes when it reads `pointer`. */
  function DealtFrom(roster: seq<Id>, ids: seq<Id>, pointer: int): (Assignments, int) {
    var (dealt, lock) := Bulk(ids, Lock(Some(pointer), roster));
    (dealt, if lock.pointer.Some? then lock.pointer.value else pointer)
  }

  /** The roster a caller reads: without the leaver once that transaction has committed. */
  function VisibleRoster(d: Desk): seq<Id>
    requires Shaped(d)
  {
    if d.leaving.Left? then Survivors(d.roster, d.place) else d.roster
  }

  /** The committed pointer after redistribution commits: nothing is written when its value has not changed. */
  function Settled(d: Desk, seen: int, found: int): int
    requires Shaped(d)
  {
    if Computed(d, seen) != seen then Computed(d, seen) else found
  }

  /** Whom the leaver's open chores are dealt to from the value read. */
  function LeaversDeal(d: Desk, seen: int): Assignments
    requires Shaped(d)
  {
    DealtFrom(Survivors(d.roster, d.place), d.rows, seen).0
  }

  function Moved(d: Desk, m: Move): Desk
    requires CanMove(d, m)
  {
    match m
    case Acquire(i) => d.(phases := d.phases[i := Locked(d.pointer)], holder := Caller(i))
    case Write(i) =>
      var (dealt, next) := DealtFrom(VisibleRoster(d), d.batches[i], d.phases[i].seen);
      d.(phases := d.phases[i := Written(dealt, next)])
    case Commit(i) =>
      d.(phases := d.phases[i := Committed(d.phases[i].dealt)], pointer := d.phases[i].next, holder := Nobody,
        log := d.log + [i])
    case Abort(i) => d.(phases := d.phases[i := RolledBack], holder := Nobody)
    case Peek => d.(leaving := Peeked(d.pointer, |d.log|))
    case Claim => d.(leaving := Claimed(d.leaving.seen, d.leaving.since), holder := Leaver)
    case Leave =>
      d.(leaving := Left(d.leaving.seen, d.leaving.since, d.pointer, |d.log|, LeaversDeal(d, d.leaving.seen)),
         pointer := Settled(d, d.leaving.seen, d.pointer),
         holder := if d.holder.Leaver? then Nobody else d.holder)
    case Abandon => d.(leaving := Abandoned, holder := if d.holder.Leaver? then Nobody else d.holder)
  }

  // ---------------------------------------------------------------------------
  // One at a time
  // ---------------------------------------------------------------------------

  /** The callers' batches as one-at-a-time calls in the order of `log`. */
  function Calls(batches: seq<seq<Id>>, log: seq<nat>): seq<Call> {
    if log == [] then []
    else
      var i := log[|log| - 1];
      Calls(batches, log[..|log| - 1]) + [Batch(if i < |batches| then batches[i] else [])]
  }

  /** The pointer after those calls have run one after another from `start`. */
  function SerialPointer(roster: seq<Id>, batches: seq<seq<Id>>, start: int, log: seq<nat>): int
    requires roster != []
  {
    RunCalls(roster, start, Calls(batches, log)).1
  }

  /** The pointer had all that committed run one at a time, in the order in which they committed. */
  function SerialEnd(d: Desk, start: int): int
    requires Shaped(d) && (d.leaving.Left? ==> d.leaving.at <= |d.log|)
  {
    match d.leaving
    case Left(_, _, _, at, _) =>
      var before := SerialPointer(d.roster, d.batches, start, d.log[..at]);
      SerialPointer(Survivors(d.roster, d.place), d.batches, Computed(d, before), d.log[at..])
    case _ => SerialPointer(d.roster, d.batches, start, d.log)
  }

  /** How many turns the callers in `log` took. */
  function TurnsTaken(batches: seq<seq<Id>>, log: seq<nat>): nat {
    if log == [] then 0
    else
      var i := log[|log| - 1];
      TurnsTaken(batches, log[..|log| - 1]) + if i < |batches| then |batches[i]| else 0
  }

  lemma {:induction false} SerialPointerCounts(roster: seq<Id>, batches: seq<seq<Id>>, start: int, log: seq<nat>)
    requires roster != []
    ensures SerialPointer(roster, batches, start, log) == start + TurnsTaken(batches, log)
  {
    if log != [] {
      var front, i := log[..|log| - 1], log[|log| - 1];
      SerialPointerCounts(roster, batches, start, front);
      var calls := Calls(batches, front);
      assert (calls + [Batch(if i < |batches| then batches[i] else [])])[..|calls|] == calls;
    }
  }

  lemma TurnsTakenAppend(batches: seq<seq<Id>>, log: seq<nat>, i: nat)
    requires i < |batches|
    ensures TurnsTaken(batches, log + [i]) == TurnsTaken(batches, log) + |batches[i]|
  {
    assert (log + [i])[..|log|] == log;
  }

  lemma {:induction false} TurnsTakenSplit(batches: seq<seq<Id>>, log: seq<nat>, m: nat)
    requires m <= |log|
    ensures TurnsTaken(batches, log) == TurnsTaken(batches, log[..m]) + TurnsTaken(batches, log[m..])
  {
    if m < |log| {
      var n := |log| - 1;
      TurnsTakenSplit(batches, log[..n], m);
      assert log[..n][..m] == log[..m] && log[..n][m..] == log[m..][..n - m];
    } else {
      assert log[..m] == log && log[m..] == [];
    }
  }

  lemma DealtAdvances(roster: seq<Id>, ids: seq<Id>, pointer: int)
    requires roster != []
    ensures DealtFrom(roster, ids, pointer).1 == pointer + |ids|
  {
  }

  // ---------------------------------------------------------------------------
  // The invariant
  // ---------------------------------------------------------------------------

  ghost predicate Holds(p: Phase) {
    p.Locked? || p.Written?
  }

  ghost predicate HolderOk(d: Desk) {
    && Shaped(d)
    && (forall i: nat :: i < |d.phases| ==> (Holds(d.phases[i]) <==> d.holder == Caller(i)))
    && (d.leaving.Claimed? <==> d.holder.Leaver?)
    && (d.leaving.Claimed? ==> NeedsLock(d, d.leaving.seen))
    && (d.leaving.Peeked? || d.leaving.Claimed? ==> d.leaving.since <= |d.log|)
    && (d.leaving.Left? ==> d.leaving.since <= d.leaving.at <= |d.log|)
  }

  /** A caller that holds the lock has read the committed pointer and writes from it. */
  ghost predicate ReadsOk(d: Desk) {
    && Shaped(d)
    && (forall i: nat :: i < |d.phases| && d.phases[i].Locked? ==> d.phases[i].seen == d.pointer)
    && (forall i: nat :: i < |d.phases| && d.phases[i].Written? ==>
         && d.phases[i].next == d.pointer + |d.batches[i]|
         && (!d.leaving.Left? ==> d.phases[i].dealt == DealtFrom(d.roster, d.batches[i], d.pointer).0)
         && (d.leaving.Left? ==> DealtAfter(d, i, d.phases[i].dealt, d.pointer)))
  }

  /**
   A deal among those who stay; or, when the departure needed no lock and so could
   pass a caller at work, among all who were there before.
   */
  ghost predicate DealtAfter(d: Desk, i: nat, dealt: Assignments, pointer: int)
    requires Shaped(d) && i < |d.batches| && d.leaving.Left?
  {
    || dealt == DealtFrom(Survivors(d.roster, d.place), d.batches[i], pointer).0
    || (!NeedsLock(d, d.leaving.seen) && dealt == DealtFrom(d.roster, d.batches[i], pointer).0)
  }

  /** The callers that committed before the member left. */
  function Undisturbed(d: Desk): nat {
    if d.leaving.Left? && d.leaving.at <= |d.log| then d.leaving.at else |d.log|
  }

  /** The caller that committed m-th got what it would have got called m-th. */
  ghost predicate InTurn(d: Desk, start: int, m: nat)
    requires Shaped(d) && m < |d.log|
  {
    var i := d.log[m];
    && i < |d.phases| && d.phases[i].Committed?
    && d.phases[i].dealt == DealtFrom(d.roster, d.batches[i], SerialPointer(d.roster, d.batches, start, d.log[..m])).0
  }

  /** The caller that committed m-th, after the departure, got the turns from the pointer as it then was. */
  ghost predicate InTurnAfter(d: Desk, m: nat)
    requires Shaped(d) && d.leaving.Left? && d.leaving.at <= m < |d.log|
  {
    var i := d.log[m];
    && i < |d.phases| && d.phases[i].Committed?
    && DealtAfter(d, i, d.phases[i].dealt,
                  Settled(d, d.leaving.seen, d.leaving.found) + TurnsTaken(d.batches, d.log[d.leaving.at..m]))
  }

  ghost predicate Serial(d: Desk, start: int) {
    && Shaped(d)
    && (d.leaving.Left? ==> forall m: nat :: d.leaving.at <= m < |d.log| ==> InTurnAfter(d, m))
    && Distinct(d.log)
    && (forall i: nat :: i in d.log <==> i < |d.phases| && d.phases[i].Committed?)
    && (forall m: nat :: m < Undisturbed(d) ==> InTurn(d, start, m))
  }

  /** The committed pointer, and what redistribution saw and found of it, in turns taken. */
  ghost predicate Accounted(d: Desk, start: int) {
    && Shaped(d)
    && match d.leaving
       case Peeked(seen, since) =>
         && since <= |d.log| && seen == start + TurnsTaken(d.batches, d.log[..since])
         && d.pointer == start + TurnsTaken(d.batches, d.log)
       case Claimed(seen, since) =>
         && since <= |d.log| && seen == start + TurnsTaken(d.batches, d.log[..since])
         && d.pointer == start + TurnsTaken(d.batches, d.log)
       case Left(seen, since, found, at, dealt) =>
         && dealt == LeaversDeal(d, seen)
         && since <= at <= |d.log|
         && seen == start + TurnsTaken(d.batches, d.log[..since])
         && found == start + TurnsTaken(d.batches, d.log[..at])
         && d.pointer == Settled(d, seen, found) + TurnsTaken(d.batches, d.log[at..])
       case _ => d.pointer == start + TurnsTaken(d.batches, d.log)
  }

  lemma MoveKeepsHolder(d: Desk, m: Move)
    requires HolderOk(d) && CanMove(d, m)
    ensures HolderOk(Moved(d, m))
  {
    hide DealtFrom, CorrectedPointer, Settled;
  }

  lemma MoveKeepsReads(d: Desk, m: Move)
    requires HolderOk(d) && ReadsOk(d) && CanMove(d, m)
    ensures ReadsOk(Moved(d, m))
  {
    hide DealtFrom, CorrectedPointer, Survivors;
    if m.Write? {
      assert VisibleRoster(d) != [] by {
        SomebodyVisible(d);
      }
      DealtAdvances(VisibleRoster(d), d.batches[m.caller], d.pointer);
    }
  }

  lemma SomebodyVisible(d: Desk)
    requires Shaped(d)
    ensures VisibleRoster(d) != []
  {
  }

  lemma MoveKeepsSerial(d: Desk, start: int, m: Move)
    requires Serial(d, start) && HolderOk(d) && ReadsOk(d) && Accounted(d, start) && CanMove(d, m)
    ensures Serial(Moved(d, m), start)
  {
    hide Serial, HolderOk, ReadsOk, Accounted;
    if m.Commit? {
      CommitKeepsSerial(d, start, m.caller);
    } else {
      OpenMoveKeepsSerial(d, start, m);
    }
  }

  lemma OpenMoveKeepsSerial(d: Desk, start: int, m: Move)
    requires Serial(d, start) && CanMove(d, m) && !m.Commit?
    ensures Serial(Moved(d, m), start)
  {
    hide DealtFrom, SerialPointer, Distinct, CorrectedPointer, Survivors;
    var d' := Moved(d, m);
    if d.leaving.Left? {
      forall k: nat | d.leaving.at <= k < |d.log| ensures InTurnAfter(d', k) {
        assert InTurnAfter(d, k);
      }
    }
    forall k: nat | k < Undisturbed(d') ensures InTurn(d', start, k) {
      assert InTurn(d, start, k);
    }
  }

  lemma CommitKeepsSerial(d: Desk, start: int, i: nat)
    requires Serial(d, start) && HolderOk(d) && ReadsOk(d) && Accounted(d, start) && CanMove(d, Commit(i))
    ensures Serial(Moved(d, Commit(i)), start)
  {
    hide DealtFrom, SerialPointer, Accounted, Computed, Survivors, InTurnAfter, DealtAfter;
    var d' := Moved(d, Commit(i));
    if d.leaving.Left? {
      CommitKeepsTurnsAfter(d, start, i);
    }
    forall k: nat | k < Undisturbed(d') ensures InTurn(d', start, k) {
      if k < Undisturbed(d) {
        assert InTurn(d, start, k);
        assert d'.log[..k] == d.log[..k];
      } else {
        assert d'.log[..k] == d.log;
        PointerSoFar(d, start);
      }
    }
  }

  lemma CommitKeepsTurnsAfter(d: Desk, start: int, i: nat)
    requires Serial(d, start) && HolderOk(d) && ReadsOk(d) && Accounted(d, start) && CanMove(d, Commit(i))
    requires d.leaving.Left?
    ensures var d' := Moved(d, Commit(i));
            && Shaped(d') && d'.leaving == d.leaving
            && forall k: nat :: d.leaving.at <= k < |d'.log| ==> InTurnAfter(d', k)
  {
    hide DealtFrom, SerialPointer, Accounted, CorrectedPointer, Survivors, InTurn, Distinct;
    var d' := Moved(d, Commit(i));
    PointerSinceLeft(d, start);
    forall k: nat | d.leaving.at <= k < |d'.log| ensures InTurnAfter(d', k) {
      if k < |d.log| {
        assert InTurnAfter(d, k);
        assert d'.log[d.leaving.at..k] == d.log[d.leaving.at..k];
      } else {
        assert d'.log[d.leaving.at..k] == d.log[d.leaving.at..];
      }
    }
  }

  lemma PointerSinceLeft(d: Desk, start: int)
    requires Accounted(d, start) && d.leaving.Left?
    ensures d.leaving.at <= |d.log|
    ensures d.pointer == Settled(d, d.leaving.seen, d.leaving.found) + TurnsTaken(d.batches, d.log[d.leaving.at..])
  {
    hide Settled;
  }

  lemma PointerSoFar(d: Desk, start: int)
    requires Accounted(d, start) && !d.leaving.Left?
    ensures d.pointer == SerialPointer(d.roster, d.batches, start, d.log)
  {
    SerialPointerCounts(d.roster, d.batches, start, d.log);
  }

  lemma MoveKeepsAccount(d: Desk, start: int, m: Move)
    requires HolderOk(d) && ReadsOk(d) && Accounted(d, start) && CanMove(d, m)
    ensures Accounted(Moved(d, m), start)
  {
    hide DealtFrom, CorrectedPointer, Survivors, NeedsLock, TurnsTaken;
    var d' := Moved(d, m);
    WholeAndEmpty(d.batches, d.log);
    if m.Commit? {
      TurnsTakenAppend(d.batches, d.log, m.caller);
      if d.leaving.Peeked? || d.leaving.Claimed? {
        assert d'.log[..d.leaving.since] == d.log[..d.leaving.since];
      } else if d.leaving.Left? {
        var at := d.leaving.at;
        assert d'.log[..d.leaving.since] == d.log[..d.leaving.since];
        assert d'.log[..at] == d.log[..at] && d'.log[at..] == d.log[at..] + [m.caller];
        TurnsTakenAppend(d.batches, d.log[at..], m.caller);
      }
    }
  }

  lemma WholeAndEmpty(batches: seq<seq<Id>>, log: seq<nat>)
    ensures log[..|log|] == log && log[|log|..] == [] && TurnsTaken(batches, []) == 0
  {
  }

  // ---------------------------------------------------------------------------
  // Whole interleavings
  // ---------------------------------------------------------------------------

  ghost predicate Starts(d: Desk) {
    && Shaped(d) && 0 <= d.pointer && d.holder.Nobody? && d.leaving.NotBegun? && d.log == []
    && (forall i :: 0 <= i < |d.phases| ==> d.phases[i].Waiting?)
    && (forall i :: 0 <= i < |d.batches| ==> d.batches[i] != [])
  }

  ghost predicate CanPlay(d: Desk, ms: seq<Move>)
    decreases |ms|
  {
    ms == [] || (CanMove(d, ms[0]) && CanPlay(Moved(d, ms[0]), ms[1..]))
  }

  function Play(d: Desk, ms: seq<Move>): Desk
    requires CanPlay(d, ms)
    decreases |ms|
  {
    if ms == [] then d else Play(Moved(d, ms[0]), ms[1..])
  }

  ghost predicate Good(d: Desk, start: int) {
    Serial(d, start) && HolderOk(d) && ReadsOk(d) && Accounted(d, start)
  }

  lemma StartIsGood(d: Desk)
    requires Starts(d)
    ensures Good(d, d.pointer)
  {
  }

  lemma MoveKeepsGood(d: Desk, start: int, m: Move)
    requires Good(d, start) && CanMove(d, m)
    ensures Good(Moved(d, m), start)
  {
    hide Serial, HolderOk, ReadsOk, Accounted, Moved, CanMove;
    MoveKeepsSerial(d, start, m);
    MoveKeepsHolder(d, m);
    MoveKeepsReads(d, m);
    MoveKeepsAccount(d, start, m);
  }

  lemma {:induction false} PlayKeepsGood(d: Desk, start: int, ms: seq<Move>)
    requires Good(d, start) && CanPlay(d, ms)
    ensures Good(Play(d, ms), start) && SameTask(d, Play(d, ms))
    decreases |ms|
  {
    hide Good, Moved, CanMove;
    if ms != [] {
      MoveKeepsGood(d, start, ms[0]);
      MoveKeepsTask(d, ms[0]);
      PlayKeepsGood(Moved(d, ms[0]), start, ms[1..]);
    }
  }

  ghost predicate SameTask(d: Desk, d': Desk) {
    d'.roster == d.roster && d'.batches == d.batches && d'.rows == d.rows && d'.place == d.place
  }

  lemma MoveKeepsTask(d: Desk, m: Move)
    requires CanMove(d, m)
    ensures SameTask(d, Moved(d, m))
  {
  }

  /**
   No interleaving loses or repeats a turn before the member has left: the callers
   that committed by then, all of them if the member never does, got what the same
   calls made one at a time in commit order would have given them.
   */
  lemma InterleavingsAreSerial(d: Desk, ms: seq<Move>)
    requires Starts(d) && CanPlay(d, ms)
    ensures Serial(Play(d, ms), d.pointer)
    ensures var end := Play(d, ms); !end.leaving.Left? ==> end.pointer == SerialEnd(end, d.pointer)
  {
    hide CanPlay, Play, Starts, Serial, HolderOk, ReadsOk, SerialPointer;
    StartIsGood(d);
    PlayKeepsGood(d, d.pointer, ms);
    var end := Play(d, ms);
    if !end.leaving.Left? {
      PointerSoFar(end, d.pointer);
    }
  }

  // ---------------------------------------------------------------------------
  // The unlocked read
  // ---------------------------------------------------------------------------

  /**
   When a read of `seen` does no harm although `found` was committed by the time
   redistribution commits: nothing changed; or one turn was taken, the leaver's own,
   which is not the last of the round; or the value read needs no change and dealing
   the rows makes up for the correction that the value found would need.
   */
  predicate Harmless(d: Desk, seen: int, found: int)
    requires Shaped(d)
  {
    if Computed(d, seen) != seen
    then found == seen || (found == seen + 1 && seen % |d.roster| == d.place && d.place + 1 < |d.roster|)
    else |d.rows| == if d.place < found % |d.roster| then 1 else 0
  }

  lemma NextRemainder(x: int, n: nat)
    requires 0 < n
    ensures (x + 1) % n == if x % n == n - 1 then 0 else x % n + 1
  {
    var q, e := x / n, x % n;
    if e == n - 1 {
      assert n * (q + 1) == n * q + n;
      QuotientIsUnique(x + 1, n, q + 1, 0);
    } else {
      QuotientIsUnique(x + 1, n, q, e + 1);
    }
  }

  lemma SettledIsSerialExactlyWhen(d: Desk, seen: int, found: int)
    requires Shaped(d) && 0 <= seen <= found
    ensures Settled(d, seen, found) == Computed(d, found) <==> Harmless(d, seen, found)
  {
    var n, k, r := |d.roster|, |d.rows|, d.place;
    ClampNeverBinds(seen, seen + k, n, r);
    ClampNeverBinds(found, found + k, n, r);
    NextRemainder(seen, n);
    assert Computed(d, seen) == seen + k - if r < seen % n then 1 else 0;
    assert Computed(d, found) == found + k - if r < found % n then 1 else 0;
  }

  /** A commit in between need not do harm: three members, the first one leaves with one chore, one turn from 3 to 4. */
  lemma OneTurnMayBeHarmless(d: Desk)
    requires Shaped(d) && |d.roster| == 3 && |d.rows| == 1 && d.place == 0
    ensures Settled(d, 3, 4) == 4 == Computed(d, 4)
  {
  }

  /**
   When a member leaves while others use the rotation: the pointer ends as it would
   one at a time exactly when the unlocked read was harmless; in particular whenever
   nobody committed between the read and the commit.
   */
  lemma PointerIsSerialExactlyWhen(d: Desk, ms: seq<Move>)
    requires Starts(d) && CanPlay(d, ms) && Play(d, ms).leaving.Left?
    ensures var end := Play(d, ms);
            && Shaped(end) && end.leaving.since <= end.leaving.at <= |end.log|
            && (end.pointer == SerialEnd(end, d.pointer) <==> Harmless(end, end.leaving.seen, end.leaving.found))
            && (end.leaving.seen == end.leaving.found <==> end.leaving.since == end.leaving.at)
            && (end.leaving.since == end.leaving.at ==> Harmless(end, end.leaving.seen, end.leaving.found))
  {
    hide CanPlay, Play;
    StartIsGood(d);
    PlayKeepsGood(d, d.pointer, ms);
    LeftAccount(Play(d, ms), d.pointer);
  }

  lemma {:induction false} DealRepeats(ids: seq<Id>, roster: seq<Id>, p: int, q: int)
    requires roster != [] && (q - p) % |roster| == 0
    ensures Deal(ids, roster, p) == Deal(ids, roster, q)
  {
    hide Turn;
    if ids != [] {
      DealRepeats(ids[..|ids| - 1], roster, p, q);
      TurnRepeats(roster, p + |ids| - 1, q - p);
    }
  }

  lemma TurnRepeats(roster: seq<Id>, p: int, a: int)
    requires roster != [] && a % |roster| == 0
    ensures Turn(roster, p + a) == Turn(roster, p)
  {
    SameRemainder(p, a, |roster|);
  }

  lemma TurnDiffers(roster: seq<Id>, p: int, a: int)
    requires roster != [] && Distinct(roster) && Turn(roster, p + a) == Turn(roster, p)
    ensures a % |roster| == 0
  {
    SameRemainder(p, a, |roster|);
  }

  /** Dealing from another pointer gives the same deal exactly when whole rounds lie in between. */
  lemma SameDealExactlyWhen(ids: seq<Id>, roster: seq<Id>, p: int, q: int)
    requires roster != [] && Distinct(roster)
    ensures DealtFrom(roster, ids, p).0 == DealtFrom(roster, ids, q).0 <==> ids == [] || (q - p) % |roster| == 0
  {
    hide Turn, Distinct, Deal;
    if ids != [] {
      var last := |ids| - 1;
      DealByLastOccurrence(ids, roster, p, last);
      DealByLastOccurrence(ids, roster, q, last);
      if (q - p) % |roster| == 0 {
        DealRepeats(ids, roster, p, q);
      } else if Turn(roster, q + last) == Turn(roster, p + last) {
        TurnDiffers(roster, p + last, q - p);
      }
    }
  }

  lemma SurvivorsDistinct(roster: seq<Id>, r: nat)
    requires Distinct(roster) && r < |roster|
    ensures Distinct(Survivors(roster, r)) && |Survivors(roster, r)| == |roster| - 1
  {
  }

  /**
   When a member leaves while others use the rotation: the open chores go to those
   they would go to one at a time exactly when whole rounds of the n - 1 others were
   taken between the unlocked read and the commit; and the callers that commit later
   are dealt the turns from the pointer as it was then left.
   */
  lemma DepartureDealsExactlyWhen(d: Desk, ms: seq<Move>)
    requires Starts(d) && CanPlay(d, ms) && Play(d, ms).leaving.Left? && Distinct(d.roster)
    ensures var end := Play(d, ms);
            && Shaped(end) && SameTask(d, end) && end.leaving.at <= |end.log|
            && (end.leaving.dealt == LeaversDeal(end, end.leaving.found) <==>
                d.rows == [] || (end.leaving.found - end.leaving.seen) % (|d.roster| - 1) == 0)
            && (forall m: nat :: end.leaving.at <= m < |end.log| ==> InTurnAfter(end, m))
  {
    hide CanPlay, Play, DealtFrom, Distinct, Survivors, InTurn, InTurnAfter, ReadsOk;
    StartIsGood(d);
    PlayKeepsGood(d, d.pointer, ms);
    var end := Play(d, ms);
    SurvivorsDistinct(d.roster, d.place);
    SameDealExactlyWhen(d.rows, Survivors(d.roster, d.place), end.leaving.seen, end.leaving.found);
  }

  lemma LeftAccount(end: Desk, start: int)
    requires Good(end, start) && end.leaving.Left? && 0 <= start
    requires forall i :: 0 <= i < |end.batches| ==> end.batches[i] != []
    ensures end.leaving.since <= end.leaving.at <= |end.log|
    ensures end.pointer == SerialEnd(end, start) <==> Harmless(end, end.leaving.seen, end.leaving.found)
    ensures end.leaving.seen == end.leaving.found <==> end.leaving.since == end.leaving.at
    ensures end.leaving.since == end.leaving.at ==> Harmless(end, end.leaving.seen, end.leaving.found)
  {
    hide ReadsOk, SerialPointer, InTurn, Computed, Survivors, TurnsTaken, Distinct;
    var seen, since, found, at := end.leaving.seen, end.leaving.since, end.leaving.found, end.leaving.at;
    TurnsSince(end, start, since, at);
    SettledIsSerialExactlyWhen(end, seen, found);
    SerialPointerCounts(end.roster, end.batches, start, end.log[..at]);
    SomebodyVisible(end);
    SerialPointerCounts(Survivors(end.roster, end.place), end.batches, Computed(end, found), end.log[at..]);
  }

  lemma TurnsSince(d: Desk, start: int, since: nat, at: nat)
    requires Serial(d, start) && since <= at <= |d.log|
    requires forall i :: 0 <= i < |d.batches| ==> d.batches[i] != []
    ensures var before, then' := TurnsTaken(d.batches, d.log[..since]), TurnsTaken(d.batches, d.log[..at]);
            before <= then' && (before == then' <==> since == at)
  {
    hide InTurn;
    var prefix := d.log[..at];
    TurnsTakenSplit(d.batches, prefix, since);
    assert prefix[..since] == d.log[..since];
    if since < at {
      var last := prefix[since..][at - since - 1];
      assert last == d.log[at - 1] && last in d.log;
    }
  }

  /** Three members, the first one about to leave without open chores, one caller with one chore, pointer 4. */
  function LostTurnStart(a: Id, b: Id, c: Id, chore: Id): Desk {
    Desk([a, b, c], [[chore]], [], 0, [Waiting], NotBegun, 4, Nobody, [])
  }

  lemma CallerIntervenes(d: Desk, a: Id, b: Id, c: Id, chore: Id)
    requires d == LostTurnStart(a, b, c, chore)
    ensures CanMove(d, Peek)
    ensures CanMove(Moved(d, Peek), Acquire(0))
    ensures CanMove(Moved(Moved(d, Peek), Acquire(0)), Write(0))
    ensures CanMove(Moved(Moved(Moved(d, Peek), Acquire(0)), Write(0)), Commit(0))
    ensures var d' := Moved(Moved(Moved(Moved(d, Peek), Acquire(0)), Write(0)), Commit(0));
            d' == d.(phases := d'.phases, leaving := Peeked(4, 0), pointer := 5, log := [0]) && |d'.phases| == 1
  {
    hide CorrectedPointer;
    DealtAdvances([a, b, c], [chore], 4);
    hide Bulk;
  }

  lemma LeaverOverwrites(d: Desk)
    requires |d.roster| == 3 && |d.batches| == |d.phases| && d.rows == [] && d.place == 0
    requires d.leaving == Peeked(4, 0) && d.pointer == 5 && d.holder.Nobody? && d.log == [0]
    ensures CanMove(d, Claim)
    ensures CanMove(Moved(d, Claim), Leave)
    ensures Moved(Moved(d, Claim), Leave).pointer == 3
    ensures Moved(Moved(d, Claim), Leave).leaving == Left(4, 0, 5, 1, map[])
    ensures Computed(d, 5) == 4
  {
    NothingDealt(Survivors(d.roster, d.place), 4);
    hide DealtFrom;
  }

  lemma NothingDealt(roster: seq<Id>, pointer: int)
    ensures DealtFrom(roster, [], pointer).0 == map[]
  {
  }

  /**
   A lost turn. The read sees 4, a caller takes a turn and commits 5, and the
   departure then writes 3; one at a time the pointer would end at 4.
   */
  lemma UnlockedReadLosesATurn(a: Id, b: Id, c: Id, chore: Id)
    ensures var d := LostTurnStart(a, b, c, chore);
            var ms := [Peek, Acquire(0), Write(0), Commit(0), Claim, Leave];
            && Starts(d) && CanPlay(d, ms)
            && Play(d, ms).pointer == 3
            && Play(d, ms).leaving == Left(4, 0, 5, 1, map[])
            && Computed(d, 5) == 4
  {
    hide CanMove, Moved, Computed;
    var d := LostTurnStart(a, b, c, chore);
    CallerIntervenes(d, a, b, c, chore);
    var d3 := Moved(Moved(Moved(d, Peek), Acquire(0)), Write(0));
    var d4 := Moved(d3, Commit(0));
    LeaverOverwrites(d4);
    ComputedAlike(d, d4);
    PlayOne(Moved(d4, Claim), Leave, []);
    PlayOne(d4, Claim, [Leave]);
    PlayOne(d3, Commit(0), [Claim, Leave]);
    PlayOne(Moved(Moved(d, Peek), Acquire(0)), Write(0), [Commit(0), Claim, Leave]);
    PlayOne(Moved(d, Peek), Acquire(0), [Write(0), Commit(0), Claim, Leave]);
    PlayOne(d, Peek, [Acquire(0), Write(0), Commit(0), Claim, Leave]);
  }

  lemma ComputedAlike(d: Desk, d': Desk)
    requires Shaped(d) && Shaped(d') && SameTask(d, d')
    ensures forall p :: Computed(d', p) == Computed(d, p)
  {
  }

  lemma PlayOne(d: Desk, m: Move, rest: seq<Move>)
    requires CanMove(d, m) && CanPlay(Moved(d, m), rest)
    ensures var ms := [m] + rest; CanPlay(d, ms) && Play(d, ms) == Play(Moved(d, m), rest)
  {
    assert ([m] + rest)[1..] == rest;
  }
}
