/**
 Concurrent attempts to close one chore. Each attempt waits for the row lock
 (SELECT ... FOR UPDATE), checks the row it then reads, writes and commits. The
 daily job's overdue flag and a definition's deletion also update the row, so
 they wait for the lock too. Steps of all of them interleave freely.
 */
module RowLock {
  import opened Types
  import opened Schema

  datatype Verb = ToComplete | ToDismiss

  datatype Verdict = Won | Refused403 | Refused409

  datatype Progress = Waiting | Holding | Wrote | Finished(verdict: Verdict)

  datatype Attempt = Attempt(verb: Verb, actor: Id, isAdmin: bool, now: Time, progress: Progress)

  /** The committed row, the lock's holder and the row version that holder has written but not committed. */
  datatype Race = Race(
    row: Instance, effort: Effort, holder: Option<nat>, draft: Instance, attempts: seq<Attempt>, ledger: nat)

  datatype Move =
    | Acquire(attempt: nat)
    | Check(attempt: nat)
    | Commit(attempt: nat)
    | FlagOverdue
    | CancelPending

  predicate MayClose(row: Instance, a: Attempt) {
    row.assignee == Some(a.actor) || a.isAdmin
  }

  predicate CanMove(r: Race, m: Move) {
    match m
    case Acquire(i) => i < |r.attempts| && r.attempts[i].progress.Waiting? && r.holder.None?
    case Check(i) => i < |r.attempts| && r.attempts[i].progress.Holding?
    case Commit(i) => i < |r.attempts| && r.attempts[i].progress.Wrote?
    case FlagOverdue => r.holder.None?
    case CancelPending => r.holder.None?
  }

  function WithProgress(r: Race, i: nat, p: Progress): Race
    requires i < |r.attempts|
  {
    r.(attempts := r.attempts[i := r.attempts[i].(progress := p)])
  }

  function Closed(row: Instance, verb: Verb, effort: Effort, now: Time): Instance {
    match verb
    case ToComplete =>
      row.(status := Complete, completedAt := Some(now),
        points := if row.assignee.Some? then Some(EffortPoints(effort)) else None)
    case ToDismiss => row.(status := Dismissed, completedAt := Some(now), points := None)
  }

  function Moved(r: Race, m: Move): Race
    requires CanMove(r, m)
  {
    match m
    case Acquire(i) => WithProgress(r.(holder := Some(i), draft := r.row), i, Holding)
    case Check(i) =>
      var a := r.attempts[i];
      if !MayClose(r.draft, a) then WithProgress(r.(holder := None), i, Finished(Refused403))
      else if Terminal(r.draft.status) then WithProgress(r.(holder := None), i, Finished(Refused409))
      else WithProgress(r.(draft := Closed(r.draft, a.verb, r.effort, a.now)), i, Wrote)
    case Commit(i) =>
      var award := if r.attempts[i].verb.ToComplete? && r.draft.assignee.Some? then 1 else 0;
      WithProgress(r.(row := r.draft, holder := None, ledger := r.ledger + award), i, Finished(Won))
    case FlagOverdue => if r.row.status == Pending then r.(row := r.row.(status := Overdue)) else r
    case CancelPending => if r.row.status == Pending then r.(row := r.row.(status := Cancelled)) else r
  }

  predicate Winner(a: Attempt) {
    a.progress == Finished(Won)
  }

  /** The status a winner of the given kind leaves. */
  function Outcome(verb: Verb): Status {
    if verb.ToComplete? then Complete else Dismissed
  }

  predicate Holds(a: Attempt) {
    a.progress.Holding? || a.progress.Wrote?
  }

  ghost predicate RaceOk(r: Race) {
    && (forall i :: 0 <= i < |r.attempts| ==> (Holds(r.attempts[i]) <==> r.holder == Some(i)))
    && (r.holder.Some? ==> r.holder.value < |r.attempts|)
    && (forall i :: 0 <= i < |r.attempts| && r.attempts[i].progress.Holding? ==> r.draft == r.row)
    && (forall i :: 0 <= i < |r.attempts| && r.attempts[i].progress.Wrote? ==>
         && !Terminal(r.row.status) && r.draft.assignee == r.row.assignee
         && r.draft.status == Outcome(r.attempts[i].verb) && MayClose(r.row, r.attempts[i]))
    && (forall i :: 0 <= i < |r.attempts| && Winner(r.attempts[i]) ==>
         r.row.status == Outcome(r.attempts[i].verb) && MayClose(r.row, r.attempts[i]))
    && (forall i, j :: 0 <= i < j < |r.attempts| ==> !(Winner(r.attempts[i]) && Winner(r.attempts[j])))
    && (forall i :: 0 <= i < |r.attempts| && r.attempts[i].progress == Finished(Refused403) ==>
         !MayClose(r.row, r.attempts[i]))
    && (forall i :: 0 <= i < |r.attempts| && r.attempts[i].progress == Finished(Refused409) ==>
         Terminal(r.row.status) && MayClose(r.row, r.attempts[i]))
    && (r.row.status in {Complete, Dismissed} ==> exists i :: 0 <= i < |r.attempts| && Winner(r.attempts[i]))
    && r.ledger == (if r.row.status == Complete && r.row.assignee.Some? then 1 else 0)
  }

  lemma MoveKeepsRace(r: Race, m: Move)
    requires RaceOk(r) && CanMove(r, m)
    ensures RaceOk(Moved(r, m)) && |Moved(r, m).attempts| == |r.attempts|
  {
    hide RaceOk;
    match m
    case Acquire(i) => AcquireKeepsRace(r, i);
    case Check(i) => CheckKeepsRace(r, i);
    case Commit(i) => CommitKeepsRace(r, i);
    case FlagOverdue => OtherWritersKeepRace(r);
    case CancelPending => OtherWritersKeepRace(r);
  }

  lemma OtherWritersKeepRace(r: Race)
    requires RaceOk(r) && r.holder.None?
    ensures RaceOk(Moved(r, FlagOverdue)) && RaceOk(Moved(r, CancelPending))
  {
    hide MayClose;
    MayCloseIgnoresStatus(r);
  }

  lemma MayCloseIgnoresStatus(r: Race)
    ensures forall i, status :: 0 <= i < |r.attempts| ==>
      MayClose(r.row.(status := status), r.attempts[i]) == MayClose(r.row, r.attempts[i])
  {
  }

  /** Winners stay winners when another attempt moves. */
  lemma WinnersStay(r: Race, r': Race, k: nat)
    requires |r'.attempts| == |r.attempts| && k < |r.attempts|
    requires forall i :: 0 <= i < |r.attempts| && i != k ==> r'.attempts[i] == r.attempts[i]
    requires !Winner(r.attempts[k])
    ensures (exists i :: 0 <= i < |r.attempts| && Winner(r.attempts[i])) ==>
            exists i :: 0 <= i < |r'.attempts| && Winner(r'.attempts[i])
  {
    if exists i :: 0 <= i < |r.attempts| && Winner(r.attempts[i]) {
      var i :| 0 <= i < |r.attempts| && Winner(r.attempts[i]);
      assert Winner(r'.attempts[i]);
    }
  }

  lemma AcquireKeepsRace(r: Race, k: nat)
    requires RaceOk(r) && CanMove(r, Acquire(k))
    ensures RaceOk(Moved(r, Acquire(k)))
  {
    WinnersStay(r, Moved(r, Acquire(k)), k);
  }

  lemma CheckKeepsRace(r: Race, k: nat)
    requires RaceOk(r) && CanMove(r, Check(k))
    ensures RaceOk(Moved(r, Check(k)))
  {
    hide RaceOk;
    DraftIsRow(r, k);
    var a := r.attempts[k];
    if MayClose(r.row, a) && !Terminal(r.row.status) {
      hide Closed;
      ClosedRow(r.row, a.verb, r.effort, a.now);
      WriteKeepsRace(r, k, Closed(r.row, a.verb, r.effort, a.now));
    } else {
      RefusalKeepsRace(r, k, if MayClose(r.row, a) then Refused409 else Refused403);
    }
  }

  lemma DraftIsRow(r: Race, k: nat)
    requires RaceOk(r) && k < |r.attempts| && r.attempts[k].progress.Holding?
    ensures r.draft == r.row
  {
  }

  lemma ClosedRow(row: Instance, verb: Verb, effort: Effort, now: Time)
    ensures Closed(row, verb, effort, now).assignee == row.assignee
    ensures Closed(row, verb, effort, now).status == Outcome(verb)
  {
  }

  lemma WriteKeepsRace(r: Race, k: nat, draft: Instance)
    requires RaceOk(r) && k < |r.attempts| && r.attempts[k].progress.Holding?
    requires MayClose(r.row, r.attempts[k]) && !Terminal(r.row.status)
    requires draft.assignee == r.row.assignee && draft.status == Outcome(r.attempts[k].verb)
    ensures RaceOk(WithProgress(r.(draft := draft), k, Wrote))
  {
    hide Terminal, Outcome;
    WinnersStay(r, WithProgress(r.(draft := draft), k, Wrote), k);
  }

  lemma RefusalKeepsRace(r: Race, k: nat, verdict: Verdict)
    requires RaceOk(r) && k < |r.attempts| && r.attempts[k].progress.Holding?
    requires if MayClose(r.row, r.attempts[k]) then Terminal(r.row.status) && verdict == Refused409
             else verdict == Refused403
    ensures RaceOk(WithProgress(r.(holder := None), k, Finished(verdict)))
  {
    hide Terminal, Outcome;
    WinnersStay(r, WithProgress(r.(holder := None), k, Finished(verdict)), k);
  }

  lemma CommitKeepsRace(r: Race, k: nat)
    requires RaceOk(r) && CanMove(r, Commit(k))
    ensures RaceOk(Moved(r, Commit(k)))
  {
    var r' := Moved(r, Commit(k));
    assert Winner(r'.attempts[k]);
    assert r.row.status != Complete && r.row.status != Dismissed;
    forall i | 0 <= i < |r.attempts| ensures !Winner(r.attempts[i]) {
    }
  }

  /** An open row, attempts that have not begun, no award recorded. */
  ghost predicate RaceStarts(r: Race) {
    && r.row.status in {Pending, Overdue} && r.holder.None? && r.ledger == 0
    && forall i :: 0 <= i < |r.attempts| ==> r.attempts[i].progress.Waiting?
  }

  ghost predicate CanPlay(r: Race, ms: seq<Move>)
    decreases |ms|
  {
    ms == [] || (CanMove(r, ms[0]) && CanPlay(Moved(r, ms[0]), ms[1..]))
  }

  function PlayMoves(r: Race, ms: seq<Move>): Race
    requires CanPlay(r, ms)
    decreases |ms|
  {
    if ms == [] then r else PlayMoves(Moved(r, ms[0]), ms[1..])
  }

  lemma {:induction false} PlayKeepsRace(r: Race, ms: seq<Move>)
    requires RaceOk(r) && CanPlay(r, ms)
    ensures RaceOk(PlayMoves(r, ms))
    decreases |ms|
  {
    hide RaceOk, Moved, CanMove;
    if ms != [] {
      MoveKeepsRace(r, ms[0]);
      PlayKeepsRace(Moved(r, ms[0]), ms[1..]);
    }
  }

  /**
   Once every attempt has finished, exactly one of those allowed to close the
   chore has won, the others saw the conflict, and one award exists precisely
   when the winner completed an assigned chore. The only other ending is that
   the series was deleted first, and then nobody won.
   */
  lemma ExactlyOneWinner(r: Race, ms: seq<Move>, k: nat)
    requires RaceStarts(r) && CanPlay(r, ms)
    requires forall i :: 0 <= i < |PlayMoves(r, ms).attempts| ==> PlayMoves(r, ms).attempts[i].progress.Finished?
    requires k < |PlayMoves(r, ms).attempts| && MayClose(PlayMoves(r, ms).row, PlayMoves(r, ms).attempts[k])
    ensures var end := PlayMoves(r, ms);
            if end.row.status == Cancelled
            then (forall i :: 0 <= i < |end.attempts| ==> !Winner(end.attempts[i])) && end.ledger == 0
            else exists w :: && 0 <= w < |end.attempts| && Winner(end.attempts[w])
                             && (forall i :: 0 <= i < |end.attempts| && i != w ==>
                                   end.attempts[i].progress
                                     == Finished(if MayClose(end.row, end.attempts[i]) then Refused409 else Refused403))
                             && end.row.status == Outcome(end.attempts[w].verb)
                             && end.ledger
                                == (if end.attempts[w].verb.ToComplete? && end.row.assignee.Some? then 1 else 0)
  {
    hide CanPlay, PlayMoves, MayClose;
    assert RaceOk(r);
    PlayKeepsRace(r, ms);
    FinishedRace(PlayMoves(r, ms), k);
  }

  lemma FinishedRace(end: Race, k: nat)
    requires RaceOk(end) && k < |end.attempts| && MayClose(end.row, end.attempts[k])
    requires forall i :: 0 <= i < |end.attempts| ==> end.attempts[i].progress.Finished?
    ensures if end.row.status == Cancelled
            then (forall i :: 0 <= i < |end.attempts| ==> !Winner(end.attempts[i])) && end.ledger == 0
            else exists w :: && 0 <= w < |end.attempts| && Winner(end.attempts[w])
                             && (forall i :: 0 <= i < |end.attempts| && i != w ==>
                                   end.attempts[i].progress
                                     == Finished(if MayClose(end.row, end.attempts[i]) then Refused409 else Refused403))
                             && end.row.status == Outcome(end.attempts[w].verb)
                             && end.ledger
                                == (if end.attempts[w].verb.ToComplete? && end.row.assignee.Some? then 1 else 0)
  {
    hide MayClose;
    VerdictOf(end.attempts[k]);
    if end.row.status != Cancelled {
      var w :| 0 <= w < |end.attempts| && Winner(end.attempts[w]);
      forall i | 0 <= i < |end.attempts| && i != w
        ensures end.attempts[i].progress
             == Finished(if MayClose(end.row, end.attempts[i]) then Refused409 else Refused403)
      {
        VerdictOf(end.attempts[i]);
        OthersLose(end, i, w);
      }
    }
  }

  lemma OthersLose(r: Race, i: nat, w: nat)
    requires RaceOk(r) && i < |r.attempts| && w < |r.attempts| && Winner(r.attempts[w]) && i != w
    ensures !Winner(r.attempts[i])
  {
  }

  lemma VerdictOf(a: Attempt)
    requires a.progress.Finished?
    ensures Winner(a) || a.progress == Finished(Refused403) || a.progress == Finished(Refused409)
  {
    var verdict := a.progress.verdict;
    assert verdict.Won? || verdict.Refused403? || verdict.Refused409?;
  }
}
