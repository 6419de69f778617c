/**
 Concurrent attempts to accept one invite. Each reads the clock, waits for the
 invite's row lock, checks the row it then reads, adds the membership, marks the
 invite used and commits. Revoking the invite or creating another one moves its
 expiry and waits for the lock too. Steps of all of them interleave freely.
 */
module InviteLock {
  import opened Types
  import opened Schema

  datatype Verdict = Won | Refused409 | Refused410

  datatype Progress = Waiting | Holding | Wrote | Finished(verdict: Verdict)

  datatype Attempt = Attempt(user: Id, now: Time, progress: Progress)

  /**
   The committed row, the household's active members before the race, those who
   joined by this invite, and whether the expiry was moved meanwhile.
   */
  datatype Race = Race(
    invite: Invite, members: set<Id>, joined: seq<Id>, holder: Option<nat>, attempts: seq<Attempt>, moved: bool)

  datatype Move =
    | Acquire(attempt: nat)
    | Check(attempt: nat)
    | Commit(attempt: nat)
    | Abort(attempt: nat)
    | MoveExpiry(at: Time)

  predicate CanMove(r: Race, m: Move) {
    match m
    case Acquire(i) => i < |r.attempts| && r.attempts[i].progress.Waiting? && r.holder.None?
    case Check(i) => i < |r.attempts| && r.attempts[i].progress.Holding?
    case Commit(i) => i < |r.attempts| && r.attempts[i].progress.Wrote?
    case Abort(i) => i < |r.attempts| && Holds(r.attempts[i])
    case MoveExpiry(_) => r.holder.None?
  }

  predicate Holds(a: Attempt) {
    a.progress.Holding? || a.progress.Wrote?
  }

  predicate Winner(a: Attempt) {
    a.progress == Finished(Won)
  }

  function WithProgress(r: Race, i: nat, p: Progress): Race
    requires i < |r.attempts|
  {
    r.(attempts := r.attempts[i := r.attempts[i].(progress := p)])
  }

  /** What the checks make of the row: gone, already a member, or free to join. */
  function Checked(r: Race, a: Attempt): Progress {
    if r.invite.expiresAt < a.now || r.invite.usedAt.Some? then Finished(Refused410)
    else if a.user in r.members || a.user in r.joined then Finished(Refused409)
    else Wrote
  }

  /** An aborted attempt may be made again; what it wrote is rolled back. */
  function Moved(r: Race, m: Move): Race
    requires CanMove(r, m)
  {
    match m
    case Acquire(i) => WithProgress(r.(holder := Some(i)), i, Holding)
    case Check(i) =>
      var p := Checked(r, r.attempts[i]);
      WithProgress(if p.Wrote? then r else r.(holder := None), i, p)
    case Commit(i) =>
      var a := r.attempts[i];
      WithProgress(
        r.(invite := r.invite.(usedAt := Some(a.now)), joined := r.joined + [a.user], holder := None), i, Finished(Won))
    case Abort(i) => WithProgress(r.(holder := None), i, Waiting)
    case MoveExpiry(at) => r.(invite := r.invite.(expiresAt := at), moved := true)
  }

  ghost predicate AttemptOk(r: Race, i: nat)
    requires i < |r.attempts|
  {
    var a := r.attempts[i];
    && (Holds(a) <==> r.holder == Some(i))
    && (a.progress.Wrote? ==>
         r.invite.usedAt.None? && a.now <= r.invite.expiresAt && a.user !in r.members)
    && (Winner(a) ==> r.invite.usedAt == Some(a.now) && r.joined == [a.user] && a.user !in r.members)
    && (Winner(a) && !r.moved ==> a.now <= r.invite.expiresAt)
    && (a.progress == Finished(Refused409) ==> a.user in r.members)
    && (a.progress == Finished(Refused410) && !r.moved ==> r.invite.usedAt.Some? || r.invite.expiresAt < a.now)
  }

  ghost predicate SomebodyWon(r: Race) {
    exists i :: 0 <= i < |r.attempts| && Winner(r.attempts[i])
  }

  ghost predicate RaceOk(r: Race) {
    && (forall i: nat :: i < |r.attempts| ==> AttemptOk(r, i))
    && (r.holder.Some? ==> r.holder.value < |r.attempts|)
    && (forall i, j :: 0 <= i < j < |r.attempts| ==> !(Winner(r.attempts[i]) && Winner(r.attempts[j])))
    && (r.invite.usedAt.Some? <==> SomebodyWon(r))
    && (r.invite.usedAt.None? ==> r.joined == [])
  }

  /** Winners stay winners when an attempt that has not won moves. */
  lemma WinnersStay(r: Race, r': Race, k: nat)
    requires |r'.attempts| == |r.attempts| && k < |r.attempts| && !Winner(r.attempts[k])
    requires forall i :: 0 <= i < |r.attempts| && i != k ==> r'.attempts[i] == r.attempts[i]
    ensures SomebodyWon(r) || Winner(r'.attempts[k]) <==> SomebodyWon(r')
  {
    if SomebodyWon(r) {
      var i :| 0 <= i < |r.attempts| && Winner(r.attempts[i]);
      assert Winner(r'.attempts[i]);
    }
    if SomebodyWon(r') {
      var i :| 0 <= i < |r'.attempts| && Winner(r'.attempts[i]);
      assert i != k ==> Winner(r.attempts[i]);
    }
  }

  lemma CommitKeepsRace(r: Race, k: nat)
    requires RaceOk(r) && CanMove(r, Commit(k))
    ensures RaceOk(Moved(r, Commit(k)))
  {
    var r' := Moved(r, Commit(k));
    WinnersStay(r, r', k);
    assert AttemptOk(r, k);
    forall i: nat | i < |r.attempts| ensures AttemptOk(r', i) {
      assert AttemptOk(r, i);
      assert Winner(r.attempts[i]) ==> SomebodyWon(r);
    }
    assert forall i :: 0 <= i < |r.attempts| ==> !Winner(r.attempts[i]);
  }

  lemma OtherMoveKeepsRace(r: Race, m: Move)
    requires RaceOk(r) && CanMove(r, m) && !m.Commit?
    ensures RaceOk(Moved(r, m))
  {
    var r' := Moved(r, m);
    if !m.MoveExpiry? {
      WinnersStay(r, r', m.attempt);
      assert AttemptOk(r, m.attempt);
    } else {
      assert r'.attempts == r.attempts;
    }
    hide SomebodyWon;
    forall i: nat | i < |r.attempts| ensures AttemptOk(r', i) {
      assert AttemptOk(r, i);
    }
  }

  lemma MoveKeepsRace(r: Race, m: Move)
    requires RaceOk(r) && CanMove(r, m)
    ensures RaceOk(Moved(r, m)) && |Moved(r, m).attempts| == |r.attempts| && Moved(r, m).members == r.members
    ensures forall i :: 0 <= i < |r.attempts| ==>
      Moved(r, m).attempts[i] == r.attempts[i].(progress := Moved(r, m).attempts[i].progress)
  {
    hide RaceOk;
    if m.Commit? {
      CommitKeepsRace(r, m.attempt);
    } else {
      OtherMoveKeepsRace(r, m);
    }
  }

  // ---------------------------------------------------------------------------
  // Whole interleavings
  // ---------------------------------------------------------------------------

  /** An unused invite and attempts that have not begun. */
  ghost predicate RaceStarts(r: Race) {
    && r.invite.usedAt.None? && r.holder.None? && r.joined == [] && !r.moved
    && forall i :: 0 <= i < |r.attempts| ==> r.attempts[i].progress.Waiting?
  }

  ghost predicate CanPlay(r: Race, ms: seq<Move>)
    decreases |ms|
  {
    ms == [] || (CanMove(r, ms[0]) && CanPlay(Moved(r, ms[0]), ms[1..]))
  }

  function Play(r: Race, ms: seq<Move>): Race
    requires CanPlay(r, ms)
    decreases |ms|
  {
    if ms == [] then r else Play(Moved(r, ms[0]), ms[1..])
  }

  ghost predicate SameRace(r: Race, r': Race) {
    && |r'.attempts| == |r.attempts| && r'.members == r.members
    && forall i :: 0 <= i < |r.attempts| ==>
         r'.attempts[i].user == r.attempts[i].user && r'.attempts[i].now == r.attempts[i].now
  }

  lemma {:induction false} PlayKeepsRace(r: Race, ms: seq<Move>)
    requires RaceOk(r) && CanPlay(r, ms)
    ensures RaceOk(Play(r, ms)) && SameRace(r, Play(r, ms))
    decreases |ms|
  {
    hide RaceOk, Moved, CanMove;
    if ms != [] {
      MoveKeepsRace(r, ms[0]);
      PlayKeepsRace(Moved(r, ms[0]), ms[1..]);
    }
  }

  /** Nobody touches the expiry: the row keeps the expiry it had. */
  lemma {:induction false} ExpiryStands(r: Race, ms: seq<Move>)
    requires CanPlay(r, ms) && !r.moved && forall i :: 0 <= i < |ms| ==> !ms[i].MoveExpiry?
    ensures !Play(r, ms).moved && Play(r, ms).invite.expiresAt == r.invite.expiresAt
    decreases |ms|
  {
    if ms != [] {
      ExpiryStands(Moved(r, ms[0]), ms[1..]);
    }
  }

  /**
   Single use, in every interleaving: at most one attempt wins; exactly the winner's
   user has joined by the invite, was no member before, and its time is the time of use.
   */
  lemma InviteIsUsedOnce(r: Race, ms: seq<Move>, i: nat, j: nat)
    requires RaceStarts(r) && CanPlay(r, ms)
    requires i < |Play(r, ms).attempts| && j < |Play(r, ms).attempts| && i != j
    ensures var end := Play(r, ms);
            && !(Winner(end.attempts[i]) && Winner(end.attempts[j]))
            && (Winner(end.attempts[i]) ==>
                 && end.joined == [end.attempts[i].user] && end.attempts[i].user !in r.members
                 && end.invite.usedAt == Some(end.attempts[i].now))
            && (end.joined != [] <==> SomebodyWon(end))
  {
    hide CanPlay, Play, Moved;
    StartIsOk(r);
    PlayKeepsRace(r, ms);
    var end := Play(r, ms);
    assert AttemptOk(end, i);
    JoinedExactlyWhenWon(end);
  }

  lemma StartIsOk(r: Race)
    requires RaceStarts(r)
    ensures RaceOk(r)
  {
  }

  lemma JoinedExactlyWhenWon(r: Race)
    requires RaceOk(r)
    ensures r.joined != [] <==> SomebodyWon(r)
  {
    if SomebodyWon(r) {
      var i: nat :| i < |r.attempts| && Winner(r.attempts[i]);
      assert AttemptOk(r, i);
    }
  }

  /** Asked in time, by somebody who was not a member. */
  predicate Eligible(r: Race, a: Attempt) {
    a.now <= r.invite.expiresAt && a.user !in r.members
  }

  /**
   When every attempt has finished and nobody moved the expiry, the invite was used
   exactly when some attempt was eligible: the lock never refuses them all.
   */
  lemma SomebodyWinsExactlyWhen(r: Race, ms: seq<Move>)
    requires RaceStarts(r) && CanPlay(r, ms) && forall i :: 0 <= i < |ms| ==> !ms[i].MoveExpiry?
    requires forall i :: 0 <= i < |Play(r, ms).attempts| ==> Play(r, ms).attempts[i].progress.Finished?
    ensures SomebodyWon(Play(r, ms)) <==> exists k :: 0 <= k < |r.attempts| && Eligible(r, r.attempts[k])
  {
    hide CanPlay, Play, Moved;
    StartIsOk(r);
    PlayKeepsRace(r, ms);
    ExpiryStands(r, ms);
    var end := Play(r, ms);
    if k: nat :| k < |r.attempts| && Eligible(r, r.attempts[k]) {
      assert AttemptOk(end, k);
      VerdictOf(end.attempts[k]);
    }
    if SomebodyWon(end) {
      var i: nat :| i < |end.attempts| && Winner(end.attempts[i]);
      assert AttemptOk(end, i) && Eligible(r, r.attempts[i]);
    }
  }

  lemma VerdictOf(a: Attempt)
    requires a.progress.Finished?
    ensures Winner(a) || a.progress == Finished(Refused409) || a.progress == Finished(Refused410)
  {
    var verdict := a.progress.verdict;
    assert verdict.Won? || verdict.Refused409? || verdict.Refused410?;
  }
}
