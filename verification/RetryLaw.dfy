/**
 What becomes of a request that the server refuses: over whole interleavings, when
 it is retried and when the refusal stands; and for every waiting request, what a
 refresh that succeeds, is rejected or times out leads to.
 */
module RetryLaw {
  import opened Types
  import opened RefreshTokens
  import opened ApiClient

  // ---------------------------------------------------------------------------
  // Whole interleavings
  // ---------------------------------------------------------------------------

  /** How many 401 answers request `i` gets in the run. */
  function Refusals(ls: seq<Label>, i: nat): nat
    decreases |ls|
  {
    if ls == [] then 0 else (if ls[0] == RespondUnauthorized(i) then 1 else 0) + Refusals(ls[1..], i)
  }

  /** The refresh request `i` is seen awaiting, or was last. */
  function SeenAwaiting(w: World, i: nat, last: Option<nat>): Option<nat> {
    if i < |w.requests| && w.requests[i].phase.Awaiting? then Some(w.requests[i].phase.refresh) else last
  }

  /** The refresh request `i` last awaited during the run. */
  function LastAwaited(w: World, ls: seq<Label>, i: nat, last: Option<nat>): Option<nat>
    requires Possible(w, ls)
    decreases |ls|
  {
    if ls == [] then last else LastAwaited(Next(w, ls[0]), ls[1..], i, SeenAwaiting(Next(w, ls[0]), i, last))
  }

  /** The awaited refresh settled with the given result. */
  ghost predicate SettledWith(w: World, awaited: Option<nat>, ok: bool) {
    awaited.Some? && awaited.value < |w.refreshes| && w.refreshes[awaited.value] == Settled(ok)
  }

  /** Where a request stands after so many refusals and having awaited that refresh. */
  ghost predicate Tracked(w: World, i: nat, refused: nat, awaited: Option<nat>) {
    && i < |w.requests|
    && var r := w.requests[i];
       match r.phase
       case Unsent => r.fetches == 0 && refused == 0 && awaited.None?
       case OnWire(retried) =>
         if retried then r.fetches == 2 && refused == 1 && !r.authPath && SettledWith(w, awaited, true)
         else r.fetches == 1 && refused == 0 && awaited.None?
       case Awaiting(k) => r.fetches == 1 && refused == 1 && !r.authPath && awaited == Some(k)
       case Finished =>
         || (r.fetches == 1 && refused == 0 && awaited.None?)
         || (r.fetches == 1 && refused == 1 && awaited.None? && r.authPath)
         || (r.fetches == 1 && refused == 1 && !r.authPath && SettledWith(w, awaited, false))
         || (r.fetches == 2 && 1 <= refused <= 2 && !r.authPath && SettledWith(w, awaited, true))
  }

  lemma StepTracks(w: World, l: Label, i: nat, refused: nat, awaited: Option<nat>)
    requires SlotOk(w) && Enabled(w, l) && Tracked(w, i, refused, awaited)
    ensures var w' := Next(w, l);
            Tracked(w', i, refused + if l == RespondUnauthorized(i) then 1 else 0, SeenAwaiting(w', i, awaited))
  {
    hide SlotOk;
    if RequestLabel(l) {
      RequestStepTracks(w, l, i, refused, awaited);
    } else {
      OtherStepsLeaveRequests(w, l);
      SettledStays(w, l);
      hide Next, Enabled;
    }
  }

  lemma RequestStepTracks(w: World, l: Label, i: nat, refused: nat, awaited: Option<nat>)
    requires SlotOk(w) && Enabled(w, l) && RequestLabel(l) && Tracked(w, i, refused, awaited)
    ensures var w' := Next(w, l);
            Tracked(w', i, refused + if l == RespondUnauthorized(i) then 1 else 0, SeenAwaiting(w', i, awaited))
  {
    hide SlotOk, Tracked;
    if l.request == i {
      OwnStepTracks(w, l, refused, awaited);
    } else {
      OthersStepTracks(w, l, i, refused, awaited);
    }
  }

  lemma OwnStepTracks(w: World, l: Label, refused: nat, awaited: Option<nat>)
    requires SlotOk(w) && Enabled(w, l) && RequestLabel(l) && Tracked(w, l.request, refused, awaited)
    ensures var i, w' := l.request, Next(w, l);
            Tracked(w', i, refused + if l == RespondUnauthorized(i) then 1 else 0, SeenAwaiting(w', i, awaited))
  {
  }

  lemma OthersStepTracks(w: World, l: Label, i: nat, refused: nat, awaited: Option<nat>)
    requires Enabled(w, l) && RequestLabel(l) && l.request != i && Tracked(w, i, refused, awaited)
    ensures Tracked(Next(w, l), i, refused, SeenAwaiting(Next(w, l), i, awaited))
  {
  }

  lemma SettledStays(w: World, l: Label)
    requires Enabled(w, l) && !RequestLabel(l)
    ensures |Next(w, l).refreshes| == |w.refreshes|
    ensures forall k :: 0 <= k < |w.refreshes| && w.refreshes[k].Settled? ==> Next(w, l).refreshes[k] == w.refreshes[k]
  {
    hide Refresh, RevokeUser, Login, CleanUp;
  }

  lemma {:induction false} RunTracks(w: World, ls: seq<Label>, i: nat, refused: nat, awaited: Option<nat>)
    requires Consistent(w) && Possible(w, ls) && Tracked(w, i, refused, awaited)
    ensures Tracked(Play(w, ls), i, refused + Refusals(ls, i), LastAwaited(w, ls, i, awaited))
    decreases |ls|
  {
    hide SlotOk, TrafficOk, SessionOk, Next, Enabled, Tracked, SeenAwaiting;
    if ls != [] {
      StepTracks(w, ls[0], i, refused, awaited);
      StepKeepsConsistency(w, ls[0]);
      RunTracks(Next(w, ls[0]), ls[1..], i, refused + (if ls[0] == RespondUnauthorized(i) then 1 else 0),
                SeenAwaiting(Next(w, ls[0]), i, awaited));
    }
  }

  /**
   How every finished request has fared, in any interleaving: never refused; refused
   once and final, on an auth path or because the refresh it awaited failed; or, the
   refresh having succeeded, fetched exactly once more.
   */
  lemma FinishedRequests(w: World, ls: seq<Label>, i: nat)
    requires Start(w) && Possible(w, ls) && i < |w.requests|
    requires i < |Play(w, ls).requests| && Play(w, ls).requests[i].phase.Finished?
    ensures var end := Play(w, ls);
            var r, refused, awaited := end.requests[i], Refusals(ls, i), LastAwaited(w, ls, i, None);
            && (refused == 0 ==> r.fetches == 1)
            && (r.authPath ==> r.fetches == 1 && awaited.None?)
            && (refused > 0 && !r.authPath ==>
                 && (SettledWith(end, awaited, true) || SettledWith(end, awaited, false))
                 && (SettledWith(end, awaited, true) <==> r.fetches == 2)
                 && (SettledWith(end, awaited, false) <==> r.fetches == 1))
  {
    hide Possible, Play, SlotOk, TrafficOk, SessionOk, LastAwaited, Refusals;
    StartIsConsistent(w);
    RunTracks(w, ls, i, 0, None);
  }

  /** A request whose refresh has succeeded is under way again, or has been fetched twice. */
  lemma RefreshedRequestsGoOut(w: World, ls: seq<Label>, i: nat)
    requires Start(w) && Possible(w, ls) && i < |w.requests|
    requires var end := Play(w, ls);
             && i < |end.requests| && !end.requests[i].phase.Awaiting?
             && SettledWith(end, LastAwaited(w, ls, i, None), true)
    ensures Play(w, ls).requests[i].fetches == 2
  {
    hide Possible, Play, SlotOk, TrafficOk, SessionOk, LastAwaited, Refusals;
    StartIsConsistent(w);
    RunTracks(w, ls, i, 0, None);
  }

  // ---------------------------------------------------------------------------
  // What a refresh leads to
  // ---------------------------------------------------------------------------

  /** Request `i` awaits refresh `k`, which has posted `t`. */
  ghost predicate WaitsForPost(w: World, i: nat, k: nat, t: Token) {
    && Consistent(w) && i < |w.requests| && w.requests[i].phase == Awaiting(k)
    && k < |w.refreshes| && w.refreshes[k] == Posted(t)
  }

  lemma OneMoreStep(w: World, l: Label, ls: seq<Label>)
    requires Enabled(w, l) && Possible(Next(w, l), ls)
    ensures var all := [l] + ls; Possible(w, all) && Play(w, all) == Play(Next(w, l), ls)
  {
    hide Enabled, Next;
    assert ([l] + ls)[1..] == ls;
  }

  lemma NoSteps(w: World)
    ensures Possible(w, []) && Play(w, []) == w
  {
  }

  /** The server accepts the posted token, and its reply arrives and is stored. */
  function Renewal(i: nat, k: nat, now: Time): seq<Label> {
    [ServerHandles(k, now)] + ([Deliver(k)] + ([SaveRefreshToken(k)] + ([Resume(i)] + ([Respond(i)] + []))))
  }

  /**
   A refresh that succeeds: every request that awaits it is fetched once more and gets
   that answer, and the client holds the new live token instead of the spent one.
   */
  lemma SuccessfulRefreshRetries(w: World, i: nat, k: nat, t: Token, now: Time)
    requires WaitsForPost(w, i, k, t)
    requires Live(w.auth, t) && now < w.auth.rows[t].expiresAt
    ensures Possible(w, Renewal(i, k, now))
    ensures var end := Play(w, Renewal(i, k, now));
            && i < |end.requests| && end.requests[i].phase.Finished? && end.requests[i].fetches == 2
            && end.stored.Some? && Live(end.auth, end.stored.value) && !Live(end.auth, t)
            && end.auth.rows[end.stored.value].user == w.user
            && end.slot != Some(k)
  {
    hide *;
    FetchedOnce(w, i, k, t);
    RefreshIsStored(w, i, k, t, now);
    var w1 := Next(w, ServerHandles(k, now));
    var w2 := Next(w1, Deliver(k));
    var w3 := Next(w2, SaveRefreshToken(k));
    RetryIsAnswered(w3, i, k);
    var w4 := Next(w3, Resume(i));
    NoSteps(Next(w4, Respond(i)));
    OneMoreStep(w4, Respond(i), []);
    OneMoreStep(w3, Resume(i), [Respond(i)] + []);
    OneMoreStep(w2, SaveRefreshToken(k), [Resume(i)] + ([Respond(i)] + []));
    OneMoreStep(w1, Deliver(k), [SaveRefreshToken(k)] + ([Resume(i)] + ([Respond(i)] + [])));
    OneMoreStep(w, ServerHandles(k, now), [Deliver(k)] + ([SaveRefreshToken(k)] + ([Resume(i)] + ([Respond(i)] + []))));
    RenewalIs(i, k, now);
  }

  lemma RenewalIs(i: nat, k: nat, now: Time)
    ensures Renewal(i, k, now)
         == [ServerHandles(k, now)] + ([Deliver(k)] + ([SaveRefreshToken(k)] + ([Resume(i)] + ([Respond(i)] + []))))
  {
  }

  lemma RefreshIsStored(w: World, i: nat, k: nat, t: Token, now: Time)
    requires WaitsForPost(w, i, k, t) && Live(w.auth, t) && now < w.auth.rows[t].expiresAt
    ensures Enabled(w, ServerHandles(k, now))
    ensures Enabled(Next(w, ServerHandles(k, now)), Deliver(k))
    ensures Enabled(Next(Next(w, ServerHandles(k, now)), Deliver(k)), SaveRefreshToken(k))
    ensures var w3 := Next(Next(Next(w, ServerHandles(k, now)), Deliver(k)), SaveRefreshToken(k));
            && w3.requests == w.requests && k < |w3.refreshes| && w3.refreshes[k] == Settled(true)
            && w3.stored.Some? && Live(w3.auth, w3.stored.value) && !Live(w3.auth, t)
            && w3.auth.rows[w3.stored.value].user == w.user
            && i < |w.requests| && w.requests[i].phase == Awaiting(k)
  {
    TokensOk(w, k);
    Rotation(w.auth, t, now);
    hide SlotOk, TrafficOk, SessionOk, Refresh;
  }

  lemma RetryIsAnswered(w: World, i: nat, k: nat)
    requires i < |w.requests| && w.requests[i].phase == Awaiting(k) && w.requests[i].fetches == 1
    requires k < |w.refreshes| && w.refreshes[k] == Settled(true)
    ensures Enabled(w, Resume(i)) && Enabled(Next(w, Resume(i)), Respond(i))
    ensures var end := Next(Next(w, Resume(i)), Respond(i));
            && i < |end.requests| && end.requests[i].phase.Finished? && end.requests[i].fetches == 2
            && end.stored == w.stored && end.auth == w.auth && end.slot != Some(k)
  {
  }

  lemma FetchedOnce(w: World, i: nat, k: nat, t: Token)
    requires WaitsForPost(w, i, k, t)
    ensures i < |w.requests| && w.requests[i].fetches == 1
  {
    hide SlotOk, SessionOk;
    assert BudgetOk(w.requests[i]);
  }

  lemma TokensOk(w: World, k: nat)
    requires Consistent(w) && k < |w.refreshes| && w.refreshes[k].Posted?
    ensures var t := w.refreshes[k].token;
            t < w.auth.next && (t in w.auth.rows ==> w.auth.rows[t].user == w.user)
    ensures w.slot == Some(k)
  {
  }

  lemma Rotation(a: Auth, t: Token, now: Time)
    requires Live(a, t) && now < a.rows[t].expiresAt && t < a.next
    ensures var (a', reply) := Refresh(a, t, now);
            && reply == Rotated(a.next) && Live(a', a.next) && !Live(a', t) && a'.rows[a.next].user == a.rows[t].user
  {
  }

  function Rejection(i: nat, k: nat, now: Time): seq<Label> {
    [ServerHandles(k, now)] + ([Deliver(k)] + ([Resume(i)] + []))
  }

  /** A refresh that is rejected: the refusal stands, and the client forgets its tokens. */
  lemma RejectedRefreshEndsTheSession(w: World, i: nat, k: nat, t: Token, now: Time)
    requires WaitsForPost(w, i, k, t)
    requires !(Live(w.auth, t) && now < w.auth.rows[t].expiresAt)
    ensures Possible(w, Rejection(i, k, now))
    ensures var end := Play(w, Rejection(i, k, now));
            && i < |end.requests| && end.requests[i] == w.requests[i].(phase := Finished)
            && end.stored.None? && end.slot != Some(k)
  {
    hide SlotOk, TrafficOk, SessionOk;
    var w1 := Next(w, ServerHandles(k, now));
    assert w1.refreshes[k] == Answered(t, Denied);
    hide Refresh;
    var w2 := Next(w1, Deliver(k));
    var w3 := Next(w2, Resume(i));
    NoSteps(w3);
    hide Possible, Play;
    OneMoreStep(w2, Resume(i), []);
    OneMoreStep(w1, Deliver(k), [Resume(i)] + []);
    OneMoreStep(w, ServerHandles(k, now), [Deliver(k)] + ([Resume(i)] + []));
  }

  function Interruption(i: nat, k: nat, l: Label): seq<Label> {
    [l] + ([Deliver(k)] + ([Resume(i)] + []))
  }

  /** A refresh that times out or fails in transit: the refusal stands, but the client keeps its tokens. */
  lemma InterruptedRefreshKeepsTheTokens(w: World, i: nat, k: nat, t: Token, l: Label)
    requires WaitsForPost(w, i, k, t) && (l == GiveUp(k) || l == ServerFails(k))
    ensures Possible(w, Interruption(i, k, l))
    ensures var end := Play(w, Interruption(i, k, l));
            && i < |end.requests| && end.requests[i] == w.requests[i].(phase := Finished)
            && end.stored == w.stored && end.auth == w.auth && end.slot != Some(k)
  {
    hide SlotOk, TrafficOk, SessionOk, Refresh;
    var w1 := Next(w, l);
    var w2 := Next(w1, Deliver(k));
    var w3 := Next(w2, Resume(i));
    NoSteps(w3);
    hide Possible, Play;
    OneMoreStep(w2, Resume(i), []);
    OneMoreStep(w1, Deliver(k), [Resume(i)] + []);
    OneMoreStep(w, l, [Deliver(k)] + ([Resume(i)] + []));
  }

  /**
   A first 401 off the auth paths with no refresh running posts the stored token; with
   one running it joins that.
   */
  lemma FirstRefusalRefreshes(w: World, i: nat)
    requires Consistent(w) && i < |w.requests| && w.requests[i].phase == OnWire(false) && !w.requests[i].authPath
    ensures var w1 := Next(w, RespondUnauthorized(i));
            match w.slot
            case Some(k) => w1.requests[i].phase == Awaiting(k) && w1.refreshes == w.refreshes
            case None =>
              var k := |w.refreshes|;
              && w1.requests[i].phase == Awaiting(k) && w1.slot == Some(k) && Enabled(w1, ReadToken(k))
              && var w2 := Next(w1, ReadToken(k));
                 w2.refreshes[k] == if w.stored.Some? then Posted(w.stored.value) else Settled(false)
  {
    hide SlotOk, TrafficOk, SessionOk;
  }

  /** A rotation's reply is lost, or its token cannot be stored. */
  function LostRotation(i: nat, k: nat, now: Time, unsaved: bool): seq<Label> {
    if unsaved then [ServerHandles(k, now)] + ([Deliver(k)] + ([SaveFails(k)] + ([Resume(i)] + [])))
    else [ServerHandles(k, now)] + ([LoseReply(k)] + ([Deliver(k)] + ([Resume(i)] + [])))
  }

  lemma RotationIsLost(w: World, i: nat, k: nat, t: Token, now: Time)
    requires WaitsForPost(w, i, k, t) && Live(w.auth, t) && now < w.auth.rows[t].expiresAt
    ensures var w1 := Next(w, ServerHandles(k, now));
            && Enabled(w, ServerHandles(k, now)) && Enabled(w1, LoseReply(k)) && Enabled(w1, Deliver(k))
            && Enabled(Next(w1, LoseReply(k)), Deliver(k)) && Enabled(Next(w1, Deliver(k)), SaveFails(k))
            && Enabled(Next(Next(w1, LoseReply(k)), Deliver(k)), Resume(i))
            && Enabled(Next(Next(w1, Deliver(k)), SaveFails(k)), Resume(i))
    ensures var w1 := Next(w, ServerHandles(k, now));
            forall end | end in {Next(Next(Next(w1, LoseReply(k)), Deliver(k)), Resume(i)),
                                 Next(Next(Next(w1, Deliver(k)), SaveFails(k)), Resume(i))} ::
              && i < |w.requests| == |end.requests| && end.requests[i] == w.requests[i].(phase := Finished)
              && end.stored == w.stored && IsReplay(end.auth, t)
  {
    TokensOk(w, k);
    Rotation(w.auth, t, now);
    SpentIsReplay(w.auth, t, now);
    hide SlotOk, TrafficOk, SessionOk, Refresh;
  }

  lemma SpentIsReplay(a: Auth, t: Token, now: Time)
    requires Live(a, t) && now < a.rows[t].expiresAt && t < a.next
    ensures IsReplay(Refresh(a, t, now).0, t)
  {
  }

  /** Either way the refusal stands, the client still stores its old token, and presenting that again is a replay. */
  lemma LostRotationLeavesASpentToken(w: World, i: nat, k: nat, t: Token, now: Time, unsaved: bool)
    requires WaitsForPost(w, i, k, t) && Live(w.auth, t) && now < w.auth.rows[t].expiresAt
    ensures Possible(w, LostRotation(i, k, now, unsaved))
    ensures var end := Play(w, LostRotation(i, k, now, unsaved));
            && i < |w.requests| == |end.requests| && end.requests[i] == w.requests[i].(phase := Finished)
            && end.stored == w.stored && IsReplay(end.auth, t)
  {
    hide WaitsForPost, Next, Enabled, Possible, Play;
    RotationIsLost(w, i, k, t, now);
    var w1 := Next(w, ServerHandles(k, now));
    if unsaved {
      var w2 := Next(w1, Deliver(k));
      var w3 := Next(w2, SaveFails(k));
      NoSteps(Next(w3, Resume(i)));
      OneMoreStep(w3, Resume(i), []);
      OneMoreStep(w2, SaveFails(k), [Resume(i)] + []);
      OneMoreStep(w1, Deliver(k), [SaveFails(k)] + ([Resume(i)] + []));
      OneMoreStep(w, ServerHandles(k, now), [Deliver(k)] + ([SaveFails(k)] + ([Resume(i)] + [])));
    } else {
      var w2 := Next(w1, LoseReply(k));
      var w3 := Next(w2, Deliver(k));
      NoSteps(Next(w3, Resume(i)));
      OneMoreStep(w3, Resume(i), []);
      OneMoreStep(w2, Deliver(k), [Resume(i)] + []);
      OneMoreStep(w1, LoseReply(k), [Deliver(k)] + ([Resume(i)] + []));
      OneMoreStep(w, ServerHandles(k, now), [LoseReply(k)] + ([Deliver(k)] + ([Resume(i)] + [])));
    }
  }

  /** After a logout nothing is posted: the next refusal's refresh fails at once. */
  lemma NothingIsPostedAfterLogout(w: World, i: nat)
    requires Consistent(w) && w.slot.None?
    requires i < |w.requests| && w.requests[i].phase == OnWire(false) && !w.requests[i].authPath
    ensures var w1 := Next(w, ClearTokens);
            && Enabled(w1, RespondUnauthorized(i))
            && var w2 := Next(w1, RespondUnauthorized(i));
               && Enabled(w2, ReadToken(|w.refreshes|))
               && Next(w2, ReadToken(|w.refreshes|)).refreshes[|w.refreshes|] == Settled(false)
  {
    hide SlotOk, TrafficOk, SessionOk;
  }
}
