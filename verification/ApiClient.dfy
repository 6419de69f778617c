/**
 The app's HTTP client (`createDioClient`, `AuthNotifier.refresh`) together with
 the server's token table, as interleaved steps. Every await point of the Dart
 code is a place where any other step may happen; a step is what runs between
 two of them.
 */
module ApiClient {
  import opened Types
  import opened RefreshTokens

  /**
   A request of the app: not sent, on the wire (first try or retry), awaiting refresh
   number `refresh`, or finished.
   */
  datatype Phase = Unsent | OnWire(retried: bool) | Awaiting(refresh: nat) | Finished

  datatype ApiRequest = ApiRequest(authPath: bool, phase: Phase, fetches: nat, started: nat)

  /** What the refresh endpoint's answer amounts to: new tokens, 401/403, or a transient failure. */
  datatype Answer = NewTokens(issued: Token) | Denied | Failed

  /** One execution of `AuthNotifier.refresh`. */
  datatype Refreshing =
    | Reading
    | Posted(token: Token)
    | Answered(token: Token, answer: Answer)
    | SavedAccess(token: Token, issued: Token)
    | Settled(ok: bool)

  /**
   `slot` is the captured `refreshFuture`; `refreshes` lists every execution
   started so far. `tainted` is bookkeeping: since the client's token was issued, a
   rotation's reply was lost, its refresh token could not be stored, the server acted
   on a POST the client had given up on, or the user's tokens were revoked from
   elsewhere. `late` holds the tokens of the POSTs that the client gave up on and that
   the server has not handled yet.
   */
  datatype World = World(
    auth: Auth, user: Id, stored: Option<Token>, slot: Option<nat>,
    refreshes: seq<Refreshing>, requests: seq<ApiRequest>, late: multiset<Token>, tainted: bool)

  datatype Label =
    | Send(request: nat)
    | Respond(request: nat)
    | RespondUnauthorized(request: nat)
    | Resume(request: nat)
    | ReadToken(refresh: nat)
    | ServerHandles(refresh: nat, now: Time)
    | ServerFails(refresh: nat)
    | GiveUp(refresh: nat)
    | HandleLate(token: Token, now: Time)
    | LoseReply(refresh: nat)
    | Deliver(refresh: nat)
    | SaveRefreshToken(refresh: nat)
    | SaveFails(refresh: nat)
    | ClearTokens
    | RevokedElsewhere(whose: Id, now: Time)
    | LoginElsewhere(whose: Id, now: Time)
    | Purge(now: Time)

  predicate Enabled(w: World, l: Label) {
    match l
    case Send(i) => i < |w.requests| && w.requests[i].phase.Unsent?
    case Respond(i) => i < |w.requests| && w.requests[i].phase.OnWire?
    case RespondUnauthorized(i) => i < |w.requests| && w.requests[i].phase.OnWire?
    case Resume(i) =>
      i < |w.requests| && w.requests[i].phase.Awaiting?
      && w.requests[i].phase.refresh < |w.refreshes| && w.refreshes[w.requests[i].phase.refresh].Settled?
    case ReadToken(k) => k < |w.refreshes| && w.refreshes[k].Reading?
    case ServerHandles(k, _) => k < |w.refreshes| && w.refreshes[k].Posted?
    case ServerFails(k) => k < |w.refreshes| && w.refreshes[k].Posted?
    case GiveUp(k) => k < |w.refreshes| && w.refreshes[k].Posted?
    case HandleLate(t, _) => t in w.late
    case LoseReply(k) => k < |w.refreshes| && w.refreshes[k].Answered?
    case Deliver(k) => k < |w.refreshes| && w.refreshes[k].Answered?
    case SaveRefreshToken(k) => k < |w.refreshes| && w.refreshes[k].SavedAccess?
    case SaveFails(k) => k < |w.refreshes| && w.refreshes[k].SavedAccess?
    case _ => true
  }

  function WithRequest(w: World, i: nat, r: ApiRequest): World
    requires i < |w.requests|
  {
    w.(requests := w.requests[i := r])
  }

  function WithRefresh(w: World, k: nat, r: Refreshing): World
    requires k < |w.refreshes|
  {
    w.(refreshes := w.refreshes[k := r])
  }

  /** A 401 that may be retried: join the refresh in the slot, or start one. */
  function JoinOrStart(w: World, i: nat): World
    requires i < |w.requests|
  {
    var r := w.requests[i];
    match w.slot
    case Some(k) => WithRequest(w, i, r.(phase := Awaiting(k)))
    case None =>
      var k := |w.refreshes|;
      WithRequest(w.(refreshes := w.refreshes + [Reading], slot := Some(k)), i,
                  r.(phase := Awaiting(k), started := r.started + 1))
  }

  /** The awaited refresh has settled: clear the slot if it still holds that refresh, then retry or give up. */
  function Resumed(w: World, i: nat, k: nat): World
    requires i < |w.requests| && k < |w.refreshes| && w.refreshes[k].Settled?
  {
    var r := w.requests[i];
    var w1 := if w.slot == Some(k) then w.(slot := None) else w;
    WithRequest(w1, i, if w.refreshes[k].ok then r.(phase := OnWire(true), fetches := r.fetches + 1)
                       else r.(phase := Finished))
  }

  /** The server acts on a POST with `t`: it rotates the token, or takes it for a replay. */
  predicate Acts(a: Auth, t: Token, now: Time) {
    t in a.rows && (a.rows[t].revokedAt.Some? || now < a.rows[t].expiresAt)
  }

  /** A POST is handled whose client has timed out: nobody sees the answer. */
  function HandledLate(w: World, t: Token, now: Time): World {
    w.(auth := Refresh(w.auth, t, now).0, late := w.late - multiset{t}, tainted := w.tainted || Acts(w.auth, t, now))
  }

  function Next(w: World, l: Label): World
    requires Enabled(w, l)
  {
    match l
    case Send(i) => WithRequest(w, i, w.requests[i].(phase := OnWire(false), fetches := w.requests[i].fetches + 1))
    case Respond(i) => WithRequest(w, i, w.requests[i].(phase := Finished))
    case RespondUnauthorized(i) =>
      if w.requests[i].phase.retried || w.requests[i].authPath
      then WithRequest(w, i, w.requests[i].(phase := Finished))
      else JoinOrStart(w, i)
    case Resume(i) => Resumed(w, i, w.requests[i].phase.refresh)
    case ReadToken(k) => WithRefresh(w, k, if w.stored.None? then Settled(false) else Posted(w.stored.value))
    case ServerHandles(k, now) =>
      var t := w.refreshes[k].token;
      var (auth, reply) := Refresh(w.auth, t, now);
      var answer := if reply.Rotated? then NewTokens(reply.issued) else Denied;
      WithRefresh(w.(auth := auth, tainted := w.tainted && !reply.Rotated?), k, Answered(t, answer))
    case ServerFails(k) => WithRefresh(w, k, Answered(w.refreshes[k].token, Failed))
    case GiveUp(k) =>
      var t := w.refreshes[k].token;
      WithRefresh(w.(late := w.late + multiset{t}), k, Answered(t, Failed))
    case HandleLate(t, now) => HandledLate(w, t, now)
    case LoseReply(k) =>
      var r := w.refreshes[k];
      WithRefresh(w.(tainted := w.tainted || r.answer.NewTokens?), k, Answered(r.token, Failed))
    case Deliver(k) =>
      var r := w.refreshes[k];
      (match r.answer
       case NewTokens(issued) => WithRefresh(w, k, SavedAccess(r.token, issued))
       case Denied => WithRefresh(w.(stored := None), k, Settled(false))
       case Failed => WithRefresh(w, k, Settled(false)))
    case SaveRefreshToken(k) => WithRefresh(w.(stored := Some(w.refreshes[k].issued)), k, Settled(true))
    case SaveFails(k) => WithRefresh(w.(tainted := true), k, Settled(false))
    case ClearTokens => w.(stored := None)
    case RevokedElsewhere(whose, now) =>
      w.(auth := RevokeUser(w.auth, whose, now), tainted := w.tainted || whose == w.user)
    case LoginElsewhere(whose, now) => w.(auth := Login(w.auth, whose, now))
    case Purge(now) => w.(auth := CleanUp(w.auth, now))
  }

  // ---------------------------------------------------------------------------
  // One refresh at a time
  // ---------------------------------------------------------------------------

  /** Only the refresh in the slot can be unsettled, and whoever waits, waits for a refresh that exists. */
  ghost predicate SlotOk(w: World) {
    && (w.slot.Some? ==> w.slot.value < |w.refreshes|)
    && (forall k :: 0 <= k < |w.refreshes| && !w.refreshes[k].Settled? ==> w.slot == Some(k))
    && (forall i :: 0 <= i < |w.requests| && w.requests[i].phase.Awaiting? ==>
         w.requests[i].phase.refresh < |w.refreshes|)
    && (w.slot.Some? ==> exists i :: 0 <= i < |w.requests| && w.requests[i].phase == Awaiting(w.slot.value))
  }

  lemma StepKeepsSlot(w: World, l: Label)
    requires SlotOk(w) && Enabled(w, l)
    ensures SlotOk(Next(w, l))
  {
    hide SlotOk;
    if RequestLabel(l) {
      RequestStepKeepsSlot(w, l);
    } else {
      RefreshStepKeepsSlot(w, l);
    }
  }

  lemma RequestStepKeepsSlot(w: World, l: Label)
    requires SlotOk(w) && Enabled(w, l) && RequestLabel(l)
    ensures SlotOk(Next(w, l))
  {
    var w' := Next(w, l);
    if w'.slot.Some? {
      if w.slot.None? {
        assert w'.requests[l.request].phase == Awaiting(w'.slot.value);
      } else {
        var i :| 0 <= i < |w.requests| && w.requests[i].phase == Awaiting(w.slot.value);
        assert w'.requests[i].phase == Awaiting(w'.slot.value);
      }
    }
  }

  lemma RefreshStepKeepsSlot(w: World, l: Label)
    requires SlotOk(w) && Enabled(w, l) && !RequestLabel(l)
    ensures SlotOk(Next(w, l))
  {
    OtherStepsLeaveRequests(w, l);
    SettledStaysSettled(w, l);
    hide Next, Enabled;
  }

  lemma SettledStaysSettled(w: World, l: Label)
    requires Enabled(w, l) && !RequestLabel(l)
    ensures |Next(w, l).refreshes| == |w.refreshes|
    ensures forall k :: 0 <= k < |w.refreshes| && w.refreshes[k].Settled? ==> Next(w, l).refreshes[k].Settled?
  {
    hide Refresh, RevokeUser, Login, CleanUp;
  }

  /** The slot is never stuck: once its refresh has settled, some request is ready to resume and clear it. */
  lemma SettledSlotGetsCleared(w: World)
    requires SlotOk(w) && w.slot.Some? && w.refreshes[w.slot.value].Settled?
    ensures exists i: nat :: i < |w.requests| && Enabled(w, Resume(i)) && Next(w, Resume(i)).slot == None
  {
    var i :| 0 <= i < |w.requests| && w.requests[i].phase == Awaiting(w.slot.value);
    assert Enabled(w, Resume(i)) && Next(w, Resume(i)).slot == None;
  }

  // ---------------------------------------------------------------------------
  // How much traffic a request can cause
  // ---------------------------------------------------------------------------

  predicate BudgetOk(r: ApiRequest) {
    match r.phase
    case Unsent => r.fetches == 0 && r.started == 0
    case OnWire(retried) => r.fetches == (if retried then 2 else 1) && r.started <= (if retried then 1 else 0)
    case Awaiting(_) => r.fetches == 1 && r.started <= 1
    case Finished => r.fetches <= 2 && r.started <= 1
  }

  function Fetches(rs: seq<ApiRequest>): nat {
    if rs == [] then 0 else Fetches(rs[..|rs| - 1]) + rs[|rs| - 1].fetches
  }

  function Started(rs: seq<ApiRequest>): nat {
    if rs == [] then 0 else Started(rs[..|rs| - 1]) + rs[|rs| - 1].started
  }

  lemma {:induction false} SumsAfterUpdate(rs: seq<ApiRequest>, i: nat, r: ApiRequest)
    requires i < |rs|
    ensures Fetches(rs[i := r]) == Fetches(rs) - rs[i].fetches + r.fetches
    ensures Started(rs[i := r]) == Started(rs) - rs[i].started + r.started
  {
    var n := |rs| - 1;
    if i < n {
      SumsAfterUpdate(rs[..n], i, r);
      assert rs[i := r][..n] == rs[..n][i := r];
    } else {
      assert rs[i := r][..n] == rs[..n];
    }
  }

  ghost predicate TrafficOk(w: World) {
    && (forall i :: 0 <= i < |w.requests| ==> BudgetOk(w.requests[i]))
    && |w.refreshes| == Started(w.requests)
  }

  lemma StepKeepsTraffic(w: World, l: Label)
    requires TrafficOk(w) && Enabled(w, l)
    ensures TrafficOk(Next(w, l)) && |Next(w, l).requests| == |w.requests|
  {
    hide Next, Enabled, BudgetOk, Started;
    if RequestLabel(l) {
      RequestStepWithinBudget(w, l);
      SumsAfterUpdate(w.requests, l.request, Next(w, l).requests[l.request]);
    } else {
      OtherStepsLeaveRequests(w, l);
    }
  }

  predicate RequestLabel(l: Label) {
    l.Send? || l.Respond? || l.RespondUnauthorized? || l.Resume?
  }

  lemma RequestStepWithinBudget(w: World, l: Label)
    requires TrafficOk(w) && Enabled(w, l) && RequestLabel(l)
    ensures var i, w' := l.request, Next(w, l);
            && i < |w.requests| == |w'.requests|
            && w'.requests == w.requests[i := w'.requests[i]] && BudgetOk(w'.requests[i])
            && |w'.refreshes| == |w.refreshes| + w'.requests[i].started - w.requests[i].started
  {
    hide Started;
  }

  lemma OtherStepsLeaveRequests(w: World, l: Label)
    requires Enabled(w, l) && !RequestLabel(l)
    ensures Next(w, l).requests == w.requests && |Next(w, l).refreshes| == |w.refreshes|
    ensures Next(w, l).slot == w.slot
  {
    hide Refresh, RevokeUser, Login, CleanUp;
  }

  lemma {:induction false} BudgetsBoundTraffic(rs: seq<ApiRequest>)
    requires forall i :: 0 <= i < |rs| ==> BudgetOk(rs[i])
    ensures Fetches(rs) <= 2 * |rs| && Started(rs) <= |rs|
  {
    if rs != [] {
      BudgetsBoundTraffic(rs[..|rs| - 1]);
    }
  }

  // ---------------------------------------------------------------------------
  // Which token is presented
  // ---------------------------------------------------------------------------

  /** If the server still has the token, it is revoked exactly when the client's session is tainted. */
  ghost predicate Matches(w: World, t: Token) {
    && t < w.auth.next
    && (t in w.auth.rows ==> w.auth.rows[t].user == w.user && (w.auth.rows[t].revokedAt.Some? <==> w.tainted))
  }

  /** If the server still has the token, it is the user's and revoked. */
  ghost predicate Spent(w: World, t: Token) {
    t < w.auth.next && (t in w.auth.rows ==> w.auth.rows[t].user == w.user && w.auth.rows[t].revokedAt.Some?)
  }

  ghost predicate StoredIsNoneOr(w: World, t: Token) {
    w.stored.None? || w.stored == Some(t)
  }

  ghost predicate StoredMatches(w: World) {
    w.stored.Some? ==> Matches(w, w.stored.value)
  }

  /** The token the client will present next, in every phase of a refresh. */
  ghost predicate RefreshOk(w: World, r: Refreshing) {
    match r
    case Posted(t) => Matches(w, t) && StoredIsNoneOr(w, t)
    case Answered(t, NewTokens(issued)) => Matches(w, issued) && StoredIsNoneOr(w, t) && Spent(w, t)
    case Answered(t, _) => Matches(w, t) && StoredIsNoneOr(w, t)
    case SavedAccess(t, issued) => Matches(w, issued) && StoredIsNoneOr(w, t) && Spent(w, t)
    case _ => StoredMatches(w)
  }

  /** The client holds no token, or `t`, and has not been answered with a successor of it. */
  ghost predicate HoldsAtMost(w: World, t: Token) {
    match w.slot
    case None => StoredIsNoneOr(w, t)
    case Some(k) =>
      k < |w.refreshes|
      && match w.refreshes[k]
         case Posted(u) => u == t
         case Answered(u, NewTokens(_)) => false
         case Answered(u, _) => u == t
         case SavedAccess(_, _) => false
         case _ => StoredIsNoneOr(w, t)
  }

  /** A POST still under way carries a token of the user; if that is live, the client holds no other. */
  ghost predicate LateOk(w: World, t: Token) {
    && t < w.auth.next
    && (t in w.auth.rows ==> w.auth.rows[t].user == w.user && (w.auth.rows[t].revokedAt.None? ==> HoldsAtMost(w, t)))
  }

  ghost predicate HeldOk(w: World) {
    match w.slot
    case None => StoredMatches(w)
    case Some(k) => k < |w.refreshes| && RefreshOk(w, w.refreshes[k])
  }

  ghost predicate LatePostsOk(w: World) {
    forall t :: t in w.late ==> LateOk(w, t)
  }

  ghost predicate SessionOk(w: World) {
    && (forall t :: t in w.auth.rows ==> t < w.auth.next)
    && HeldOk(w) && LatePostsOk(w)
  }

  lemma ServerStepKeepsSession(w: World, k: nat, now: Time)
    requires SlotOk(w) && SessionOk(w) && Enabled(w, ServerHandles(k, now))
    ensures SessionOk(Next(w, ServerHandles(k, now)))
  {
  }

  lemma LateStepKeepsHeld(w: World, t: Token, now: Time)
    requires SlotOk(w) && SessionOk(w) && Enabled(w, HandleLate(t, now))
    ensures HeldOk(Next(w, HandleLate(t, now)))
    ensures forall u :: u in Next(w, HandleLate(t, now)).auth.rows ==> u < Next(w, HandleLate(t, now)).auth.next
  {
    assert LateOk(w, t);
    hide LatePostsOk, SlotOk;
  }

  lemma LateStepKeepsLate(w: World, t: Token, now: Time)
    requires SlotOk(w) && SessionOk(w) && Enabled(w, HandleLate(t, now))
    ensures LatePostsOk(Next(w, HandleLate(t, now)))
  {
    hide Matches, SlotOk;
    assert LateOk(w, t);
  }

  lemma LateStepKeepsSession(w: World, t: Token, now: Time)
    requires SlotOk(w) && SessionOk(w) && Enabled(w, HandleLate(t, now))
    ensures SessionOk(Next(w, HandleLate(t, now)))
  {
    hide HeldOk, LatePostsOk, Next, SlotOk, Enabled;
    LateStepKeepsHeld(w, t, now);
    LateStepKeepsLate(w, t, now);
  }

  lemma ClientStepKeepsSession(w: World, l: Label)
    requires SlotOk(w) && SessionOk(w) && Enabled(w, l) && KeepsTable(l)
    ensures SessionOk(Next(w, l))
  {
    hide SlotOk, HeldOk, LatePostsOk, Next, Enabled;
    ClientStepKeepsTable(w, l);
    if RequestLabel(l) {
      RequestStepKeepsHeld(w, l);
      RequestStepKeepsLate(w, l);
    } else {
      RefreshStepKeepsHeld(w, l);
      RefreshStepKeepsLate(w, l);
    }
  }

  /** The steps that leave the server's table alone. */
  predicate KeepsTable(l: Label) {
    !l.ServerHandles? && !l.HandleLate? && !l.RevokedElsewhere? && !l.LoginElsewhere? && !l.Purge?
  }

  lemma ClientStepKeepsTable(w: World, l: Label)
    requires Enabled(w, l) && KeepsTable(l)
    ensures Next(w, l).auth == w.auth && Next(w, l).user == w.user
  {
    hide Refresh, RevokeUser, Login, CleanUp;
  }

  lemma RequestStepKeepsHeld(w: World, l: Label)
    requires SlotOk(w) && SessionOk(w) && Enabled(w, l) && RequestLabel(l)
    ensures HeldOk(Next(w, l))
  {
    hide Refresh, RevokeUser, Login, CleanUp, LatePostsOk;
  }

  lemma RequestStepKeepsLate(w: World, l: Label)
    requires SlotOk(w) && SessionOk(w) && Enabled(w, l) && RequestLabel(l)
    ensures LatePostsOk(Next(w, l))
  {
    hide Refresh, RevokeUser, Login, CleanUp, Matches;
  }

  lemma RefreshStepKeepsHeld(w: World, l: Label)
    requires SlotOk(w) && SessionOk(w) && Enabled(w, l) && !RequestLabel(l) && KeepsTable(l)
    ensures HeldOk(Next(w, l))
  {
    hide SlotOk, SessionOk, HeldOk, Next, Enabled;
    if l.LoseReply? || l.SaveFails? {
      LossKeepsHeld(w, l);
    } else {
      ProgressKeepsHeld(w, l);
    }
  }

  lemma LossKeepsHeld(w: World, l: Label)
    requires SlotOk(w) && SessionOk(w) && Enabled(w, l) && (l.LoseReply? || l.SaveFails?)
    ensures HeldOk(Next(w, l))
  {
    hide LatePostsOk;
  }

  lemma ProgressKeepsHeld(w: World, l: Label)
    requires SlotOk(w) && SessionOk(w) && Enabled(w, l) && !RequestLabel(l) && KeepsTable(l)
    requires !l.LoseReply? && !l.SaveFails?
    ensures HeldOk(Next(w, l))
  {
    hide Refresh, RevokeUser, Login, CleanUp, LatePostsOk, Matches, Spent;
    SameTokens(w, Next(w, l));
  }

  lemma SameTokens(w: World, w': World)
    requires w'.auth == w.auth && w'.user == w.user && w'.tainted == w.tainted
    ensures forall t :: (Matches(w', t) <==> Matches(w, t)) && (Spent(w', t) <==> Spent(w, t))
  {
  }

  lemma RefreshStepKeepsLate(w: World, l: Label)
    requires SlotOk(w) && SessionOk(w) && Enabled(w, l) && !RequestLabel(l) && KeepsTable(l)
    ensures LatePostsOk(Next(w, l))
  {
    hide Refresh, RevokeUser, Login, CleanUp;
  }

  lemma OutsideStepKeepsSession(w: World, l: Label)
    requires SlotOk(w) && SessionOk(w) && Enabled(w, l)
    requires l.RevokedElsewhere? || l.LoginElsewhere? || l.Purge?
    ensures SessionOk(Next(w, l))
  {
    hide HeldOk, LatePostsOk, Next, SlotOk, Enabled;
    OutsideStepKeepsHeld(w, l);
    OutsideStepKeepsLate(w, l);
  }

  lemma OutsideStepKeepsTokens(w: World, l: Label)
    requires SessionOk(w) && Enabled(w, l)
    requires l.RevokedElsewhere? || l.LoginElsewhere? || l.Purge?
    ensures var w' := Next(w, l);
            && w' == w.(auth := w'.auth, tainted := w'.tainted)
            && (forall t :: t in w'.auth.rows ==> t < w'.auth.next)
            && (forall t :: (Matches(w, t) ==> Matches(w', t)) && (Spent(w, t) ==> Spent(w', t)))
  {
    hide HeldOk, LatePostsOk;
  }

  lemma OutsideStepKeepsHeld(w: World, l: Label)
    requires SessionOk(w) && Enabled(w, l)
    requires l.RevokedElsewhere? || l.LoginElsewhere? || l.Purge?
    ensures HeldOk(Next(w, l))
    ensures forall t :: t in Next(w, l).auth.rows ==> t < Next(w, l).auth.next
  {
    hide LatePostsOk, Next, Enabled, Matches, Spent;
    OutsideStepKeepsTokens(w, l);
  }

  lemma OutsideStepKeepsLate(w: World, l: Label)
    requires SessionOk(w) && Enabled(w, l)
    requires l.RevokedElsewhere? || l.LoginElsewhere? || l.Purge?
    ensures LatePostsOk(Next(w, l))
  {
    hide HeldOk;
  }

  ghost predicate Consistent(w: World) {
    SlotOk(w) && TrafficOk(w) && SessionOk(w)
  }

  lemma StepKeepsConsistency(w: World, l: Label)
    requires Consistent(w) && Enabled(w, l)
    ensures Consistent(Next(w, l))
  {
    hide SlotOk, TrafficOk, SessionOk, Next, Enabled;
    StepKeepsSlot(w, l);
    StepKeepsTraffic(w, l);
    match l
    case ServerHandles(k, now) => ServerStepKeepsSession(w, k, now);
    case HandleLate(t, now) => LateStepKeepsSession(w, t, now);
    case RevokedElsewhere(_, _) => OutsideStepKeepsSession(w, l);
    case LoginElsewhere(_, _) => OutsideStepKeepsSession(w, l);
    case Purge(_) => OutsideStepKeepsSession(w, l);
    case _ => ClientStepKeepsSession(w, l);
  }

  // ---------------------------------------------------------------------------
  // Whole interleavings
  // ---------------------------------------------------------------------------

  /** `m` unsent requests of a client that has just stored the token of a login. */
  ghost predicate Start(w: World) {
    && w.slot.None? && w.refreshes == [] && w.late == multiset{} && !w.tainted
    && (forall i :: 0 <= i < |w.requests| ==>
         w.requests[i].phase.Unsent? && w.requests[i].fetches == 0 && w.requests[i].started == 0)
    && (forall t :: t in w.auth.rows ==> t < w.auth.next)
    && (w.stored.Some? ==> Live(w.auth, w.stored.value) && w.auth.rows[w.stored.value].user == w.user)
  }

  ghost predicate Possible(w: World, ls: seq<Label>)
    decreases |ls|
  {
    ls == [] || (Enabled(w, ls[0]) && Possible(Next(w, ls[0]), ls[1..]))
  }

  function Play(w: World, ls: seq<Label>): World
    requires Possible(w, ls)
    decreases |ls|
  {
    if ls == [] then w else Play(Next(w, ls[0]), ls[1..])
  }

  lemma StartIsConsistent(w: World)
    requires Start(w)
    ensures Consistent(w)
  {
    NothingStarted(w.requests);
  }

  lemma {:induction false} NothingStarted(rs: seq<ApiRequest>)
    requires forall i :: 0 <= i < |rs| ==> rs[i].started == 0
    ensures Started(rs) == 0
  {
    if rs != [] {
      NothingStarted(rs[..|rs| - 1]);
    }
  }

  lemma {:induction false} PlayKeepsConsistency(w: World, ls: seq<Label>)
    requires Consistent(w) && Possible(w, ls)
    ensures Consistent(Play(w, ls)) && |Play(w, ls).requests| == |w.requests|
    decreases |ls|
  {
    hide Consistent, Next, Enabled;
    if ls != [] {
      StepKeepsConsistency(w, ls[0]);
      RequestsStay(w, ls[0]);
      PlayKeepsConsistency(Next(w, ls[0]), ls[1..]);
    }
  }

  lemma RequestsStay(w: World, l: Label)
    requires Consistent(w) && Enabled(w, l)
    ensures |Next(w, l).requests| == |w.requests|
  {
    hide SlotOk, SessionOk, TrafficOk, Next;
    StepKeepsTraffic(w, l);
  }

  /** For any interleaving at most one refresh is unsettled at any time. */
  lemma AtMostOneRefreshInFlight(w: World, ls: seq<Label>, j: nat, k: nat)
    requires Start(w) && Possible(w, ls)
    requires var end := Play(w, ls);
             j < |end.refreshes| && k < |end.refreshes| && !end.refreshes[j].Settled? && !end.refreshes[k].Settled?
    ensures j == k
  {
    hide Start, Possible, Play, TrafficOk, SessionOk;
    StartIsConsistent(w);
    PlayKeepsConsistency(w, ls);
  }

  /** m requests cause at most 2m fetches and m refreshes, even if every answer is a 401. */
  lemma TrafficIsBounded(w: World, ls: seq<Label>)
    requires Start(w) && Possible(w, ls)
    ensures Fetches(Play(w, ls).requests) <= 2 * |w.requests|
    ensures |Play(w, ls).refreshes| <= |w.requests|
  {
    hide Start, Possible, Play, SlotOk, SessionOk, BudgetOk;
    StartIsConsistent(w);
    PlayKeepsConsistency(w, ls);
    BudgetsBoundTraffic(Play(w, ls).requests);
  }

  /** The server handles a POST of this client, on time or late, whose token it has revoked. */
  predicate FiresDetection(w: World, l: Label)
    requires Enabled(w, l)
  {
    || (l.ServerHandles? && IsReplay(w.auth, w.refreshes[l.refresh].token))
    || (l.HandleLate? && IsReplay(w.auth, l.token))
  }

  /** How often the server's reuse detection fires for this client. */
  function Detections(w: World, ls: seq<Label>): nat
    requires Possible(w, ls)
    decreases |ls|
  {
    if ls == [] then 0
    else
      (if FiresDetection(w, ls[0]) then 1 else 0)
      + Detections(Next(w, ls[0]), ls[1..])
  }

  /**
   No lost rotation reply, no rotated token that could not be stored, no abandoned
   POST on which the server still acts, no revocation of this user's tokens from
   elsewhere.
   */
  predicate Undisturbed(w: World, l: Label)
    requires Enabled(w, l)
  {
    && (l.LoseReply? ==> !w.refreshes[l.refresh].answer.NewTokens?)
    && !l.SaveFails?
    && (l.HandleLate? ==> !Acts(w.auth, l.token, l.now))
    && (l.RevokedElsewhere? ==> l.whose != w.user)
  }

  ghost predicate AllUndisturbed(w: World, ls: seq<Label>)
    requires Possible(w, ls)
    decreases |ls|
  {
    ls == [] || (Undisturbed(w, ls[0]) && AllUndisturbed(Next(w, ls[0]), ls[1..]))
  }

  /**
   When reuse detection fires: exactly when the presented token is still stored
   by the server and the session is tainted. An untainted client never presents
   a rotated token.
   */
  lemma DetectionExactlyWhenTainted(w: World, k: nat, now: Time)
    requires Consistent(w) && Enabled(w, ServerHandles(k, now))
    ensures IsReplay(w.auth, w.refreshes[k].token) <==> w.refreshes[k].token in w.auth.rows && w.tainted
  {
    hide TrafficOk;
  }

  /** The token the client holds: what it presents next, or was just issued. */
  function Current(w: World): Option<Token> {
    match w.slot
    case None => w.stored
    case Some(k) =>
      if k >= |w.refreshes| then w.stored
      else
        match w.refreshes[k]
        case Posted(t) => Some(t)
        case Answered(_, NewTokens(issued)) => Some(issued)
        case Answered(t, _) => Some(t)
        case SavedAccess(_, issued) => Some(issued)
        case _ => w.stored
  }

  /**
   When reuse detection fires for a POST the client gave up on, while the client
   holds a token: exactly when the server still stores the POST's token and that is
   not the one held, or the session is tainted.
   */
  lemma LateDetectionExactlyWhen(w: World, t: Token, now: Time)
    requires Consistent(w) && Enabled(w, HandleLate(t, now)) && Current(w).Some?
    ensures FiresDetection(w, HandleLate(t, now)) <==>
            t in w.auth.rows && (Current(w) != Some(t) || w.tainted)
  {
    hide TrafficOk;
    assert LateOk(w, t);
  }

  lemma TaintHasACause(w: World, l: Label)
    requires Consistent(w) && Enabled(w, l) && !w.tainted && Undisturbed(w, l)
    ensures !Next(w, l).tainted && Next(w, l).user == w.user
  {
    hide Consistent, Refresh, RevokeUser, Login, CleanUp;
  }

  lemma UndisturbedStepIsSilent(w: World, l: Label)
    requires Consistent(w) && Enabled(w, l) && !w.tainted && Undisturbed(w, l)
    ensures !FiresDetection(w, l)
  {
    hide Consistent;
    if l.ServerHandles? {
      DetectionExactlyWhenTainted(w, l.refresh, l.now);
    }
  }

  lemma {:induction false} UndisturbedNeverDetected(w: World, ls: seq<Label>)
    requires Consistent(w) && !w.tainted && Possible(w, ls) && AllUndisturbed(w, ls)
    ensures Detections(w, ls) == 0
    decreases |ls|
  {
    hide Consistent, Next, Undisturbed, FiresDetection;
    if ls != [] {
      StepKeepsConsistency(w, ls[0]);
      TaintHasACause(w, ls[0]);
      UndisturbedStepIsSilent(w, ls[0]);
      UndisturbedNeverDetected(Next(w, ls[0]), ls[1..]);
    }
  }

  /** Without such a disturbance reuse detection never fires, for any interleaving. */
  lemma ReuseDetectionStaysSilent(w: World, ls: seq<Label>)
    requires Start(w) && Possible(w, ls) && AllUndisturbed(w, ls)
    ensures Detections(w, ls) == 0
  {
    hide Consistent, Possible, AllUndisturbed, Detections;
    StartIsConsistent(w);
    UndisturbedNeverDetected(w, ls);
  }

  // ---------------------------------------------------------------------------
  // The callbacks over the client's own variables
  // ---------------------------------------------------------------------------

  /** What the client does not hold: the server, its user and the POSTs under way. */
  datatype Outside = Outside(auth: Auth, user: Id, late: multiset<Token>, tainted: bool)

  function OutsideOf(w: World): Outside {
    Outside(w.auth, w.user, w.late, w.tainted)
  }

  /** The steps that run in the client; the others are the server's, the network's and other devices'. */
  predicate ByClient(l: Label) {
    !l.ServerHandles? && !l.HandleLate? && !l.LoseReply? && !l.RevokedElsewhere? && !l.LoginElsewhere? && !l.Purge?
  }

  class HttpClient {
    var stored: Option<Token>
    var slot: Option<nat>
    var refreshes: seq<Refreshing>
    var requests: seq<ApiRequest>

    /** The client's variables placed next to what is outside it. */
    ghost function In(e: Outside): World
      reads this
    {
      World(e.auth, e.user, stored, slot, refreshes, requests, e.late, e.tainted)
    }

    /** `onError`, up to its await. */
    method OnUnauthorized(i: nat, ghost e: Outside)
      requires Enabled(In(e), RespondUnauthorized(i))
      modifies this
      ensures In(e) == Next(old(In(e)), RespondUnauthorized(i))
    {
      var r := requests[i];
      if r.phase.retried || r.authPath {
        requests := requests[i := r.(phase := Finished)];
        return;
      }
      if slot.None? {
        slot := Some(|refreshes|);
        refreshes := refreshes + [Reading];
        r := r.(started := r.started + 1);
      }
      requests := requests[i := r.(phase := Awaiting(slot.value))];
    }

    /** `onError`, after the shared refresh has settled. */
    method OnRefreshSettled(i: nat, ghost e: Outside)
      requires Enabled(In(e), Resume(i))
      modifies this
      ensures In(e) == Next(old(In(e)), Resume(i))
    {
      var r := requests[i];
      var k := r.phase.refresh;
      if slot == Some(k) {
        slot := None;
      }
      if !refreshes[k].ok {
        requests := requests[i := r.(phase := Finished)];
        return;
      }
      requests := requests[i := r.(phase := OnWire(true), fetches := r.fetches + 1)];
    }

    /** `refresh`, reading the stored token. */
    method StartRefresh(k: nat, ghost e: Outside)
      requires Enabled(In(e), ReadToken(k))
      modifies this
      ensures In(e) == Next(old(In(e)), ReadToken(k))
    {
      refreshes := refreshes[k := if stored.None? then Settled(false) else Posted(stored.value)];
    }

    /** `refresh`, on the endpoint's answer: only a rejection clears the stored tokens. */
    method OnRefreshAnswer(k: nat, ghost e: Outside)
      requires Enabled(In(e), Deliver(k))
      modifies this
      ensures In(e) == Next(old(In(e)), Deliver(k))
    {
      var r := refreshes[k];
      match r.answer
      case NewTokens(issued) =>
        refreshes := refreshes[k := SavedAccess(r.token, issued)];
      case Denied =>
        stored := None;
        refreshes := refreshes[k := Settled(false)];
      case Failed =>
        refreshes := refreshes[k := Settled(false)];
    }

    /** `refresh`, persisting the rotated refresh token. */
    method PersistRefreshToken(k: nat, ghost e: Outside)
      requires Enabled(In(e), SaveRefreshToken(k))
      modifies this
      ensures In(e) == Next(old(In(e)), SaveRefreshToken(k))
    {
      stored := Some(refreshes[k].issued);
      refreshes := refreshes[k := Settled(true)];
    }

    /** `refresh`, when the POST times out: it may still be under way. */
    method OnTimeout(k: nat, ghost e: Outside)
      requires Enabled(In(e), GiveUp(k))
      modifies this
      ensures In(e.(late := e.late + multiset{old(refreshes[k].token)})) == Next(old(In(e)), GiveUp(k))
    {
      refreshes := refreshes[k := Answered(refreshes[k].token, Failed)];
    }

    /** `refresh`, when storing the rotated refresh token throws: the old one stays stored. */
    method OnSaveFailed(k: nat, ghost e: Outside)
      requires Enabled(In(e), SaveFails(k))
      modifies this
      ensures In(e.(tainted := true)) == Next(old(In(e)), SaveFails(k))
    {
      refreshes := refreshes[k := Settled(false)];
    }

    /** Any callback of the client, in a consistent world, takes the machine's step and leaves the world consistent. */
    method React(l: Label, ghost w: World)
      requires w == In(OutsideOf(w)) && Consistent(w) && Enabled(w, l) && ByClient(l)
      modifies this
      ensures var w' := Next(w, l); w' == In(OutsideOf(w')) && Consistent(w')
      ensures old(stored) != stored ==> l.Deliver? || l.SaveRefreshToken? || l.ClearTokens?
      ensures |refreshes| <= |old(refreshes)| + if l.RespondUnauthorized? && old(slot).None? then 1 else 0
    {
      hide SlotOk, TrafficOk, SessionOk, Refresh, RevokeUser, Login, CleanUp;
      StepKeepsConsistency(w, l);
      match l
      case Send(i) =>
        requests := requests[i := requests[i].(phase := OnWire(false), fetches := requests[i].fetches + 1)];
      case Respond(i) => requests := requests[i := requests[i].(phase := Finished)];
      case RespondUnauthorized(i) => OnUnauthorized(i, OutsideOf(w));
      case Resume(i) => OnRefreshSettled(i, OutsideOf(w));
      case ReadToken(k) => StartRefresh(k, OutsideOf(w));
      case ServerFails(k) => refreshes := refreshes[k := Answered(refreshes[k].token, Failed)];
      case GiveUp(k) => OnTimeout(k, OutsideOf(w));
      case Deliver(k) => OnRefreshAnswer(k, OutsideOf(w));
      case SaveRefreshToken(k) => PersistRefreshToken(k, OutsideOf(w));
      case SaveFails(k) => OnSaveFailed(k, OutsideOf(w));
      case ClearTokens => stored := None;
    }
  }
}
