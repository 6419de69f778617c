/**
 A run in which the client's refresh times out, the next one succeeds, and the
 abandoned POST, handled last, is taken for a replay.
 */
module LateRefresh {
  import opened Types
  import opened RefreshTokens
  import opened ApiClient

  const OWNER: Id := 7

  const UNSENT := ApiRequest(false, Unsent, 0, 0)
  const SENT := ApiRequest(false, OnWire(false), 1, 0)
  const GONE := ApiRequest(false, Finished, 1, 1)

  function Waiting(k: nat): ApiRequest {
    ApiRequest(false, Awaiting(k), 1, 1)
  }

  /** The server has token 0, then has rotated it to token 1. */
  const BEFORE := Auth(map[0 := Row(OWNER, 10, None)], 1, map[0 := 0])
  const ROTATED := Auth(
    map[0 := Row(OWNER, 10, Some(5)), 1 := Row(OWNER, 5 + REFRESH_TTL, None)], 2, map[0 := 0, 1 := 0])

  function At(
    a: Auth, t: Token, slot: Option<nat>, refreshes: seq<Refreshing>, requests: seq<ApiRequest>,
    late: multiset<Token>): World
  {
    World(a, OWNER, Some(t), slot, refreshes, requests, late, false)
  }

  function Begin(): World {
    At(BEFORE, 0, None, [], [UNSENT, UNSENT], multiset{})
  }

  /** Request 0's refresh has posted token 0, timed out and settled; request 1 is on the wire. */
  function TimedOut(): World {
    At(BEFORE, 0, None, [Settled(false)], [GONE, SENT], multiset{0})
  }

  /** Request 1's refresh has stored token 1; the first POST is still under way. */
  function Renewed(): World {
    At(ROTATED, 1, Some(1), [Settled(false), Settled(true)], [GONE, Waiting(1)], multiset{0})
  }

  /** Request 1 has been retried and answered. */
  function Served(): World {
    At(ROTATED, 1, None, [Settled(false), Settled(true)], [GONE, ApiRequest(false, Finished, 2, 1)], multiset{0})
  }

  /** The step is possible, undisturbed and fires no detection. */
  ghost predicate Quietly(w: World, l: Label, w': World) {
    Enabled(w, l) && Next(w, l) == w' && Undisturbed(w, l) && !FiresDetection(w, l)
  }

  /** A run of such steps, and where it ends. */
  ghost predicate QuietRun(w: World, ls: seq<Label>, w': World)
  {
    Possible(w, ls) && AllUndisturbed(w, ls) && Detections(w, ls) == 0 && Play(w, ls) == w'
  }

  lemma QuietlyOnce(w: World, l: Label, w1: World, ls: seq<Label>, w': World)
    requires Quietly(w, l, w1) && QuietRun(w1, ls, w')
    ensures QuietRun(w, [l] + ls, w')
  {
    hide Enabled, Next, Undisturbed, FiresDetection;
    assert ([l] + ls)[1..] == ls;
  }

  lemma NoSteps(w: World)
    ensures QuietRun(w, [], w)
  {
  }

  lemma BothSent()
    ensures var w1 := At(BEFORE, 0, None, [], [SENT, UNSENT], multiset{});
            var w2 := At(BEFORE, 0, None, [], [SENT, SENT], multiset{});
            Quietly(Begin(), Send(0), w1) && Quietly(w1, Send(1), w2)
  {
    hide Refresh, RevokeUser, Login, CleanUp;
  }

  lemma FirstPosts()
    ensures var w2 := At(BEFORE, 0, None, [], [SENT, SENT], multiset{});
            var w3 := At(BEFORE, 0, Some(0), [Reading], [Waiting(0), SENT], multiset{});
            var w4 := At(BEFORE, 0, Some(0), [Posted(0)], [Waiting(0), SENT], multiset{});
            Quietly(w2, RespondUnauthorized(0), w3) && Quietly(w3, ReadToken(0), w4)
  {
    hide Refresh, RevokeUser, Login, CleanUp;
  }

  lemma FirstGivesUp()
    ensures var w4 := At(BEFORE, 0, Some(0), [Posted(0)], [Waiting(0), SENT], multiset{});
            var w5 := At(BEFORE, 0, Some(0), [Answered(0, Failed)], [Waiting(0), SENT], multiset{0});
            var w6 := At(BEFORE, 0, Some(0), [Settled(false)], [Waiting(0), SENT], multiset{0});
            Quietly(w4, GiveUp(0), w5) && Quietly(w5, Deliver(0), w6) && Quietly(w6, Resume(0), TimedOut())
  {
    hide Refresh, RevokeUser, Login, CleanUp;
  }

  lemma RotatedOnce()
    ensures Refresh(BEFORE, 0, 5) == (ROTATED, Rotated(1))
  {
    assert Refresh(BEFORE, 0, 5).0.rows == ROTATED.rows;
    assert Refresh(BEFORE, 0, 5).0.origin == ROTATED.origin;
  }

  lemma SecondPosts()
    ensures var w8 := At(BEFORE, 0, Some(1), [Settled(false), Reading], [GONE, Waiting(1)], multiset{0});
            var w9 := At(BEFORE, 0, Some(1), [Settled(false), Posted(0)], [GONE, Waiting(1)], multiset{0});
            Quietly(TimedOut(), RespondUnauthorized(1), w8) && Quietly(w8, ReadToken(1), w9)
  {
    hide Refresh, RevokeUser, Login, CleanUp;
  }

  lemma SecondIsRenewed()
    ensures var w9 := At(BEFORE, 0, Some(1), [Settled(false), Posted(0)], [GONE, Waiting(1)], multiset{0});
            var w10 := At(ROTATED, 0, Some(1), [Settled(false), Answered(0, NewTokens(1))], [GONE, Waiting(1)],
              multiset{0});
            var w11 := At(ROTATED, 0, Some(1), [Settled(false), SavedAccess(0, 1)], [GONE, Waiting(1)], multiset{0});
            && Quietly(w9, ServerHandles(1, 5), w10) && Quietly(w10, Deliver(1), w11)
            && Quietly(w11, SaveRefreshToken(1), Renewed())
  {
    hide Refresh, RevokeUser, Login, CleanUp;
    RotatedOnce();
  }

  function Timeout(): seq<Label> {
    [Send(0)] + ([Send(1)] + ([RespondUnauthorized(0)]
      + ([ReadToken(0)] + ([GiveUp(0)] + ([Deliver(0)] + ([Resume(0)] + Renewal()))))))
  }

  function Renewal(): seq<Label> {
    [RespondUnauthorized(1)] + ([ReadToken(1)] + ([ServerHandles(1, 5)]
      + ([Deliver(1)] + ([SaveRefreshToken(1)] + Retry()))))
  }

  lemma SecondIsRetried()
    ensures var w13 := At(ROTATED, 1, None, [Settled(false), Settled(true)],
                          [GONE, ApiRequest(false, OnWire(true), 2, 1)], multiset{0});
            Quietly(Renewed(), Resume(1), w13) && Quietly(w13, Respond(1), Served())
  {
    hide Refresh, RevokeUser, Login, CleanUp;
  }

  function Retry(): seq<Label> {
    [Resume(1)] + ([Respond(1)] + [])
  }

  lemma RetryIsQuiet()
    ensures QuietRun(Renewed(), Retry(), Served())
  {
    hide Quietly, QuietRun, At;
    SecondIsRetried();
    var w13 := At(ROTATED, 1, None, [Settled(false), Settled(true)],
                  [GONE, ApiRequest(false, OnWire(true), 2, 1)], multiset{0});
    NoSteps(Served());
    QuietlyOnce(w13, Respond(1), Served(), [], Served());
    QuietlyOnce(Renewed(), Resume(1), w13, [Respond(1)] + [], Served());
  }

  lemma RenewalIsQuiet()
    ensures QuietRun(TimedOut(), Renewal(), Served())
  {
    hide Quietly, QuietRun, At, Retry;
    var w8 := At(BEFORE, 0, Some(1), [Settled(false), Reading], [GONE, Waiting(1)], multiset{0});
    var w9 := At(BEFORE, 0, Some(1), [Settled(false), Posted(0)], [GONE, Waiting(1)], multiset{0});
    var w10 := At(ROTATED, 0, Some(1), [Settled(false), Answered(0, NewTokens(1))], [GONE, Waiting(1)], multiset{0});
    var w11 := At(ROTATED, 0, Some(1), [Settled(false), SavedAccess(0, 1)], [GONE, Waiting(1)], multiset{0});
    SecondPosts();
    SecondIsRenewed();
    RetryIsQuiet();
    var end := Served();
    QuietlyOnce(w11, SaveRefreshToken(1), Renewed(), Retry(), end);
    QuietlyOnce(w10, Deliver(1), w11, [SaveRefreshToken(1)] + Retry(), end);
    QuietlyOnce(w9, ServerHandles(1, 5), w10, [Deliver(1)] + ([SaveRefreshToken(1)] + Retry()), end);
    QuietlyOnce(w8, ReadToken(1), w9, [ServerHandles(1, 5)] + ([Deliver(1)] + ([SaveRefreshToken(1)] + Retry())), end);
    QuietlyOnce(TimedOut(), RespondUnauthorized(1), w8,
                [ReadToken(1)] + ([ServerHandles(1, 5)] + ([Deliver(1)] + ([SaveRefreshToken(1)] + Retry()))), end);
  }

  lemma TimeoutIsQuiet()
    ensures QuietRun(Begin(), Timeout(), Served())
  {
    hide Quietly, QuietRun, At, Renewal;
    var w1 := At(BEFORE, 0, None, [], [SENT, UNSENT], multiset{});
    var w2 := At(BEFORE, 0, None, [], [SENT, SENT], multiset{});
    var w3 := At(BEFORE, 0, Some(0), [Reading], [Waiting(0), SENT], multiset{});
    var w4 := At(BEFORE, 0, Some(0), [Posted(0)], [Waiting(0), SENT], multiset{});
    var w5 := At(BEFORE, 0, Some(0), [Answered(0, Failed)], [Waiting(0), SENT], multiset{0});
    var w6 := At(BEFORE, 0, Some(0), [Settled(false)], [Waiting(0), SENT], multiset{0});
    BothSent();
    FirstPosts();
    FirstGivesUp();
    RenewalIsQuiet();
    var end := Served();
    var l6 := [Resume(0)] + Renewal();
    var l5 := [Deliver(0)] + l6;
    var l4 := [GiveUp(0)] + l5;
    var l3 := [ReadToken(0)] + l4;
    var l2 := [RespondUnauthorized(0)] + l3;
    var l1 := [Send(1)] + l2;
    QuietlyOnce(w6, Resume(0), TimedOut(), Renewal(), end);
    QuietlyOnce(w5, Deliver(0), w6, l6, end);
    QuietlyOnce(w4, GiveUp(0), w5, l5, end);
    QuietlyOnce(w3, ReadToken(0), w4, l4, end);
    QuietlyOnce(w2, RespondUnauthorized(0), w3, l3, end);
    QuietlyOnce(w1, Send(1), w2, l2, end);
    QuietlyOnce(Begin(), Send(0), w1, l1, end);
  }

  /**
   Fourteen steps without a lost reply, a failed save or a revocation elsewhere: the
   second request is retried and answered, and the client holds the live token 1.
   Handling the POST it gave up on then fires reuse detection and revokes token 1.
   */
  lemma AbandonedPostIsTakenForAReplay()
    ensures Start(Begin()) && QuietRun(Begin(), Timeout(), Served()) && |Timeout()| == 14
    ensures Served().stored == Some(1) && Live(Served().auth, 1) && Served().requests[1].fetches == 2
    ensures Enabled(Served(), HandleLate(0, 6)) && FiresDetection(Served(), HandleLate(0, 6))
    ensures !Live(Next(Served(), HandleLate(0, 6)).auth, 1)
  {
    TimeoutIsQuiet();
    hide QuietRun;
  }
}
