/**
 The server's refresh-token table (`login`, `refresh_token`, `logout`, the
 password change's revocation, expiry clean-up): rotation and reuse detection.
 Tokens stand for their hashes; issuing counts upwards, so every token is new.
 */
module RefreshTokens {
  import opened Types

  type Token = nat

  datatype Row = Row(user: Id, expiresAt: Time, revokedAt: Option<Time>)

  /** `origin` records, for every token ever issued, the login it descends from. */
  datatype Auth = Auth(rows: map<Token, Row>, next: Token, origin: map<Token, Token>)

  datatype Reply = Rejected | Rotated(issued: Token)

  /** The setting `REFRESH_TOKEN_TTL_DAYS`, in clock units. */
  const REFRESH_TTL: Time

  const NO_TOKENS := Auth(map[], 0, map[])

  function Issue(a: Auth, user: Id, origin: Token, now: Time): Auth {
    Auth(a.rows[a.next := Row(user, now + REFRESH_TTL, None)], a.next + 1, a.origin[a.next := origin])
  }

  function Login(a: Auth, user: Id, now: Time): Auth {
    Issue(a, user, a.next, now)
  }

  predicate Live(a: Auth, t: Token) {
    t in a.rows && a.rows[t].revokedAt.None?
  }

  /** Set `revoked_at` on every token of the user that does not have it. */
  function RevokeUser(a: Auth, user: Id, now: Time): Auth {
    a.(rows := map t | t in a.rows ::
      if a.rows[t].user == user && a.rows[t].revokedAt.None? then a.rows[t].(revokedAt := Some(now)) else a.rows[t])
  }

  predicate IsReplay(a: Auth, t: Token) {
    t in a.rows && a.rows[t].revokedAt.Some?
  }

  function Refresh(a: Auth, t: Token, now: Time): (Auth, Reply) {
    if t !in a.rows then (a, Rejected)
    else if a.rows[t].revokedAt.Some? then (RevokeUser(a, a.rows[t].user, now), Rejected)
    else if a.rows[t].expiresAt <= now then (a, Rejected)
    else
      var rotated := a.(rows := a.rows[t := a.rows[t].(revokedAt := Some(now))]);
      (Issue(rotated, a.rows[t].user, if t in a.origin then a.origin[t] else t, now), Rotated(a.next))
  }

  function CleanUp(a: Auth, now: Time): Auth {
    a.(rows := map t | t in a.rows && a.rows[t].expiresAt >= now :: a.rows[t])
  }

  /** The rows go with the user. */
  function ForgetUser(a: Auth, user: Id): Auth {
    a.(rows := map t | t in a.rows && a.rows[t].user != user :: a.rows[t])
  }

  datatype Event =
    | LoggedIn(user: Id, now: Time)
    | Refreshed(token: Token, now: Time)
    | LoggedOut(user: Id, now: Time)
    | CleanedUp(now: Time)
    | Deleted(user: Id)

  function After(a: Auth, e: Event): Auth {
    match e
    case LoggedIn(user, now) => Login(a, user, now)
    case Refreshed(t, now) => Refresh(a, t, now).0
    case LoggedOut(user, now) => RevokeUser(a, user, now)
    case CleanedUp(now) => CleanUp(a, now)
    case Deleted(user) => ForgetUser(a, user)
  }

  function RunEvents(a: Auth, es: seq<Event>): Auth {
    if es == [] then a else After(RunEvents(a, es[..|es| - 1]), es[|es| - 1])
  }

  // ---------------------------------------------------------------------------
  // Lineages
  // ---------------------------------------------------------------------------

  ghost predicate SameLineage(a: Auth, t: Token, u: Token)
    requires t in a.origin && u in a.origin
  {
    a.origin[t] == a.origin[u]
  }

  /** Tokens of one lineage belong to one user and at most one of them is unrevoked. */
  ghost predicate LineagesOk(a: Auth) {
    && (forall t: Token :: t in a.origin <==> t < a.next)
    && (forall t :: t in a.origin ==> a.origin[t] <= t)
    && (forall t :: t in a.rows ==> t < a.next)
    && (forall t, u {:trigger SameLineage(a, t, u)} ::
         t in a.rows && u in a.rows && t in a.origin && u in a.origin && SameLineage(a, t, u) ==>
         a.rows[t].user == a.rows[u].user && (Live(a, t) && Live(a, u) ==> t == u))
  }

  lemma RevokingKeepsLineages(a: Auth, a': Auth)
    requires LineagesOk(a) && a'.next == a.next && a'.origin == a.origin
    requires forall t :: t in a'.rows ==>
      t in a.rows && a'.rows[t].user == a.rows[t].user && (Live(a', t) ==> Live(a, t))
    ensures LineagesOk(a')
  {
    forall t, u | t in a'.rows && u in a'.rows && SameLineage(a', t, u)
      ensures a'.rows[t].user == a'.rows[u].user && (Live(a', t) && Live(a', u) ==> t == u)
    {
      assert SameLineage(a, t, u);
    }
  }

  lemma IssuingKeepsLineages(a: Auth, user: Id, origin: Token, now: Time)
    requires LineagesOk(a) && origin <= a.next
    requires forall t :: t in a.rows && a.origin[t] == origin ==> !Live(a, t) && a.rows[t].user == user
    ensures LineagesOk(Issue(a, user, origin, now))
  {
    var a' := Issue(a, user, origin, now);
    forall t, u | t in a'.rows && u in a'.rows && SameLineage(a', t, u)
      ensures a'.rows[t].user == a'.rows[u].user && (Live(a', t) && Live(a', u) ==> t == u)
    {
      if t != a.next && u != a.next {
        assert SameLineage(a, t, u);
      }
    }
  }

  lemma RefreshKeepsLineages(a: Auth, t: Token, now: Time)
    requires LineagesOk(a)
    ensures LineagesOk(Refresh(a, t, now).0)
  {
    if Refresh(a, t, now).1.Rotated? {
      var rotated := a.(rows := a.rows[t := a.rows[t].(revokedAt := Some(now))]);
      RevokingKeepsLineages(a, rotated);
      forall u | u in rotated.rows && rotated.origin[u] == a.origin[t]
        ensures !Live(rotated, u) && rotated.rows[u].user == a.rows[t].user
      {
        assert SameLineage(a, t, u);
      }
      IssuingKeepsLineages(rotated, a.rows[t].user, a.origin[t], now);
    } else {
      RevokingKeepsLineages(a, Refresh(a, t, now).0);
    }
  }

  lemma EventKeepsLineages(a: Auth, e: Event)
    requires LineagesOk(a)
    ensures LineagesOk(After(a, e))
  {
    match e
    case LoggedIn(user, now) => IssuingKeepsLineages(a, user, a.next, now);
    case Refreshed(t, now) => RefreshKeepsLineages(a, t, now);
    case _ => RevokingKeepsLineages(a, After(a, e));
  }

  lemma {:induction false} RunKeepsLineages(a: Auth, es: seq<Event>)
    requires LineagesOk(a)
    ensures LineagesOk(RunEvents(a, es))
  {
    hide LineagesOk, After;
    if es != [] {
      RunKeepsLineages(a, es[..|es| - 1]);
      EventKeepsLineages(RunEvents(a, es[..|es| - 1]), es[|es| - 1]);
    }
  }

  /** In every reachable state each login's rotation chain has at most one unrevoked token. */
  lemma OneLiveTokenPerLogin(es: seq<Event>, t: Token, u: Token)
    requires var a := RunEvents(NO_TOKENS, es);
             Live(a, t) && Live(a, u) && t in a.origin && u in a.origin && a.origin[t] == a.origin[u]
    ensures t == u
  {
    RunKeepsLineages(NO_TOKENS, es);
    assert SameLineage(RunEvents(NO_TOKENS, es), t, u);
  }

  // ---------------------------------------------------------------------------
  // Redemption
  // ---------------------------------------------------------------------------

  /** Issued, and revoked or already purged. */
  predicate Dead(a: Auth, t: Token) {
    t < a.next && !Live(a, t)
  }

  lemma DeadStaysDead(a: Auth, e: Event, t: Token)
    requires Dead(a, t)
    ensures Dead(After(a, e), t)
  {
  }

  lemma {:induction false} DeadForever(a: Auth, es: seq<Event>, t: Token)
    requires Dead(a, t)
    ensures Dead(RunEvents(a, es), t)
  {
    hide Dead, After;
    if es != [] {
      DeadForever(a, es[..|es| - 1], t);
      DeadStaysDead(RunEvents(a, es[..|es| - 1]), es[|es| - 1], t);
    }
  }

  lemma RedeemedIsDead(a: Auth, t: Token, now: Time)
    requires LineagesOk(a) && Refresh(a, t, now).1.Rotated?
    ensures Dead(Refresh(a, t, now).0, t)
  {
  }

  /** A token that was redeemed is never redeemed again, whatever happens in between, purges included. */
  lemma RedeemedAtMostOnce(before: seq<Event>, t: Token, now: Time, between: seq<Event>, later: Time)
    requires Refresh(RunEvents(NO_TOKENS, before), t, now).1.Rotated?
    ensures var a := Refresh(RunEvents(NO_TOKENS, before), t, now).0;
            Refresh(RunEvents(a, between), t, later).1 == Rejected
  {
    RunKeepsLineages(NO_TOKENS, before);
    var a := RunEvents(NO_TOKENS, before);
    RedeemedIsDead(a, t, now);
    DeadForever(Refresh(a, t, now).0, between, t);
  }

  function LiveTokens(a: Auth, user: Id): set<Token> {
    set t | t in a.rows && a.rows[t].user == user && a.rows[t].revokedAt.None?
  }

  /** Rotation replaces one live token by another and leaves everybody else's alone. */
  lemma RotationPreservesLiveCount(a: Auth, t: Token, now: Time, user: Id)
    requires LineagesOk(a) && Refresh(a, t, now).1.Rotated?
    ensures var (a', reply) := Refresh(a, t, now);
            && LiveTokens(a', a.rows[t].user) == LiveTokens(a, a.rows[t].user) - {t} + {reply.issued}
            && |LiveTokens(a', user)| == |LiveTokens(a, user)|
  {
    var (a', reply) := Refresh(a, t, now);
    assert LiveTokens(a', a.rows[t].user) == LiveTokens(a, a.rows[t].user) - {t} + {reply.issued};
    if user != a.rows[t].user {
      assert LiveTokens(a', user) == LiveTokens(a, user);
    }
  }

  // ---------------------------------------------------------------------------
  // Reuse detection
  // ---------------------------------------------------------------------------

  ghost predicate NoLogin(es: seq<Event>, user: Id) {
    forall i :: 0 <= i < |es| ==> !(es[i].LoggedIn? && es[i].user == user)
  }

  lemma QuietStaysQuiet(a: Auth, e: Event, user: Id)
    requires LiveTokens(a, user) == {} && !(e.LoggedIn? && e.user == user)
    ensures LiveTokens(After(a, e), user) == {}
  {
    forall t | t in After(a, e).rows && After(a, e).rows[t].user == user ensures !Live(After(a, e), t) {
      if t in a.rows {
        assert t !in LiveTokens(a, user);
      }
      if e.Refreshed? && e.token in a.rows {
        assert e.token !in LiveTokens(a, user);
      }
    }
  }

  lemma {:induction false} QuietForever(a: Auth, es: seq<Event>, user: Id)
    requires LiveTokens(a, user) == {} && NoLogin(es, user)
    ensures LiveTokens(RunEvents(a, es), user) == {}
  {
    hide LiveTokens, After;
    if es != [] {
      QuietForever(a, es[..|es| - 1], user);
      QuietStaysQuiet(RunEvents(a, es[..|es| - 1]), es[|es| - 1], user);
    }
  }

  /**
   After a replay is detected, no token of that user is accepted, from any login,
   until the user logs in again.
   */
  lemma ReplayLocksTheUserOut(a: Auth, t: Token, now: Time, es: seq<Event>, u: Token, later: Time)
    requires IsReplay(a, t) && NoLogin(es, a.rows[t].user)
    ensures var a' := RunEvents(Refresh(a, t, now).0, es);
            u in a'.rows && a'.rows[u].user == a.rows[t].user ==> Refresh(a', u, later).1 == Rejected
  {
    var user := a.rows[t].user;
    var a1 := Refresh(a, t, now).0;
    assert LiveTokens(a1, user) == {};
    QuietForever(a1, es, user);
    var a' := RunEvents(a1, es);
    assert u !in LiveTokens(a', user);
  }

  /** Revoking one user's tokens leaves every other row as it was, and those already revoked too. */
  lemma RevocationIsPersonal(a: Auth, user: Id, now: Time)
    ensures var a' := RevokeUser(a, user, now);
            && a'.rows.Keys == a.rows.Keys && a'.next == a.next && LiveTokens(a', user) == {}
            && (forall t :: t in a.rows && (a.rows[t].user != user || !Live(a, t)) ==> a'.rows[t] == a.rows[t])
            && (forall t :: t in a.rows ==> a'.rows[t].(revokedAt := None) == a.rows[t].(revokedAt := None))
  {
  }

  /** With the user's account, exactly the user's rows go. */
  lemma ForgettingIsPersonal(a: Auth, user: Id)
    ensures var a' := ForgetUser(a, user);
            && LiveTokens(a', user) == {}
            && (forall t :: t in a.rows && a.rows[t].user != user ==> t in a'.rows && a'.rows[t] == a.rows[t])
            && (forall t :: t in a'.rows ==> t in a.rows && a.rows[t].user != user)
  {
  }

  // ---------------------------------------------------------------------------
  // Expiry and the purge
  // ---------------------------------------------------------------------------

  /** The purge removes all rows that expired before `now` and no others. */
  lemma PurgeRemovesExactlyTheExpired(a: Auth, now: Time, t: Token)
    ensures t in CleanUp(a, now).rows <==> t in a.rows && !(a.rows[t].expiresAt < now)
    ensures t in CleanUp(a, now).rows ==> CleanUp(a, now).rows[t] == a.rows[t]
    ensures CleanUp(a, now).next == a.next && CleanUp(a, now).origin == a.origin
  {
  }

  /** Purging is safe: from then on every token gets the answer it would have got without. */
  lemma PurgeIsInvisible(a: Auth, t: Token, now: Time, later: Time)
    requires now <= later
    ensures Refresh(CleanUp(a, now), t, later).1 == Refresh(a, t, later).1
  {
    PurgeRemovesExactlyTheExpired(a, now, t);
  }

  /** What purging does forget: that a token was rotated, once that token has expired. */
  lemma PurgeForgetsReplays(a: Auth, t: Token, now: Time)
    ensures IsReplay(CleanUp(a, now), t) <==> IsReplay(a, t) && now <= a.rows[t].expiresAt
  {
  }

  /** Login and rotation issue a live token that expires after the configured lifetime. */
  lemma IssuedTokensLast(a: Auth, user: Id, t: Token, now: Time)
    ensures var a' := Login(a, user, now);
            a.next in a'.rows && a'.rows[a.next] == Row(user, now + REFRESH_TTL, None)
    ensures var (a', reply) := Refresh(a, t, now);
            reply.Rotated? ==>
              reply.issued in a'.rows && a'.rows[reply.issued] == Row(a.rows[t].user, now + REFRESH_TTL, None)
  {
  }

  /** The event leaves token `t` of `user` alone, and is no purge from after `later`. */
  predicate Spares(a: Auth, e: Event, user: Id, t: Token, later: Time) {
    match e
    case LoggedIn(_, _) => true
    case Refreshed(x, _) => x != t && !(IsReplay(a, x) && a.rows[x].user == user)
    case LoggedOut(v, _) => v != user
    case CleanedUp(now) => now <= later
    case Deleted(v) => v != user
  }

  ghost predicate AllSpare(a: Auth, es: seq<Event>, user: Id, t: Token, later: Time) {
    es == [] || (AllSpare(a, es[..|es| - 1], user, t, later)
                 && Spares(RunEvents(a, es[..|es| - 1]), es[|es| - 1], user, t, later))
  }

  /** Stored as it was, or purged because it has expired. */
  ghost predicate Kept(a: Auth, t: Token, row: Row, later: Time) {
    && t < a.next
    && (t in a.rows ==> a.rows[t] == row)
    && (t !in a.rows ==> row.expiresAt < later)
  }

  lemma EventKeeps(a: Auth, e: Event, t: Token, row: Row, later: Time)
    requires Kept(a, t, row, later) && Spares(a, e, row.user, t, later)
    ensures Kept(After(a, e), t, row, later)
  {
  }

  lemma {:induction false} RunKeeps(a: Auth, es: seq<Event>, t: Token, row: Row, later: Time)
    requires Kept(a, t, row, later) && AllSpare(a, es, row.user, t, later)
    ensures Kept(RunEvents(a, es), t, row, later)
  {
    hide Kept, After, Spares;
    if es != [] {
      RunKeeps(a, es[..|es| - 1], t, row, later);
      EventKeeps(RunEvents(a, es[..|es| - 1]), es[|es| - 1], t, row, later);
    }
  }

  /**
   A session lasts its lifetime: over any run that spares it, nightly purges and
   other users' doings included, a live token is accepted exactly until it expires.
   */
  lemma LiveTokenIsAcceptedExactlyUntilExpiry(a: Auth, t: Token, es: seq<Event>, later: Time)
    requires LineagesOk(a) && Live(a, t) && AllSpare(a, es, a.rows[t].user, t, later)
    ensures Refresh(RunEvents(a, es), t, later).1.Rotated? <==> later < a.rows[t].expiresAt
  {
    RunKeeps(a, es, t, a.rows[t], later);
    hide RunEvents, AllSpare;
  }

  /** A login's token is accepted exactly until the configured lifetime is over. */
  lemma SessionsLastTheirLifetime(a: Auth, user: Id, now: Time, es: seq<Event>, later: Time)
    requires LineagesOk(a) && AllSpare(Login(a, user, now), es, user, a.next, later)
    ensures Refresh(RunEvents(Login(a, user, now), es), a.next, later).1.Rotated? <==> later < now + REFRESH_TTL
  {
    IssuedTokensLast(a, user, a.next, now);
    EventKeepsLineages(a, LoggedIn(user, now));
    hide LineagesOk, AllSpare, Refresh, RunEvents;
    LiveTokenIsAcceptedExactlyUntilExpiry(Login(a, user, now), a.next, es, later);
  }

  // ---------------------------------------------------------------------------
  // The endpoints over the stored rows
  // ---------------------------------------------------------------------------

  class AuthServer {
    var rows: map<Token, Row>
    var next: Token
    ghost var origin: map<Token, Token>

    ghost function View(): Auth
      reads this
    {
      Auth(rows, next, origin)
    }

    constructor ()
      ensures View() == NO_TOKENS
    {
      rows, next, origin := map[], 0, map[];
    }

    method Insert(user: Id, ghost root: Token, now: Time) returns (issued: Token)
      modifies this
      ensures View() == Issue(old(View()), user, root, now) && issued == old(next)
    {
      issued := next;
      rows := rows[next := Row(user, now + REFRESH_TTL, None)];
      origin := origin[next := root];
      next := next + 1;
    }

    method LogIn(user: Id, now: Time) returns (issued: Token)
      modifies this
      ensures View() == Login(old(View()), user, now)
      ensures issued == old(next) && Live(View(), issued)
    {
      issued := Insert(user, next, now);
    }

    method RevokeAllOf(user: Id, now: Time)
      modifies this
      ensures View() == RevokeUser(old(View()), user, now)
      ensures LiveTokens(View(), user) == {}
    {
      rows := map t | t in rows ::
        if rows[t].user == user && rows[t].revokedAt.None? then rows[t].(revokedAt := Some(now)) else rows[t];
    }

    method RefreshToken(t: Token, now: Time) returns (reply: Reply)
      modifies this
      ensures (View(), reply) == Refresh(old(View()), t, now)
      ensures reply.Rotated? <==> old(Live(View(), t)) && now < old(rows)[t].expiresAt
    {
      if t !in rows {
        return Rejected;
      }
      var stored := rows[t];
      if stored.revokedAt.Some? {
        RevokeAllOf(stored.user, now);
        return Rejected;
      }
      if stored.expiresAt <= now {
        return Rejected;
      }
      rows := rows[t := stored.(revokedAt := Some(now))];
      var issued := Insert(stored.user, if t in origin then origin[t] else t, now);
      reply := Rotated(issued);
    }

    method DeleteExpired(now: Time)
      modifies this
      ensures View() == CleanUp(old(View()), now)
      ensures forall t :: t in rows <==> t in old(rows) && !(old(rows)[t].expiresAt < now)
      ensures forall t, later :: now <= later ==> Refresh(View(), t, later).1 == Refresh(old(View()), t, later).1
    {
      ghost var a := View();
      rows := map t | t in rows && rows[t].expiresAt >= now :: rows[t];
      forall t, later | now <= later ensures Refresh(View(), t, later).1 == Refresh(a, t, later).1 {
        PurgeIsInvisible(a, t, now, later);
      }
    }

    /** Put the rows back as they were when the transaction began. */
    method Restore(before: map<Token, Row>)
      modifies this
      ensures View() == old(View()).(rows := before)
    {
      rows := before;
    }
  }
}
