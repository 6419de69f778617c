/** A reachable household in which the member who is next does not stay next when another one leaves. */
module PromiseExample {
  import opened Types
  import opened Filtering
  import opened Rotation
  import opened Schema
  import opened Endpoints
  import opened Tables
  import opened Runs
  import opened Removal

  const HOME: Id := 3

  const FIRST := Membership(HOME, 0, Admin, 0, true)
  const SECOND := Membership(HOME, 1, Member, 10, true)
  const THIRD := Membership(HOME, 2, Member, 20, true)

  const SERIES := Definition(HOME, Easy, false, None, 1, true)
  const CHORE := Instance(Some(6), HOME, Some(2), true, 1, Pending, None, None)

  /** Three users, a household of the first, two invites accepted, one chore given to the third. */
  function Requests(): seq<Request> {
    [RegisterUser] + [RegisterUser] + [RegisterUser]
    + [CreateHouseholdReq(0, "", 0)]
    + [CreateInviteReq(0, HOME, 10 - INVITE_TTL)] + [AcceptInviteReq(1, 4, 10)]
    + [CreateInviteReq(0, HOME, 20 - INVITE_TTL)] + [AcceptInviteReq(2, 5, 20)]
    + [CreateChoreReq(0, HOME, Draft(Easy, false, None, 1, Some(2)))]
  }

  /** The tables of such a household with the given members and invites. */
  function HomeOf(ms: seq<Membership>, invites: Invites, nextId: Id): DB {
    DB({0, 1, 2}, map[HOME := Household("", 0)], ms, map[], map[], [], invites, nextId)
  }

  function Reached(): DB {
    HomeOf([FIRST, SECOND, THIRD], map[4 := Invite(HOME, 10, Some(10)), 5 := Invite(HOME, 20, Some(20))], 8)
      .(definitions := map[6 := SERIES], instances := map[7 := CHORE])
  }

  lemma OneMoreRequest(rs: seq<Request>, r: Request, s: DB, s': DB)
    requires Feasible(EMPTY, rs) && Run(EMPTY, rs) == s && Fits(s, r) && Step(s, r).0 == s'
    ensures Feasible(EMPTY, rs + [r]) && Run(EMPTY, rs + [r]) == s'
  {
    hide Fits, Step;
    assert (rs + [r])[..|rs|] == rs;
  }

  lemma FirstIsAdmin(ms: seq<Membership>)
    requires ms != [] && ms[0] == FIRST
    ensures ActiveIn(ms, HOME, 0) && AdminIn(ms, HOME, 0)
  {
    assert IsActive(ms[0], HOME, 0);
  }

  lemma InviteCreated(ms: seq<Membership>, invites: Invites, id: Id, t: Time)
    requires ms != [] && ms[0] == FIRST
    requires id !in invites && forall i :: i in invites ==> invites[i].usedAt.Some?
    ensures Step(HomeOf(ms, invites, id), CreateInviteReq(0, HOME, t - INVITE_TTL)).0
         == HomeOf(ms, invites[id := Invite(HOME, t, None)], id + 1)
  {
    FirstIsAdmin(ms);
    hide ActiveIn, AdminIn;
    assert InvitesExpired(invites, HOME, t - INVITE_TTL) == invites;
  }

  lemma InviteAccepted(ms: seq<Membership>, invites: Invites, id: Id, u: Id, t: Time)
    requires u in {1, 2} && !ActiveIn(ms, HOME, u)
    requires forall i :: 0 <= i < |ms| ==> ms[i].joinedAt < t
    ensures var s := HomeOf(ms, invites[id := Invite(HOME, t, None)], id + 1);
            var r := AcceptInviteReq(u, id, t);
            && Fits(s, r)
            && Step(s, r).0 == HomeOf(ms + [Membership(HOME, u, Member, t, true)],
                 invites[id := Invite(HOME, t, Some(t))], id + 1)
  {
    hide ActiveIn, AdminIn;
    assert invites[id := Invite(HOME, t, None)][id := Invite(HOME, t, Some(t))]
      == invites[id := Invite(HOME, t, Some(t))];
  }

  lemma Begin()
    ensures var rs := [RegisterUser] + [RegisterUser] + [RegisterUser] + [CreateHouseholdReq(0, "", 0)];
            Feasible(EMPTY, rs) && Run(EMPTY, rs) == HomeOf([FIRST], map[], 4)
  {
    hide Run, Feasible;
    NothingRun();
    var s1 := EMPTY.(users := {0}, nextId := 1);
    var s2 := EMPTY.(users := {0, 1}, nextId := 2);
    var s3 := EMPTY.(users := {0, 1, 2}, nextId := 3);
    OneMoreRequest([], RegisterUser, EMPTY, s1);
    assert [] + [RegisterUser] == [RegisterUser];
    OneMoreRequest([RegisterUser], RegisterUser, s1, s2);
    OneMoreRequest([RegisterUser] + [RegisterUser], RegisterUser, s2, s3);
    OneMoreRequest([RegisterUser] + [RegisterUser] + [RegisterUser], CreateHouseholdReq(0, "", 0), s3,
      HomeOf([FIRST], map[], 4));
  }

  lemma NothingRun()
    ensures Feasible(EMPTY, []) && Run(EMPTY, []) == EMPTY
  {
  }

  lemma ChoreCreated(s: DB)
    requires s == HomeOf([FIRST, SECOND, THIRD],
                         map[4 := Invite(HOME, 10, Some(10)), 5 := Invite(HOME, 20, Some(20))], 6)
    ensures Step(s, CreateChoreReq(0, HOME, Draft(Easy, false, None, 1, Some(2)))).0 == Reached()
  {
    FirstIsAdmin(s.memberships);
    assert IsActive(s.memberships[2], HOME, 2);
    hide AdminIn;
  }

  lemma ReachedByRequests()
    ensures Feasible(EMPTY, Requests()) && Run(EMPTY, Requests()) == Reached()
  {
    hide Run, Feasible, Step, Fits, ActiveIn, HomeOf, Reached;
    Begin();
    var rs := [RegisterUser] + [RegisterUser] + [RegisterUser] + [CreateHouseholdReq(0, "", 0)];
    var i4, i5 := Invite(HOME, 10, Some(10)), Invite(HOME, 20, Some(20));
    var r4, r5 := CreateInviteReq(0, HOME, 10 - INVITE_TTL), AcceptInviteReq(1, 4, 10);
    var r6, r7 := CreateInviteReq(0, HOME, 20 - INVITE_TTL), AcceptInviteReq(2, 5, 20);
    NotYetMembers();
    AlwaysFits();
    InviteCreated([FIRST], map[], 4, 10);
    InviteAccepted([FIRST], map[], 4, 1, 10);
    OneMoreRequest(rs, r4, HomeOf([FIRST], map[], 4), HomeOf([FIRST], map[4 := Invite(HOME, 10, None)], 5));
    OneMoreRequest(rs + [r4], r5, HomeOf([FIRST], map[4 := Invite(HOME, 10, None)], 5),
      HomeOf([FIRST] + [SECOND], map[4 := i4], 5));
    assert [FIRST] + [SECOND] == [FIRST, SECOND];
    InviteCreated([FIRST, SECOND], map[4 := i4], 5, 20);
    InviteAccepted([FIRST, SECOND], map[4 := i4], 5, 2, 20);
    OneMoreRequest(rs + [r4] + [r5], r6, HomeOf([FIRST, SECOND], map[4 := i4], 5),
                   HomeOf([FIRST, SECOND], map[4 := i4, 5 := Invite(HOME, 20, None)], 6));
    OneMoreRequest(rs + [r4] + [r5] + [r6], r7, HomeOf([FIRST, SECOND], map[4 := i4, 5 := Invite(HOME, 20, None)], 6),
                   HomeOf([FIRST, SECOND] + [THIRD], map[4 := i4, 5 := i5], 6));
    assert [FIRST, SECOND] + [THIRD] == [FIRST, SECOND, THIRD];
    ChoreCreated(HomeOf([FIRST, SECOND, THIRD], map[4 := i4, 5 := i5], 6));
    OneMoreRequest(rs + [r4] + [r5] + [r6] + [r7], CreateChoreReq(0, HOME, Draft(Easy, false, None, 1, Some(2))),
                   HomeOf([FIRST, SECOND, THIRD], map[4 := i4, 5 := i5], 6), Reached());
  }

  lemma NotYetMembers()
    ensures !ActiveIn([FIRST], HOME, 1) && !ActiveIn([FIRST, SECOND], HOME, 2)
  {
  }

  lemma AlwaysFits()
    ensures forall s, actor, h, now :: Fits(s, CreateInviteReq(actor, h, now))
    ensures forall s, actor, h, draft :: Fits(s, CreateChoreReq(actor, h, draft))
  {
  }

  lemma RosterReached()
    ensures Roster(Reached().memberships, HOME) == [0, 1, 2]
  {
    var p := ActiveMembers(HOME);
    FilterAppend([], FIRST, p);
    assert [] + [FIRST] == [FIRST];
    FilterAppend([FIRST], SECOND, p);
    assert [FIRST] + [SECOND] == [FIRST, SECOND];
    FilterAppend([FIRST, SECOND], THIRD, p);
    assert [FIRST, SECOND] + [THIRD] == [FIRST, SECOND, THIRD];
    assert Filter([FIRST, SECOND, THIRD], p) == [FIRST, SECOND, THIRD];
  }

  lemma LeaverFacts()
    ensures var s := Reached();
            && HOME in s.households && s.households[HOME].pointer == 0
            && ActiveIn(s.memberships, HOME, 2) && AdminBesides(s.memberships, HOME, 2)
  {
    var ms := Reached().memberships;
    assert IsActive(ms[2], HOME, 2) && ActiveAdmins(HOME)(ms[0]);
  }

  lemma OneOpenChore()
    ensures Enumerates([7], OpenChores(Reached().instances, HOME, 2))
    ensures !AdminIn(Reached().memberships, HOME, 2)
  {
  }

  lemma ThirdMayLeave(s: DB)
    requires s == Reached()
    ensures Fits(s, LeaveReq(2, HOME, [7]))
    ensures Step(s, LeaveReq(2, HOME, [7])) == (MemberLeaves(s, HOME, 2, [7]), Done)
  {
    LeaverFacts();
    OneOpenChore();
    hide MemberLeaves, ActiveIn, AdminIn, Enumerates, OpenChores, AdminBesides;
  }

  lemma FirstIsNext(s: DB)
    requires s == Reached()
    ensures AutoAssign(s, HOME).0 == Some(0)
  {
    hide *;
    LeaverFacts();
    RosterReached();
    AssignsNext(s, HOME);
    TurnIs([0, 1, 2], 0);
  }

  lemma ThirdPlace(r: nat)
    requires r < 3 && [0, 1, 2][r] == 2
    ensures r == 2 && Survivors([0, 1, 2], r) == [0, 1]
  {
  }

  /**
   The promise breaks in a reachable state: user 0 is next; when user 2, who has
   one open chore, leaves, that chore goes to user 0 and user 1 is served next.
   */
  lemma PromiseBreaksInAReachableState()
    ensures var s := Run(EMPTY, Requests());
            && Feasible(EMPTY, Requests()) && Fits(s, LeaveReq(2, HOME, [7]))
            && Step(s, LeaveReq(2, HOME, [7])) == (MemberLeaves(s, HOME, 2, [7]), Done)
            && AutoAssign(s, HOME).0 == Some(0)
            && AutoAssign(MemberLeaves(s, HOME, 2, [7]), HOME).0 == Some(1)
  {
    hide *;
    ReachedByRequests();
    ReachableStatesAreConsistent(Requests());
    var s := Reached();
    ThirdMayLeave(s);
    FirstIsNext(s);
    LeaverFacts();
    RosterReached();
    OneOpenChore();
    var r := NextAssigneeAfterLeaving(s, HOME, 2, [7]);
    ThirdPlace(r);
  }
}
