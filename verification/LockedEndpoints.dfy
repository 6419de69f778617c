/** An attempt that runs alone in the lock machines is the endpoint on the tables. */
module LockedEndpoints {
  import opened Types
  import opened Schema
  import opened Endpoints
  import opened Invariants
  import opened Runs
  import opened Causes
  import opened Effects
  import opened ChoreEffects
  import RowLock
  import InviteLock

  // ---------------------------------------------------------------------------
  // Closing a chore
  // ---------------------------------------------------------------------------

  /** One member's attempt on one chore of their household, before it begins. */
  function LoneRace(s: DB, actor: Id, h: Id, id: Id, now: Time, verb: RowLock.Verb): RowLock.Race
    requires id in s.instances && s.instances[id].definition.Some? && s.instances[id].definition.value in s.definitions
  {
    var inst := s.instances[id];
    RowLock.Race(inst, s.definitions[inst.definition.value].effort, None, inst,
                 [RowLock.Attempt(verb, actor, AdminIn(s.memberships, h, actor), now, RowLock.Waiting)], 0)
  }

  function ClosingRequest(actor: Id, h: Id, id: Id, now: Time, verb: RowLock.Verb): Request {
    if verb.ToComplete? then CompleteReq(actor, h, id, now) else DismissReq(actor, h, id, now)
  }

  /** The row after a lone attempt: locked, checked, and committed if the check allows. */
  function LoneEnd(r: RowLock.Race): RowLock.Race
    requires |r.attempts| == 1 && r.attempts[0].progress.Waiting? && r.holder.None?
  {
    var r1 := RowLock.Moved(r, RowLock.Acquire(0));
    var r2 := RowLock.Moved(r1, RowLock.Check(0));
    if r2.attempts[0].progress.Wrote? then RowLock.Moved(r2, RowLock.Commit(0)) else r2
  }

  /**
   Run alone, the attempt wins exactly when the endpoint accepts, leaves the row the
   endpoint leaves, and records an award exactly when the endpoint does.
   */
  lemma LoneClosingIsTheEndpoint(s: DB, actor: Id, h: Id, id: Id, now: Time, verb: RowLock.Verb)
    requires Inv(s) && ActiveIn(s.memberships, h, actor) && id in s.instances && s.instances[id].household == h
    ensures s.instances[id].definition.Some? && s.instances[id].definition.value in s.definitions
    ensures var end := LoneEnd(LoneRace(s, actor, h, id, now, verb));
            var (s', outcome) := Step(s, ClosingRequest(actor, h, id, now, verb));
            && |end.attempts| == 1
            && (RowLock.Winner(end.attempts[0]) <==> outcome == Done)
            && id in s'.instances && end.row == s'.instances[id]
            && |s'.ledger| == |s.ledger| + end.ledger
  {
    hide Inv, ActiveIn, AdminIn;
    OwnHousehold(s, id);
    ClosingAccepted(s, actor, h, id, now);
    OpenOrTerminal(s.instances[id].status);
    if MayBeClosedBy(s, actor, h, id) {
      CompleteEffect(s, actor, h, id, now);
      DismissEffect(s, actor, h, id, now);
    } else {
      FailuresChangeNothing(s, CompleteReq(actor, h, id, now));
      FailuresChangeNothing(s, DismissReq(actor, h, id, now));
    }
    hide CompleteChore, DismissChore;
  }

  // ---------------------------------------------------------------------------
  // Accepting an invite
  // ---------------------------------------------------------------------------

  /** One user's attempt on one invite, before it begins; `members` are the household's active members. */
  function LoneAccept(s: DB, actor: Id, token: Id, now: Time, members: set<Id>): InviteLock.Race
    requires token in s.invites
  {
    InviteLock.Race(s.invites[token], members, [], None, [InviteLock.Attempt(actor, now, InviteLock.Waiting)], false)
  }

  function LoneJoin(r: InviteLock.Race): InviteLock.Race
    requires |r.attempts| == 1 && r.attempts[0].progress.Waiting? && r.holder.None?
  {
    var r1 := InviteLock.Moved(r, InviteLock.Acquire(0));
    var r2 := InviteLock.Moved(r1, InviteLock.Check(0));
    if r2.attempts[0].progress.Wrote? then InviteLock.Moved(r2, InviteLock.Commit(0)) else r2
  }

  /** Run alone, the attempt wins exactly when the endpoint accepts, and leaves the row the endpoint leaves. */
  lemma LoneAcceptIsTheEndpoint(s: DB, actor: Id, token: Id, now: Time, members: set<Id>)
    requires actor in s.users && token in s.invites
    requires forall u :: u in members <==> ActiveIn(s.memberships, s.invites[token].household, u)
    ensures var end := LoneJoin(LoneAccept(s, actor, token, now, members));
            var (s', outcome) := Step(s, AcceptInviteReq(actor, token, now));
            && |end.attempts| == 1
            && (end.attempts[0].progress == InviteLock.Finished(InviteLock.Won) <==> outcome == Done)
            && (end.attempts[0].progress == InviteLock.Finished(InviteLock.Refused409) <==> outcome == Conflict)
            && (end.attempts[0].progress == InviteLock.Finished(InviteLock.Refused410) <==> outcome == Gone)
            && token in s'.invites && end.invite == s'.invites[token]
  {
    hide ActiveIn;
  }

  // ---------------------------------------------------------------------------
  // The other writers of the locked rows
  // ---------------------------------------------------------------------------

  /** What the job does to a past-due chore's row. */
  lemma FlagOverdueIsTheJob(s: DB, order: seq<Id>, today: Day, r: RowLock.Race, id: Id)
    requires Inv(s) && Fits(s, DailyJobReq(order, today))
    requires id in s.instances && s.instances[id].due < today && r.row == s.instances[id] && r.holder.None?
    ensures var s' := Step(s, DailyJobReq(order, today)).0;
            id in s'.instances && RowLock.Moved(r, RowLock.FlagOverdue).row == s'.instances[id]
  {
    hide Inv, Fits, Step;
    JobEffect(s, order, today);
  }

  /** What deleting its series does to a chore's row. */
  lemma CancelPendingIsTheDeletion(s: DB, actor: Id, h: Id, d: Id, r: RowLock.Race, id: Id)
    requires Step(s, DeleteDefinitionReq(actor, h, d)).1 == Done
    requires id in s.instances && s.instances[id].definition == Some(d) && r.row == s.instances[id] && r.holder.None?
    ensures var s' := Step(s, DeleteDefinitionReq(actor, h, d)).0;
            id in s'.instances && RowLock.Moved(r, RowLock.CancelPending).row == s'.instances[id]
  {
    hide Step;
    DeleteDefinitionEffect(s, actor, h, d);
  }

  /** What revoking does to an invite's row. */
  lemma MoveExpiryIsTheRevocation(s: DB, actor: Id, h: Id, token: Id, now: Time, r: InviteLock.Race)
    requires Step(s, RevokeInviteReq(actor, h, token, now)).1 == Done
    requires token in s.invites && r.invite == s.invites[token] && r.holder.None?
    ensures var s' := Step(s, RevokeInviteReq(actor, h, token, now)).0;
            token in s'.invites && InviteLock.Moved(r, InviteLock.MoveExpiry(now)).invite == s'.invites[token]
  {
    hide Step;
    RevokeInviteEffect(s, actor, h, token, now);
  }
}
