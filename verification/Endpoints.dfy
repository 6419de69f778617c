/**
 Each endpoint as a function from the tables and its arguments to the tables and
 the HTTP outcome. A request that fails leaves the tables as they were: the
 session is rolled back.
 */
module Endpoints {
  import opened Types
  import opened Filtering
  import opened Recurrence
  import opened Rotation
  import opened Schema

  datatype Outcome =
    | Done
    | BadRequest       // 400
    | Unauthorized     // 401
    | Forbidden        // 403
    | NotFound         // 404
    | Conflict         // 409
    | Gone             // 410
    | Unprocessable    // 422

  /** The setting `INVITE_TOKEN_TTL_HOURS`, in clock units. */
  const INVITE_TTL: Time

  // ---------------------------------------------------------------------------
  // deps.py
  // ---------------------------------------------------------------------------

  function RequireMember(s: DB, actor: Id, h: Id): Outcome {
    if actor !in s.users then Unauthorized
    else if !ActiveIn(s.memberships, h, actor) then Forbidden
    else Done
  }

  function RequireAdmin(s: DB, actor: Id, h: Id): Outcome {
    var member := RequireMember(s, actor, h);
    if member.Done? && !AdminIn(s.memberships, h, actor) then Forbidden else member
  }

  // ---------------------------------------------------------------------------
  // auth.py, households.py, invites.py
  // ---------------------------------------------------------------------------

  function Register(s: DB): DB {
    s.(users := s.users + {s.nextId}, nextId := s.nextId + 1)
  }

  function CreateHousehold(s: DB, actor: Id, name: string, now: Time): (DB, Outcome) {
    if actor !in s.users then (s, Unauthorized)
    else
      (s.(households := s.households[s.nextId := Household(name, 0)],
          memberships := s.memberships + [Membership(s.nextId, actor, Admin, now, true)],
          nextId := s.nextId + 1),
       Done)
  }

  function DeleteHousehold(s: DB, actor: Id, h: Id, confirm: string): (DB, Outcome) {
    var gate := RequireAdmin(s, actor, h);
    if !gate.Done? then (s, gate)
    else if h !in s.households then (s, NotFound)
    else if confirm != s.households[h].name then (s, BadRequest)
    else (DeleteHouseholds(s, {h}), Done)
  }

  /** Expire the household's live invites. */
  function InvitesExpired(invites: Invites, h: Id, now: Time): Invites {
    map i | i in invites ::
      if invites[i].household == h && invites[i].usedAt.None? && invites[i].expiresAt > now
      then invites[i].(expiresAt := now) else invites[i]
  }

  function CreateInvite(s: DB, actor: Id, h: Id, now: Time): (DB, Outcome) {
    var gate := RequireAdmin(s, actor, h);
    if !gate.Done? then (s, gate)
    else
      (s.(invites := InvitesExpired(s.invites, h, now)[s.nextId := Invite(h, now + INVITE_TTL, None)],
          nextId := s.nextId + 1),
       Done)
  }

  function AcceptInvite(s: DB, actor: Id, token: Id, now: Time): (DB, Outcome) {
    if actor !in s.users then (s, Unauthorized)
    else if token !in s.invites || s.invites[token].expiresAt < now || s.invites[token].usedAt.Some? then (s, Gone)
    else
      var invite := s.invites[token];
      if ActiveIn(s.memberships, invite.household, actor) then (s, Conflict)
      else
        (s.(memberships := s.memberships + [Membership(invite.household, actor, Member, now, true)],
            invites := s.invites[token := invite.(usedAt := Some(now))]),
         Done)
  }

  function RevokeInvite(s: DB, actor: Id, h: Id, token: Id, now: Time): (DB, Outcome) {
    var gate := RequireAdmin(s, actor, h);
    if !gate.Done? then (s, gate)
    else if token !in s.invites || s.invites[token].household != h then (s, NotFound)
    else (s.(invites := s.invites[token := s.invites[token].(expiresAt := now)]), Done)
  }

  // ---------------------------------------------------------------------------
  // redistribution.py
  // ---------------------------------------------------------------------------

  /** Position the removed member had in the rotation, counted over the members still active. */
  function RemovedIndex(s: DB, h: Id, u: Id): Option<int> {
    if h !in s.households then None
    else
      match LatestJoin(s.memberships, h, u)
      case None => None
      case Some(joined) => Some(|Filter(s.memberships, JoinedBefore(h, joined))|)
  }

  /** Assignments and tables after handing the open chores `rows` of `u` to the members left in `h`. */
  function HandOver(s: DB, h: Id, u: Id, rows: seq<Id>): (Assignments, DB) {
    if rows == [] then (map[], s)
    else if |Filter(s.memberships, ActiveOthers(h, u))| == 0 then (Unassigned(rows), s)
    else BulkAssign(s, rows, h)
  }

  /** The pointer of `now` corrected for the place `u` had, judged by the pointer and counts of `before`. */
  function Corrected(before: DB, now: DB, h: Id, u: Id): DB {
    var index := RemovedIndex(before, h, u);
    if index.None? || h !in before.households || h !in now.households then now
    else
      var memberCount := |Filter(before.memberships, ActiveOthers(h, u))| + 1;
      WithPointer(now, h, Some(CorrectedPointer(
        before.households[h].pointer, now.households[h].pointer, memberCount, index.value)))
  }

  /** `redistribute_chores_for_removed_member`, called once `u` is inactive in `h`. */
  function Redistributed(s: DB, h: Id, u: Id, rows: seq<Id>): DB {
    var (dealt, s1) := HandOver(s, h, u, rows);
    Corrected(s, s1.(instances := WithAssignees(s1.instances, dealt)), h, u)
  }

  function MemberLeaves(s: DB, h: Id, u: Id, rows: seq<Id>): DB {
    Redistributed(s.(memberships := Deactivated(s.memberships, {h}, u)), h, u, rows)
  }

  // ---------------------------------------------------------------------------
  // members.py
  // ---------------------------------------------------------------------------

  function RemoveMember(s: DB, actor: Id, h: Id, target: Id, rows: seq<Id>): (DB, Outcome) {
    var gate := RequireAdmin(s, actor, h);
    if !gate.Done? then (s, gate)
    else if !ActiveIn(s.memberships, h, target) then (s, NotFound)
    else if target == actor && CountAdmins(s.memberships, h) <= 1 then (s, Conflict)
    else (MemberLeaves(s, h, target, rows), Done)
  }

  function UpdateRole(s: DB, actor: Id, h: Id, target: Id, role: Role): (DB, Outcome) {
    var gate := RequireAdmin(s, actor, h);
    if !gate.Done? then (s, gate)
    else if !ActiveIn(s.memberships, h, target) then (s, NotFound)
    else if target == actor && role == Member && CountAdmins(s.memberships, h) <= 1 then (s, Conflict)
    else (s.(memberships := WithRole(s.memberships, h, target, role)), Done)
  }

  function Leave(s: DB, actor: Id, h: Id, rows: seq<Id>): (DB, Outcome) {
    var gate := RequireMember(s, actor, h);
    if !gate.Done? then (s, gate)
    else if AdminIn(s.memberships, h, actor) && CountAdmins(s.memberships, h) <= 1 then (s, Conflict)
    else (MemberLeaves(s, h, actor, rows), Done)
  }

  // ---------------------------------------------------------------------------
  // chores.py
  // ---------------------------------------------------------------------------

  datatype Draft = Draft(effort: Effort, recurring: bool, rule: Option<Rule>, firstDue: Day, assignee: Option<Id>)

  function AddInstance(s: DB, d: Id, h: Id, assignee: Option<Id>, manual: bool, due: Day): DB {
    s.(instances := s.instances[s.nextId := Instance(Some(d), h, assignee, manual, due, Pending, None, None)],
       nextId := s.nextId + 1)
  }

  function CreateChore(s: DB, actor: Id, h: Id, draft: Draft): (DB, Outcome) {
    var gate := RequireAdmin(s, actor, h);
    if !gate.Done? then (s, gate)
    else if draft.recurring && draft.rule.None? then (s, Unprocessable)
    else if draft.assignee.Some? && !ActiveIn(s.memberships, h, draft.assignee.value) then (s, Unprocessable)
    else
      var d := s.nextId;
      var s1 := s.(
        definitions := s.definitions[
          d := Definition(h, draft.effort, draft.recurring, draft.rule, draft.firstDue, true)],
        nextId := s.nextId + 1);
      if draft.assignee.Some? then (AddInstance(s1, d, h, draft.assignee, true, draft.firstDue), Done)
      else
        var (user, s2) := AutoAssign(s1, h);
        (AddInstance(s2, d, h, user, false, draft.firstDue), Done)
  }

  /** `_load_instance_for_terminal_transition` and `_definition_or_422`: what the caller may close. */
  function TerminalGate(s: DB, actor: Id, h: Id, id: Id): Outcome {
    var gate := RequireMember(s, actor, h);
    if !gate.Done? then gate
    else if id !in s.instances || s.instances[id].household != h then NotFound
    else if s.instances[id].assignee != Some(actor) && !AdminIn(s.memberships, h, actor) then Forbidden
    else if Terminal(s.instances[id].status) then Conflict
    else if s.instances[id].definition.None? || s.instances[id].definition.value !in s.definitions then Unprocessable
    else Done
  }

  function CompleteChore(s: DB, actor: Id, h: Id, id: Id, now: Time): (DB, Outcome) {
    var gate := TerminalGate(s, actor, h, id);
    if !gate.Done? then (s, gate)
    else
      var inst := s.instances[id].(status := Complete, completedAt := Some(now));
      match inst.assignee
      case None => (s.(instances := s.instances[id := inst.(points := None)]), Done)
      case Some(user) =>
        var points := EffortPoints(s.definitions[inst.definition.value].effort);
        (s.(instances := s.instances[id := inst.(points := Some(points))],
            ledger := s.ledger + [LedgerRow(h, user, Some(id), points, now)]),
         Done)
  }

  function DismissChore(s: DB, actor: Id, h: Id, id: Id, now: Time): (DB, Outcome) {
    var gate := TerminalGate(s, actor, h, id);
    if !gate.Done? then (s, gate)
    else
      (s.(instances := s.instances[
            id := s.instances[id].(status := Dismissed, completedAt := Some(now), points := None)]),
       Done)
  }

  function ReassignChore(s: DB, actor: Id, h: Id, id: Id, assignee: Option<Id>): (DB, Outcome) {
    var gate := RequireAdmin(s, actor, h);
    if !gate.Done? then (s, gate)
    else if id !in s.instances || s.instances[id].household != h then (s, NotFound)
    else if Terminal(s.instances[id].status) then (s, Conflict)
    else if assignee.Some? && !ActiveIn(s.memberships, h, assignee.value) then (s, Unprocessable)
    else if s.instances[id].definition.None? || s.instances[id].definition.value !in s.definitions
    then (s, Unprocessable)
    else
      var (user, s1) := if assignee.Some? then (assignee, s) else AutoAssign(s, h);
      (s1.(instances := s1.instances[id := s1.instances[id].(assignee := user, manual := assignee.Some?)]), Done)
  }

  /** The fields of `ChoreUpdate` that matter here; an explicit null clears the rule. */
  datatype Edit = Edit(effort: Option<Effort>, rule: Option<Option<Rule>>)

  function UpdateDefinition(s: DB, actor: Id, h: Id, d: Id, edit: Edit): (DB, Outcome) {
    var gate := RequireAdmin(s, actor, h);
    if !gate.Done? then (s, gate)
    else if d !in s.definitions || s.definitions[d].household != h || !s.definitions[d].active then (s, NotFound)
    else
      var def := s.definitions[d];
      var def' := def.(effort := if edit.effort.Some? then edit.effort.value else def.effort,
                       rule := if edit.rule.Some? then edit.rule.value else def.rule);
      (s.(definitions := s.definitions[d := def']), Done)
  }

  function PendingCancelled(instances: Instances, d: Id): Instances {
    map id | id in instances ::
      if instances[id].definition == Some(d) && instances[id].status == Pending
      then instances[id].(status := Cancelled) else instances[id]
  }

  function DeleteDefinition(s: DB, actor: Id, h: Id, d: Id): (DB, Outcome) {
    var gate := RequireAdmin(s, actor, h);
    if !gate.Done? then (s, gate)
    else if d !in s.definitions || s.definitions[d].household != h then (s, NotFound)
    else
      (s.(definitions := s.definitions[d := s.definitions[d].(active := false)],
          instances := PendingCancelled(s.instances, d)),
       Done)
  }

  // ---------------------------------------------------------------------------
  // account_deletion.py
  // ---------------------------------------------------------------------------

  predicate SoleMember(s: DB, h: Id) {
    |Roster(s.memberships, h)| <= 1
  }

  predicate SoleAdminAmongOthers(s: DB, h: Id, u: Id) {
    !SoleMember(s, h) && AdminIn(s.memberships, h, u) && CountAdmins(s.memberships, h) <= 1
  }

  function ToDelete(s: DB, order: seq<Id>): seq<Id> {
    if order == [] then []
    else
      var h := order[|order| - 1];
      ToDelete(s, order[..|order| - 1]) + if SoleMember(s, h) && h in s.households then [h] else []
  }

  function ToLeave(s: DB, order: seq<Id>): seq<Id> {
    if order == [] then []
    else
      var h := order[|order| - 1];
      ToLeave(s, order[..|order| - 1]) + if !SoleMember(s, h) then [h] else []
  }

  function LeaveEach(s: DB, u: Id, hs: seq<Id>, rows: map<Id, seq<Id>>): DB {
    if hs == [] then s
    else
      var h := hs[|hs| - 1];
      Redistributed(LeaveEach(s, u, hs[..|hs| - 1], rows), h, u, if h in rows then rows[h] else [])
  }

  function AsSet(ids: seq<Id>): set<Id> {
    set id | id in ids
  }

  /**
   `delete_user_account`: `order` is the order in which the user's active
   memberships are read, `rows[h]` the open chores read when leaving `h`.
   */
  function DeleteAccount(s: DB, actor: Id, order: seq<Id>, rows: map<Id, seq<Id>>): (DB, Outcome) {
    if actor !in s.users then (s, Unauthorized)
    else if exists h :: h in order && SoleAdminAmongOthers(s, h, actor) then (s, Conflict)
    else
      var s1 := DeleteHouseholds(s, AsSet(ToDelete(s, order)));
      var s2 := s1.(memberships := Deactivated(s1.memberships, AsSet(ToLeave(s, order)), actor));
      (DeleteUser(LeaveEach(s2, actor, ToLeave(s, order), rows), actor), Done)
  }
}
