/** The endpoints of chores.py, members.py, households.py and invites.py over the session. */
module Api {
  import opened Types
  import opened Schema
  import opened Endpoints
  import opened Database
  import Service = AssignmentService
  import opened Redistribution

  // ---------------------------------------------------------------------------
  // households.py
  // ---------------------------------------------------------------------------

  method PostHousehold(db: Session, actor: Id, name: string, now: Time) returns (outcome: Outcome)
    modifies db
    ensures (db.View(), outcome) == CreateHousehold(old(db.View()), actor, name, now)
  {
    if actor !in db.users {
      return Unauthorized;
    }
    var h := db.nextId;
    db.households := db.households[h := Household(name, 0)];
    db.memberships := db.memberships + [Membership(h, actor, Admin, now, true)];
    db.nextId := db.nextId + 1;
    outcome := Done;
  }

  method RemoveHousehold(db: Session, actor: Id, h: Id, confirm: string) returns (outcome: Outcome)
    modifies db
    ensures (db.View(), outcome) == DeleteHousehold(old(db.View()), actor, h, confirm)
  {
    outcome := RequireAdmin(db.View(), actor, h);
    if outcome != Done {
      return;
    }
    if h !in db.households {
      return NotFound;
    }
    if confirm != db.households[h].name {
      return BadRequest;
    }
    db.DeleteHouseholdRows({h});
  }

  // ---------------------------------------------------------------------------
  // invites.py
  // ---------------------------------------------------------------------------

  method PostInvite(db: Session, actor: Id, h: Id, now: Time) returns (outcome: Outcome)
    modifies db
    ensures (db.View(), outcome) == CreateInvite(old(db.View()), actor, h, now)
  {
    outcome := RequireAdmin(db.View(), actor, h);
    if outcome != Done {
      return;
    }
    db.invites := InvitesExpired(db.invites, h, now);
    db.invites := db.invites[db.nextId := Invite(h, now + INVITE_TTL, None)];
    db.nextId := db.nextId + 1;
  }

  method PostAcceptInvite(db: Session, actor: Id, token: Id, now: Time) returns (outcome: Outcome)
    modifies db
    ensures (db.View(), outcome) == AcceptInvite(old(db.View()), actor, token, now)
  {
    if actor !in db.users {
      return Unauthorized;
    }
    if token !in db.invites || db.invites[token].expiresAt < now || db.invites[token].usedAt.Some? {
      return Gone;
    }
    var invite := db.invites[token];
    if ActiveIn(db.memberships, invite.household, actor) {
      return Conflict;
    }
    db.memberships := db.memberships + [Membership(invite.household, actor, Member, now, true)];
    db.invites := db.invites[token := invite.(usedAt := Some(now))];
    outcome := Done;
  }

  method RemoveInvite(db: Session, actor: Id, h: Id, token: Id, now: Time) returns (outcome: Outcome)
    modifies db
    ensures (db.View(), outcome) == RevokeInvite(old(db.View()), actor, h, token, now)
  {
    outcome := RequireAdmin(db.View(), actor, h);
    if outcome != Done {
      return;
    }
    if token !in db.invites || db.invites[token].household != h {
      return NotFound;
    }
    db.invites := db.invites[token := db.invites[token].(expiresAt := now)];
  }

  // ---------------------------------------------------------------------------
  // members.py
  // ---------------------------------------------------------------------------

  method DeleteMember(db: Session, actor: Id, h: Id, target: Id, rows: seq<Id>) returns (outcome: Outcome)
    requires Enumerates(rows, OpenChores(db.instances, h, target))
    modifies db
    ensures (db.View(), outcome) == RemoveMember(old(db.View()), actor, h, target, rows)
  {
    outcome := RequireAdmin(db.View(), actor, h);
    if outcome != Done {
      return;
    }
    if !ActiveIn(db.memberships, h, target) {
      return NotFound;
    }
    if target == actor {
      if CountAdmins(db.memberships, h) <= 1 {
        return Conflict;
      }
    }
    db.memberships := Deactivated(db.memberships, {h}, target);
    RedistributeForRemovedMember(db, target, h, rows);
  }

  method PatchRole(db: Session, actor: Id, h: Id, target: Id, role: Role) returns (outcome: Outcome)
    modifies db
    ensures (db.View(), outcome) == UpdateRole(old(db.View()), actor, h, target, role)
  {
    outcome := RequireAdmin(db.View(), actor, h);
    if outcome != Done {
      return;
    }
    if !ActiveIn(db.memberships, h, target) {
      return NotFound;
    }
    if target == actor && role == Member {
      if CountAdmins(db.memberships, h) <= 1 {
        return Conflict;
      }
    }
    db.memberships := WithRole(db.memberships, h, target, role);
  }

  method PostLeave(db: Session, actor: Id, h: Id, rows: seq<Id>) returns (outcome: Outcome)
    requires Enumerates(rows, OpenChores(db.instances, h, actor))
    modifies db
    ensures (db.View(), outcome) == Leave(old(db.View()), actor, h, rows)
  {
    outcome := RequireMember(db.View(), actor, h);
    if outcome != Done {
      return;
    }
    if AdminIn(db.memberships, h, actor) {
      if CountAdmins(db.memberships, h) <= 1 {
        return Conflict;
      }
    }
    db.memberships := Deactivated(db.memberships, {h}, actor);
    RedistributeForRemovedMember(db, actor, h, rows);
  }

  // ---------------------------------------------------------------------------
  // chores.py
  // ---------------------------------------------------------------------------

  method PostChore(db: Session, actor: Id, h: Id, draft: Draft) returns (outcome: Outcome)
    modifies db
    ensures (db.View(), outcome) == CreateChore(old(db.View()), actor, h, draft)
  {
    var begin := db.View();
    outcome := RequireAdmin(db.View(), actor, h);
    if outcome != Done {
      return;
    }
    if draft.recurring && draft.rule.None? {
      return Unprocessable;
    }
    var d := db.nextId;
    db.definitions := db.definitions[
      d := Definition(h, draft.effort, draft.recurring, draft.rule, draft.firstDue, true)];
    db.nextId := db.nextId + 1;
    var assignee := draft.assignee;
    if draft.assignee.Some? {
      if !ActiveIn(db.memberships, h, draft.assignee.value) {
        db.Rollback(begin);
        return Unprocessable;
      }
    } else {
      assignee := Service.AssignNext(db, h);
    }
    db.instances := db.instances[
      db.nextId := Instance(Some(d), h, assignee, draft.assignee.Some?, draft.firstDue, Pending, None, None)];
    db.nextId := db.nextId + 1;
  }

  /** `_load_instance_for_terminal_transition` and `_definition_or_422`. */
  method LoadForTerminalTransition(db: Session, actor: Id, h: Id, id: Id) returns (outcome: Outcome)
    ensures outcome == TerminalGate(db.View(), actor, h, id)
  {
    outcome := RequireMember(db.View(), actor, h);
    if outcome != Done {
      return;
    }
    if id !in db.instances || db.instances[id].household != h {
      return NotFound;
    }
    var inst := db.instances[id];
    var isAssignee := inst.assignee.Some? && inst.assignee.value == actor;
    var isAdmin := AdminIn(db.memberships, h, actor);
    if !(isAssignee || isAdmin) {
      return Forbidden;
    }
    if Terminal(inst.status) {
      return Conflict;
    }
    if inst.definition.None? || inst.definition.value !in db.definitions {
      return Unprocessable;
    }
  }

  method PostComplete(db: Session, actor: Id, h: Id, id: Id, now: Time) returns (outcome: Outcome)
    modifies db
    ensures (db.View(), outcome) == CompleteChore(old(db.View()), actor, h, id, now)
  {
    outcome := LoadForTerminalTransition(db, actor, h, id);
    if outcome != Done {
      return;
    }
    var inst := db.instances[id].(status := Complete, completedAt := Some(now));
    if inst.assignee.Some? {
      var pointsAwarded := EffortPoints(db.definitions[inst.definition.value].effort);
      inst := inst.(points := Some(pointsAwarded));
      db.ledger := db.ledger + [LedgerRow(h, inst.assignee.value, Some(id), pointsAwarded, now)];
    } else {
      inst := inst.(points := None);
    }
    db.instances := db.instances[id := inst];
  }

  method PostDismiss(db: Session, actor: Id, h: Id, id: Id, now: Time) returns (outcome: Outcome)
    modifies db
    ensures (db.View(), outcome) == DismissChore(old(db.View()), actor, h, id, now)
  {
    outcome := LoadForTerminalTransition(db, actor, h, id);
    if outcome != Done {
      return;
    }
    db.instances := db.instances[
      id := db.instances[id].(status := Dismissed, completedAt := Some(now), points := None)];
  }

  method PatchAssignee(db: Session, actor: Id, h: Id, id: Id, assignee: Option<Id>) returns (outcome: Outcome)
    modifies db
    ensures (db.View(), outcome) == ReassignChore(old(db.View()), actor, h, id, assignee)
  {
    var begin := db.View();
    outcome := RequireAdmin(db.View(), actor, h);
    if outcome != Done {
      return;
    }
    if id !in db.instances || db.instances[id].household != h {
      return NotFound;
    }
    if Terminal(db.instances[id].status) {
      return Conflict;
    }
    if assignee.Some? {
      if !ActiveIn(db.memberships, h, assignee.value) {
        return Unprocessable;
      }
      db.instances := db.instances[id := db.instances[id].(assignee := assignee, manual := true)];
    } else {
      var user := Service.AssignNext(db, h);
      db.instances := db.instances[id := db.instances[id].(assignee := user, manual := false)];
    }
    var definition := db.instances[id].definition;
    if definition.None? || definition.value !in db.definitions {
      db.Rollback(begin);
      return Unprocessable;
    }
  }

  method PatchDefinition(db: Session, actor: Id, h: Id, d: Id, edit: Edit) returns (outcome: Outcome)
    modifies db
    ensures (db.View(), outcome) == UpdateDefinition(old(db.View()), actor, h, d, edit)
  {
    outcome := RequireAdmin(db.View(), actor, h);
    if outcome != Done {
      return;
    }
    if d !in db.definitions || db.definitions[d].household != h || !db.definitions[d].active {
      return NotFound;
    }
    var def := db.definitions[d];
    if edit.effort.Some? {
      def := def.(effort := edit.effort.value);
    }
    if edit.rule.Some? {
      def := def.(rule := edit.rule.value);
    }
    db.definitions := db.definitions[d := def];
  }

  method RemoveDefinition(db: Session, actor: Id, h: Id, d: Id) returns (outcome: Outcome)
    modifies db
    ensures (db.View(), outcome) == DeleteDefinition(old(db.View()), actor, h, d)
  {
    outcome := RequireAdmin(db.View(), actor, h);
    if outcome != Done {
      return;
    }
    if d !in db.definitions || db.definitions[d].household != h {
      return NotFound;
    }
    db.definitions := db.definitions[d := db.definitions[d].(active := false)];
    db.instances := PendingCancelled(db.instances, d);
  }
}
