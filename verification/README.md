# Household chores: a verified model

This project models the chore backend (households, memberships, chore
definitions and instances, the point ledger, invites, refresh tokens), its
daily scheduler and the app's token-refreshing HTTP client, and proves what
holds of them over every run. `dafny verify dfyconfig.toml` checks all of it.

## How it is built

- **Values.** `Schema` holds the tables as one value `DB`, the queries the
  endpoints run, and the ON DELETE rules. `Endpoints` and `DailyJob` give every
  request and the nightly job as functions from tables to tables and an
  outcome (the HTTP status), with the same checks in the same order as the code.
- **Code that works in place.** `Database.Session` has the tables as fields.
  `AssignmentService`, `Redistribution`, `Api`, `AccountDeletion` and
  `Scheduler` are the methods that update them, with the loops the code has;
  each is proved equal to its function above. `Server.Serve` dispatches every
  request to them and keeps the invariant, so what is proved of runs holds of the
  session. `RefreshTokens.AuthServer` and `ApiClient.HttpClient` do the same for
  the token table and the Dart client. The scheduler first creates every missing
  chore unassigned and then assigns household by household; that this equals
  filling slot by slot is `Scheduler.GenerateChoreInstances`.
- **Runs.** `Runs.Request` lists the requests; a run is any sequence of them
  from the empty database. `Invariants.Inv` holds after every step, and `Runs`,
  `History`, `Causes`, `Coverage`, `TurnTaking` and `Standings` draw the
  conclusions. `Effects` and `ChoreEffects` say of every request when exactly it is
  accepted and what has happened once it is.
- **Interleavings.** `RowLock` (closing one chore), `InviteLock` (accepting one
  invite), `RotationLock` (advancing one pointer, with and without its lock) and
  `ApiClient` (concurrent 401s) are step machines in which steps of all parties
  mix freely. `LockedEndpoints` ties the first two to the endpoints, `RetryLaw`
  says what becomes of a refused request.
- **Settings.** `GRACE_DAYS`, `DAYS_AHEAD` and the two token lifetimes are
  constants without a value: everything holds for every configuration.

## Findings

- The comment at `backend/app/services/redistribution.py:121-129` says that the
  next member stays the same when another one leaves. With pointer P = q n + e
  and k open chores dealt to the others, the next member is really survivor
  (e - [r < e] + q + k) mod (n - 1), so the comment holds exactly when q + k is a
  multiple of n - 1 (`Rotation.PromiseKeptExactlyWhen`, on the tables
  `Removal.NextAssigneeAfterLeaving`). `PromiseExample` reaches a counterexample
  from the empty database.
- `backend/app/services/redistribution.py:65-69` reads the pointer without the
  row lock. A turn that another transaction commits before redistribution does is
  then lost (`RotationLock.UnlockedReadLosesATurn`), unless the read was harmless:
  nothing was committed in between, or one turn was, the leaver's own and not the
  last of the round, or the pointer needed no change before nor after
  (`RotationLock.PointerIsSerialExactlyWhen`).
- "No remaining members" at `backend/app/services/redistribution.py:104-109` is
  unreachable for atomic requests, since every household keeps an active admin;
  hence every open chore is always assigned, to an active member.
- A monthly series that starts on the 29th to 31st drifts to the shortest month
  it meets (`backend/app/tasks/scheduler.py:82-94`); when it does not is
  `Recurrence.IterationMatchesSingleMove`.
- On replay the comment at `backend/app/api/auth.py:197-200` speaks of revoking
  the token's family; the code revokes every token of the user, and that is what
  is modelled.
- The client's refresh times out after 10 s or 15 s and keeps its token
  (`flutter_app/lib/core/auth/auth_state.dart:87-88`, lines 199-200), but the
  server may still handle that POST. If the next refresh has succeeded by then,
  the abandoned POST is taken for a replay and the new token is revoked
  (`LateRefresh.AbandonedPostIsTakenForAReplay`); exactly when is
  `ApiClient.LateDetectionExactlyWhen`.
- The pointer is never reset, although `docs/requirements.md:171` says that the
  rotation restarts.

## Assumptions

A request is one transaction, atomic except in the interleaving modules. Keys
and tokens come from a counter, so they are never reused. `joined_at` rises
within a household. `interval_n` is at least one. What a query without ORDER BY
returned is a parameter, constrained to be an enumeration of the matching rows.
A transaction that has loaded a row keeps the values it read first and writes a
column only when its value has changed.

## Model

| member | source | states |
|---|---|---|
| Rotation.BulkRefinesOneByOne | backend/app/services/assignment.py:77-146 | One lock for a batch and one lock per chore give the same assignments and the same final pointer on every input: empty lists, repeated ids, no members, no household |
| Rotation.DealByLastOccurrence | backend/app/services/assignment.py:136-141 | An id gets the turn of its last occurrence in the list |
| Rotation.DealKeys | backend/app/services/assignment.py:136-146 | Exactly the given ids are dealt, each to a member of the roster |
| Rotation.Fairness | backend/app/services/assignment.py:53-60 | Any k consecutive picks give every one of n members floor(k/n) or ceil(k/n) turns |
| Rotation.FullRoundIsPermutation | backend/app/services/assignment.py:53-60 | Any n consecutive picks are a permutation of the roster |
| Rotation.RunsPickConsecutiveTurns | backend/app/services/assignment.py:53-60 | Any mix of single and bulk calls on a fixed roster picks the consecutive turns from the starting pointer |
| TurnTaking.StepTakesTurns | backend/app/api/chores.py:111-142 | On the tables: while the household's roster stays, a request moves its pointer by exactly the number of members it chose, and chose the next in turn |
| TurnTaking.RunTakesTurns | backend/app/api/chores.py:111-142 | Over any run of requests with a fixed roster, all automatic assignees (creation, reassignment, daily job) in order are the consecutive turns; manual assignments and all other requests neither take nor skip one |
| TurnTaking.RequestsAreServedFairly | backend/app/services/assignment.py:53-60 | Over any such run every block of k consecutive automatic choices gives each of the n members floor(k/n) or ceil(k/n) |
| Rotation.ClampNeverBinds | backend/app/services/redistribution.py:130-133 | For a non-negative pointer the max(0, ...) never changes the correction |
| Rotation.RemovalLaw | backend/app/services/redistribution.py:104-133 | With P = q n + e, the turn after removing index r and dealing k chores is survivor (e - [r < e] + q + k) mod (n - 1) |
| Rotation.PromisedIsSurvivor | backend/app/services/redistribution.py:121-129 | The member the comment promises is survivor (e - [r < e]) mod (n - 1) |
| Rotation.PromiseKeptExactlyWhen | backend/app/services/redistribution.py:121-133 | The comment's promise holds if and only if (P / n + k) mod (n - 1) = 0, with k chores dealt |
| Rotation.PromiseCanBreak | backend/app/services/redistribution.py:121-133 | Two concrete inputs on which the promise fails: n = 3, r = 2 with P = 3 and k = 0, and with P = 0 and k = 1 |
| PromiseExample.ReachedByRequests | backend/app/api/invites.py:77-139 | Nine requests from the empty database lead to a household of three with one open chore of the third |
| PromiseExample.PromiseBreaksInAReachableState | backend/app/services/redistribution.py:121-133 | In that reachable state user 0 is next, and after the third member leaves user 1 is served |
| RotationLock.InterleavingsAreSerial | backend/app/services/assignment.py:29-60 | Whatever the interleaving of lockers, writers, commits, rollbacks and one redistribution, the callers that committed before the member left got what they would have got one at a time in commit order; without a departure so did the pointer |
| RotationLock.PointerIsSerialExactlyWhen | backend/app/services/redistribution.py:61-133 | Redistribution reads the pointer without the lock: the pointer ends as it would one at a time if and only if that read was harmless, and it is whenever nobody committed between the read and the commit |
| RotationLock.UnlockedReadLosesATurn | backend/app/services/redistribution.py:61-133 | A concrete interleaving (n = 3, r = 0: read 4, another commits 5, write 3) on which a turn is lost |
| RotationLock.OneTurnMayBeHarmless | backend/app/services/redistribution.py:61-133 | A concrete input (n = 3, r = 0, one chore: read 3, another commits 4) on which a commit in between does no harm |
| RotationLock.DepartureDealsExactlyWhen | backend/app/services/redistribution.py:104-133 | The leaver's chores go where they would go one at a time if and only if whole rounds of the n - 1 others were taken between the read and the commit; callers that commit later are dealt the turns from the pointer as it was left |
| RotationLock.MoveKeepsReads | backend/app/services/assignment.py:111-144 | A caller that holds the row lock has read the committed pointer and writes from it |
| AssignmentService.AssignNext | backend/app/services/assignment.py:23-62 | The method equals the locked read, pick and advance on the tables |
| AssignmentService.RedistributeChores | backend/app/services/assignment.py:77-92 | The one-at-a-time loop gives the batch result and writes the same pointer |
| AssignmentService.RedistributeChoresBulk | backend/app/services/assignment.py:94-146 | The batch loop over a local pointer equals its specification, early returns included |
| Redistribution.WriteAssignees | backend/app/services/redistribution.py:104-118 | The loops rewrite exactly the assignees of the dealt chores |
| Redistribution.RedistributeForRemovedMember | backend/app/services/redistribution.py:19-134 | The five steps in place equal the specification of redistribution |
| Removal.CountedIndexIsPlace | backend/app/services/redistribution.py:73-99 | Counting active earlier joiners after the deactivation gives the place the leaver had in the roster |
| Removal.RosterAfterLeaving | backend/app/services/redistribution.py:51-60 | The roster loses exactly that place |
| Removal.LeavingLaw | backend/app/services/redistribution.py:33-133 | k open chores: the i-th goes to survivor (P + i) mod (n - 1), and the pointer ends at P + k - [r < P mod n] |
| Removal.NextAssigneeAfterLeaving | backend/app/services/redistribution.py:61-133 | On the tables, for any k open chores: the next auto-assignee is survivor (e - [r < e] + q + k) mod (n - 1), and the promised one if and only if (q + k) mod (n - 1) = 0 |
| Removal.HandOverIsFair | backend/app/services/redistribution.py:104-118 | The leaver's chores reach the survivors with counts differing by at most one |
| Removal.LeavingTouchesOnlyOpenChores | backend/app/services/redistribution.py:33-46 | No other chore changes, those change only their assignee, and none still names the leaver |
| Preservation.HandOverDeals | backend/app/services/redistribution.py:51-118 | With an admin left, the count of others is the survivors' number and the bulk branch is taken |
| Preservation.RedistributionEffect | backend/app/services/redistribution.py:104-133 | Redistribution as a deal from the old pointer followed by the correction; the pointer stays non-negative |
| Runs.RedistributionAlwaysFindsMembers | backend/app/services/redistribution.py:104-109 | In reachable states a removal or departure never takes the no-remaining-members branch |
| Runs.AccountDeletionAlwaysFindsMembers | backend/app/services/account_deletion.py:126-133 | Nor does an account deletion, in any household the user leaves |
| Recurrence.ComputeDueDates | backend/app/tasks/scheduler.py:52-94 | The while loop collects the dates of the specification and terminates, an unsupported unit yields none |
| Recurrence.DueDatesExact | backend/app/tasks/scheduler.py:52-94 | For every unit: exactly the series dates between floor and horizon, strictly increasing |
| Recurrence.DayAndWeekDates | backend/app/tasks/scheduler.py:78-94 | For days and weeks: exactly the dates congruent to the first one modulo n or 7 n within the bounds |
| Recurrence.FloorKeepsSuffix | backend/app/tasks/scheduler.py:86-94 | The floor removes a prefix of dates below it and never shifts the cadence |
| Recurrence.HorizonOnlyAppends | backend/app/tasks/scheduler.py:86-94 | A later horizon only appends dates |
| Recurrence.MonthlyClosedForm | backend/app/tasks/scheduler.py:82-94 | The k-th monthly date lies k intervals of months later, on the running minimum of first day and visited month lengths |
| Recurrence.MonthlyDaySettles | backend/app/tasks/scheduler.py:82-94 | The day of month never rises, and stays for good once at most 28 |
| Recurrence.IterationMatchesSingleMove | backend/app/tasks/scheduler.py:82-94 | The iterated date equals one move by k intervals if and only if no earlier visited month is shorter than the day that move lands on |
| Recurrence.MonthEndDrift | backend/app/tasks/scheduler.py:82-94 | 31 January monthly: the third date is 28 March, not 31 March |
| Recurrence.MonthEndInALeapYear | backend/app/tasks/scheduler.py:82-94 | Monthly from 31 January 2024 (day 738916): 29 February (738945), then 29 March (738974) |
| Calendar.OrdinalOrdersDates | backend/app/tasks/scheduler.py:86-94 | Date comparison and ordinal comparison agree |
| Calendar.DateOrdinalRoundTrip | backend/app/tasks/scheduler.py:86-94 | Dates and ordinals convert back and forth without loss |
| Calendar.AddMonthsMovesExactly | backend/app/tasks/scheduler.py:82-84 | Month addition with year carry moves exactly n months, clips only the day and moves strictly forward |
| Calendar.PlusMonthsMovesExactly | backend/app/tasks/scheduler.py:82-84 | The same through ordinals |
| Calendar.YearsCountLeapDays | backend/app/tasks/scheduler.py:86-94 | The years before y have 365 (y - 1) + (y - 1)/4 - (y - 1)/100 + (y - 1)/400 days |
| Calendar.FourCenturies | backend/app/tasks/scheduler.py:86-94 | Four centuries have 146097 days |
| Calendar.FebruaryMakesTheYear | backend/app/tasks/scheduler.py:82-84 | A year has 366 days exactly when its February has 29, and otherwise 365 and 28 |
| Calendar.MonthsAlternate | backend/app/tasks/scheduler.py:82-84 | Every other month has 30 + (m + m/8) mod 2 days |
| Scheduler.CreateMissing | backend/app/tasks/scheduler.py:156-182 | The inner loop creates exactly the missing unassigned instances of one definition, grouped by household |
| Scheduler.AssignBatches | backend/app/tasks/scheduler.py:184-193 | One batch per household gives every new chore the turn its place among that household's new chores calls for |
| Scheduler.FillSlotsClosedForm | backend/app/tasks/scheduler.py:134-193 | Filling slot by slot has the closed form: one instance per fresh slot with its assignee, every pointer advanced by its household's count |
| Scheduler.FilledIsUnique | backend/app/tasks/scheduler.py:134-193 | That closed form determines the tables |
| Scheduler.DealHousehold | backend/app/tasks/scheduler.py:184-193 | Assigning one household's batch takes its instances and pointer to the closed form and leaves the others |
| Scheduler.GenerateChoreInstances | backend/app/tasks/scheduler.py:102-195 | Create-all-then-assign-per-household equals creating and auto-assigning slot by slot |
| Scheduler.FlagOverdueInstances | backend/app/tasks/scheduler.py:198-220 | Exactly the pending chores that are past due become overdue, and their ids are returned |
| Scheduler.RunJob | backend/app/tasks/scheduler.py:307-350 | Without the lock nothing is done; with it, generation, flagging and clean-up all happen, or an exception is raised after a rollback from whatever state the steps had reached; no row expired before now is left, and every token is from then on answered as it would have been |
| JobTheorems.FillSlotsExact | backend/app/tasks/scheduler.py:162-182 | Afterwards exactly the old (definition, date) pairs and the requested ones exist |
| JobTheorems.FillSlotsExtends | backend/app/tasks/scheduler.py:162-182 | Generation never alters or removes an existing instance |
| JobTheorems.DailyJobIsIdempotent | backend/app/tasks/scheduler.py:102-220 | A second run on the same day changes nothing, pointers included, whatever order its query returns |
| JobTheorems.NothingPendingIsPastDue | backend/app/tasks/scheduler.py:198-220 | After the job no pending chore is past due |
| JobTheorems.DailyJobFillsWindowExactly | backend/app/tasks/scheduler.py:118-182 | A pair exists afterwards if and only if it did before or is a series date of an active definition in [today - GRACE_DAYS, today + DAYS_AHEAD], for every value of the two settings |
| JobTheorems.JobCreatesFew | backend/app/tasks/scheduler.py:118-182 | One run creates at most GRACE_DAYS + DAYS_AHEAD + 1 instances of a definition, at most GRACE_DAYS of them past due |
| JobTheorems.DailyJobKeepsInv | backend/app/tasks/scheduler.py:102-220 | The job keeps the invariant |
| Coverage.OccurrencesAreStable | backend/app/models/chore_instance.py:26-56 | No request other than the job adds or removes an occurrence of an existing definition |
| Coverage.OccurrencesAfterRun | backend/app/tasks/scheduler.py:118-182 | After any run, exactly the earlier occurrences exist and the dates some job found in its window while they belonged to the series as it then was |
| Coverage.CoverageNeedsSmallGaps | backend/app/core/config.py:53-59 | Jobs on rising days cover everything from the first window to the last if and only if no gap exceeds GRACE_DAYS + DAYS_AHEAD + 1 (or that range is empty) |
| Coverage.NoLostOccurrences | backend/app/tasks/scheduler.py:118-182 | With such gaps and an unchanged series (other fields may be edited) every series date has exactly one instance |
| Preservation.CompleteKeepsInv | backend/app/api/chores.py:447-509 | Completion keeps the invariant: one new ledger row that agrees with the chore |
| Preservation.DismissKeepsInv | backend/app/api/chores.py:516-555 | Dismissal keeps the invariant |
| Preservation.ReassignKeepsInv | backend/app/api/chores.py:566-646 | Reassignment keeps open chores with active members and never touches awarded ones |
| Preservation.CreateChoreKeepsInv | backend/app/api/chores.py:79-160 | Creation keeps the invariant with manual and automatic assignee |
| Preservation.UpdateDefinitionKeepsInv | backend/app/api/chores.py:657-702 | Editing a definition keeps the invariant |
| Preservation.DeleteDefinitionKeepsInv | backend/app/api/chores.py:713-747 | Deleting a series keeps the invariant: its pending chores are cancelled |
| Preservation.CreateHouseholdKeepsInv | backend/app/api/households.py:29-56 | A new household starts with an active admin |
| Preservation.CreateInviteKeepsInv | backend/app/api/invites.py:38-69 | Creating an invite expires the open ones and keeps the invariant |
| Preservation.AcceptInviteKeepsInv | backend/app/api/invites.py:77-139 | Joining, also after having left, keeps one active row per user and the joining order |
| Preservation.RevokeInviteKeepsInv | backend/app/api/invites.py:179-196 | Revoking keeps the invariant |
| Preservation.UpdateRoleKeepsInv | backend/app/api/members.py:140-193 | A role change never takes the last active admin |
| Preservation.CallerKeepsAdmin | backend/app/api/members.py:116-127 | After the guards of removal an admin other than the removed member exists |
| Preservation.LeaverLeavesAdmin | backend/app/api/members.py:216-228 | After the guard of leaving, another active admin remains |
| Preservation.RemoveMemberKeepsInv | backend/app/api/members.py:87-131 | Removal keeps the invariant |
| Preservation.LeaveKeepsInv | backend/app/api/members.py:202-231 | Leaving keeps the invariant |
| Invariants.RosterIsActiveMembers | backend/app/services/assignment.py:40-48 | The rotation roster lists exactly the active members |
| Invariants.RosterInJoiningOrder | backend/app/services/assignment.py:40-48 | It lists each once, strictly by joining time |
| Deletion.CascadeLeavesNoDanglingRows | backend/app/models/point_ledger.py:12-37 | Deleting households removes exactly their rows; the SET NULL rules never fire |
| Deletion.DeleteHouseholdsKeepsInv | backend/app/api/households.py:167-204 | The cascade keeps the invariant |
| Deletion.DeleteUserKeepsInv | backend/app/models/household_membership.py:12-42 | Deleting a user who is nowhere active keeps the invariant, ledger agreement included |
| Deletion.ValidatePassSplits | backend/app/services/account_deletion.py:64-109 | The validate pass splits the existing households into those to delete and those to leave |
| Deletion.ValidatedChecksStillHold | backend/app/services/account_deletion.py:64-143 | Whatever the validate pass established still holds when the mutate pass reaches each household |
| Deletion.LeavingIsLocal | backend/app/services/account_deletion.py:127-143 | Leaving one household does not disturb the others |
| Deletion.DeleteAccountKeepsInv | backend/app/services/account_deletion.py:43-146 | Account deletion keeps the invariant |
| Deletion.DeleteAccountErases | backend/app/services/account_deletion.py:43-146 | Afterwards no membership, ledger row or assignee names the user |
| AccountDeletion.Validate | backend/app/services/account_deletion.py:64-109 | The loop reports a conflict if and only if the user is sole admin among others somewhere, and otherwise collects the two lists |
| AccountDeletion.DeleteUserAccount | backend/app/services/account_deletion.py:43-146 | The two passes in place equal the specification |
| Runs.StepKeepsInv | backend/app/api/chores.py:79-747 | Every request keeps the invariant |
| Runs.ReachableStatesAreConsistent | backend/app/api/chores.py:79-747 | Every run from the empty database stays consistent |
| Runs.EveryHouseholdHasAnAdmin | backend/app/api/members.py:32-42 | In every reachable state each household has an active admin |
| Runs.EveryOpenChoreIsServed | backend/app/services/redistribution.py:33-46 | In every reachable state each pending or overdue chore is assigned to an active member of its household |
| Runs.PendingChoresHaveActiveDefinitions | backend/app/api/chores.py:734-745 | In every reachable state chores have a definition of their household, pending ones an active one |
| Runs.LedgerBalances | backend/app/api/chores.py:477-506 | A household's ledger total is the sum of the points of its completed chores that name an assignee |
| Runs.LedgerRecordsEachAwardOnce | backend/app/models/point_ledger.py:12-37 | At most one ledger row per chore, and an agreeing one exactly when the chore is complete with an assignee |
| History.StepEvolves | backend/app/api/chores.py:353-413 | Every request only moves statuses forward, freezes closed chores, keeps definitions' identity and used invites used |
| History.AtMostTwoStatusChanges | backend/app/api/chores.py:353-413 | In any run a chore changes status at most twice |
| History.ClosedStaysClosed | backend/app/api/chores.py:404-411 | Status, completion time and points of a closed chore never change again |
| History.DeletedSeriesStaysQuiet | backend/app/api/chores.py:734-745 | After a series is deleted no later state has a pending chore of it |
| History.InviteIsSingleUse | backend/app/api/invites.py:88-139 | A used invite is never accepted again |
| Causes.StatusChangeHasACause | backend/app/api/chores.py:404-546 | A chore changes status only by its assignee or an admin closing it (with its definition's effort points when completed), by an admin deleting its series while pending, or by the job when past due |
| Causes.PointsHaveACause | backend/app/api/chores.py:481-491 | A ledger row appears only as the one award of a completion, to the assignee, over the definition's effort points |
| Causes.JoiningHasACause | backend/app/api/invites.py:88-139 | One becomes a member only by creating the household or by an unused, unexpired invite to it |
| Causes.PromotionHasACause | backend/app/api/members.py:140-193 | One becomes an admin only by creating the household or by an admin's role change |
| Causes.DepartureHasACause | backend/app/api/members.py:87-231 | One ceases to be a member only by leaving, by an admin's removal or confirmed household deletion, or with one's own account |
| Causes.OnlyNewestInviteIsOpen | backend/app/api/invites.py:38-69 | After creating an invite no other of its household is open, and the new one exactly when the configured lifetime is positive; other households' are unchanged |
| Causes.RevokedInviteIsRefused | backend/app/api/invites.py:179-196 | Over any run after a revocation, the invite is refused at every instant later than its last revocation |
| Causes.RevokingAgainReopens | backend/app/api/invites.py:195-195 | Revoking again moves the expiry: an accept at the second revocation's own instant is refused before it and succeeds after it |
| Effects.CreateHouseholdEffect | backend/app/api/households.py:29-56 | A new household with pointer 0 whose admin and whole roster is the creator; nothing else changes |
| Effects.DeleteHouseholdAccepted | backend/app/api/households.py:167-204 | Accepted exactly for an admin who confirms the name |
| Effects.DeleteHouseholdEffect | backend/app/api/households.py:167-204 | The household and all its rows are gone, every other row is as it was |
| Effects.CreateInviteAccepted | backend/app/api/invites.py:38-69 | Accepted exactly for an admin |
| Effects.CreateInviteEffect | backend/app/api/invites.py:38-69 | A new unused invite with the configured lifetime; the household's unused ones end by now, no other changes |
| Effects.AcceptInviteAccepted | backend/app/api/invites.py:77-111 | Accepted exactly for a user who is no member, in time and unused; 410 and 409 exactly otherwise |
| Effects.AcceptInviteEffect | backend/app/api/invites.py:113-126 | The user is a member, no admin and last in the rotation, the invite is used, nothing else changes |
| Effects.RevokeInviteAccepted | backend/app/api/invites.py:179-196 | Accepted exactly for an admin on an invite of the household |
| Effects.UpdateRoleAccepted | backend/app/api/members.py:140-193 | Accepted exactly for an admin on an active member, unless the only admin steps down; 404 and 409 exactly otherwise |
| Effects.UpdateRoleEffect | backend/app/api/members.py:140-193 | The target has the role, everybody else's membership and role and every rotation stand |
| Effects.RemovalAccepted | backend/app/api/members.py:87-131 | Accepted exactly for an admin on an active member, unless the only admin removes themselves; 404 and 409 exactly otherwise |
| Effects.LeavingAccepted | backend/app/api/members.py:202-231 | Accepted exactly for a member who is not the only admin; 409 exactly for that one |
| Effects.DepartureEffect | backend/app/api/members.py:125-131 | An accepted removal or leave request: the member is out, everybody else stands, the roster closes the gap, every open chore goes to its survivor and the pointer ends as the law says |
| Effects.DepartureTouches | backend/app/api/members.py:125-131 | Only the handed-over chores change, in their assignee; no open chore names the member any more; no other table changes |
| Effects.NextAfterDeparture | backend/app/services/redistribution.py:61-133 | After an accepted removal or leave request the next chore goes by the removal law, to the promised member if and only if n - 1 divides q + k |
| Effects.DeleteAccountAccepted | backend/app/services/account_deletion.py:64-109 | Accepted exactly unless the user is the only admin of a household with other members; 409 exactly then |
| Effects.DeleteAccountEffect | backend/app/services/account_deletion.py:64-146 | The user is gone, and exactly the households in which nobody else was active; everybody else's memberships and roles stand |
| Effects.EmptyHouseholdClears | backend/app/services/redistribution.py:104-109 | Where nobody else is left, exactly the open chores lose their assignee |
| Effects.NobodyToAssign | backend/app/services/assignment.py:36-51 | Without members or household nobody is assigned and no pointer moves |
| Effects.CascadeClearsReferences | backend/app/models/chore_instance.py:34-43 | ON DELETE SET NULL on any tables: what survives refers to nothing that is gone and is otherwise unchanged |
| ChoreEffects.CreateChoreAccepted | backend/app/api/chores.py:79-142 | Accepted exactly for an admin, with a rule if recurring, naming nobody or an active member |
| ChoreEffects.CreateChoreEffect | backend/app/api/chores.py:79-160 | One definition and one pending chore with the draft's fields, given to the named member or whoever's turn it is, which alone moves the pointer |
| ChoreEffects.ReassignAccepted | backend/app/api/chores.py:566-622 | Accepted exactly for an admin on an open chore of the household, naming nobody or an active member |
| ChoreEffects.ReassignEffect | backend/app/api/chores.py:594-622 | Only this chore's assignee and manual mark change, as named or by turn |
| ChoreEffects.ClosingGate | backend/app/api/chores.py:356-429 | Open exactly for the assignee or an admin of the household on an open chore; 404 and 409 exactly otherwise |
| ChoreEffects.ClosingAccepted | backend/app/api/chores.py:447-555 | Completion and dismissal are accepted exactly then |
| ChoreEffects.CompleteEffect | backend/app/api/chores.py:477-506 | 10, 25 or 50 points by effort to the assignee and one ledger row; nothing else changes |
| ChoreEffects.UpdateDefinitionAccepted | backend/app/api/chores.py:657-702 | Accepted exactly for an admin on an active definition of the household |
| ChoreEffects.UpdateDefinitionEffect | backend/app/api/chores.py:657-702 | The given fields have the given values, everything else is as it was |
| ChoreEffects.DeleteDefinitionAccepted | backend/app/api/chores.py:713-747 | Accepted exactly for an admin on a definition of the household |
| ChoreEffects.DeleteDefinitionEffect | backend/app/api/chores.py:734-745 | The definition is inactive and exactly its pending chores are cancelled; nothing else changes |
| ChoreEffects.JobEffect | backend/app/tasks/scheduler.py:102-220 | Of the chores there were exactly the pending ones past due become overdue; the new ones are assigned and of active recurring definitions; besides the pointers nothing else changes |
| ChoreEffects.OrphansStay | backend/app/api/chores.py:416-429 | A chore whose definition is gone can be neither closed nor reassigned |
| LockedEndpoints.LoneClosingIsTheEndpoint | backend/app/api/chores.py:378-413 | An attempt alone in the lock machine wins exactly when the endpoint accepts, and leaves its row and award |
| LockedEndpoints.LoneAcceptIsTheEndpoint | backend/app/api/invites.py:85-126 | An accept alone in the lock machine wins or is refused exactly as the endpoint answers, and leaves its row |
| LockedEndpoints.FlagOverdueIsTheJob | backend/app/tasks/scheduler.py:209-218 | The flag step of the lock machine is what the job does to a past-due row |
| LockedEndpoints.CancelPendingIsTheDeletion | backend/app/api/chores.py:734-745 | The cancel step is what deleting the series does to a row |
| LockedEndpoints.MoveExpiryIsTheRevocation | backend/app/api/invites.py:195-195 | The expiry step is what revoking does to an invite's row |
| RowLock.MoveKeepsRace | backend/app/api/chores.py:378-413 | Each lock, check, write or commit step keeps winner, status and award in agreement |
| RowLock.ExactlyOneWinner | backend/app/api/chores.py:378-413 | Of any interleaved attempts exactly one allowed one wins, the others are refused, one award exists exactly when due; or the series was deleted first and nobody won |
| InviteLock.InviteIsUsedOnce | backend/app/api/invites.py:85-119 | In any interleaving of attempts to accept one invite, aborts and moves of its expiry, at most one wins; exactly the winner's user has joined by it and was no member before |
| InviteLock.SomebodyWinsExactlyWhen | backend/app/api/invites.py:85-119 | Unless its expiry is moved, once all attempts have finished the invite is used if and only if some attempt was in time and by a non-member |
| Server.Serve | backend/app/db/session.py:36-48 | Every request served in place by its endpoint is the step of the state machine, keeps the invariant, and changes nothing when it is refused |
| Server.ServeAll | backend/app/api/chores.py:79-747 | Serving any run of requests from the empty database ends in the run's state: every household has an admin and every open chore an active assignee |
| Api.DeleteMember | backend/app/api/members.py:87-131 | The in-place guards, deactivation and redistribution are the request, for which Effects.RemovalAccepted and Effects.DepartureEffect say when it is accepted and what it does |
| Api.PostLeave | backend/app/api/members.py:202-231 | Guard, deactivation and in-place redistribution compose to the request |
| Api.PostChore | backend/app/api/chores.py:79-160 | Writing the definition first and rolling back when the assignee is refused equals checking first |
| Api.PatchAssignee | backend/app/api/chores.py:566-646 | Assigning first and rolling back without a definition equals checking first |
| RefreshTokens.AuthServer.LogIn | backend/app/api/auth.py:128-140 | Issues a live token and touches no other |
| RefreshTokens.AuthServer.RefreshToken | backend/app/api/auth.py:156-237 | In place, equal to rotation with reuse detection; accepted if and only if the token is live and unexpired |
| RefreshTokens.AuthServer.RevokeAllOf | backend/app/api/auth.py:292-301 | No live token of the user is left |
| RefreshTokens.EventKeepsLineages | backend/app/api/auth.py:128-237 | Login, refresh, logout, purge and user deletion keep lineages single-user with at most one live token |
| RefreshTokens.OneLiveTokenPerLogin | backend/app/api/auth.py:213-230 | In every run each login's chain has at most one unrevoked token |
| RefreshTokens.RedeemedAtMostOnce | backend/app/api/auth.py:186-230 | A redeemed token is never accepted again, purges in between included |
| RefreshTokens.RotationPreservesLiveCount | backend/app/api/auth.py:213-230 | Rotation swaps one live token for the new one and changes no user's count |
| RefreshTokens.ReplayLocksTheUserOut | backend/app/api/auth.py:191-206 | After a detected replay no token of the user is accepted until a new login |
| RefreshTokens.AuthServer.DeleteExpired | backend/app/tasks/scheduler.py:223-238 | Exactly the rows that expired before now are removed, and every token is from then on answered as it would have been without the purge |
| RefreshTokens.PurgeIsInvisible | backend/app/tasks/scheduler.py:223-238 | Purging is safe: at every later instant every token gets the same answer with and without it |
| RefreshTokens.PurgeForgetsReplays | backend/app/tasks/scheduler.py:236-238 | What the purge forgets: a replay is detected afterwards if and only if the rotated token had not expired |
| RefreshTokens.LiveTokenIsAcceptedExactlyUntilExpiry | backend/app/api/auth.py:186-230 | Over any run that spares it, nightly purges and other users' doings included, a live token is accepted exactly until it expires |
| RefreshTokens.SessionsLastTheirLifetime | backend/app/api/auth.py:128-140 | A login's token is accepted, over any run that spares it, exactly until the configured lifetime after the login is over |
| RefreshTokens.RevocationIsPersonal | backend/app/api/auth.py:292-301 | Revoking one user's tokens leaves no live one and changes no other row |
| ApiClient.StepKeepsSlot | flutter_app/lib/core/api/api_client.dart:66-84 | Only the refresh in the shared slot can be running, and somebody awaits it |
| ApiClient.AtMostOneRefreshInFlight | flutter_app/lib/core/api/api_client.dart:66-84 | For any number of requests and any interleaving at most one refresh is in flight |
| ApiClient.SettledSlotGetsCleared | flutter_app/lib/core/api/api_client.dart:76-84 | A settled refresh never blocks the slot: some waiting request clears it |
| ApiClient.TrafficIsBounded | flutter_app/lib/core/api/api_client.dart:53-98 | m requests cause at most 2m fetches and m refreshes, even if every answer is a 401 |
| ApiClient.DetectionExactlyWhenTainted | backend/app/api/auth.py:191-206 | For a POST handled in time: reuse detection fires if and only if its token is still stored by the server and, since it was issued, a rotation reply was lost, the rotated token could not be saved, the server acted on an abandoned POST, or the tokens were revoked elsewhere |
| ApiClient.LateDetectionExactlyWhen | flutter_app/lib/core/auth/auth_state.dart:87-88 | For a POST the client gave up on, handled while the client holds a token: it fires if and only if its token is still stored and is not the one held, or one of those events has happened |
| LateRefresh.AbandonedPostIsTakenForAReplay | flutter_app/lib/core/auth/auth_state.dart:174-205 | A concrete run: a refresh times out, the next one succeeds and its request is retried and answered; handling the abandoned POST then fires reuse detection and revokes the live token |
| ApiClient.ReuseDetectionStaysSilent | flutter_app/lib/core/auth/auth_state.dart:174-205 | Without a lost reply, a failed save, an abandoned POST the server still acts on, or a revocation elsewhere it never fires, in any interleaving |
| ApiClient.HttpClient.React | flutter_app/lib/core/api/api_client.dart:53-98 | Every callback of the client, run in place in a consistent world, takes the step of the machine and leaves it consistent; only a rejection, a saved rotation or a logout changes the stored token, and only a 401 with an empty slot starts a refresh |
| ApiClient.HttpClient.OnUnauthorized | flutter_app/lib/core/api/api_client.dart:53-75 | The callback joins or starts the shared refresh, as the step machine does |
| ApiClient.HttpClient.OnRefreshSettled | flutter_app/lib/core/api/api_client.dart:76-98 | The resumed callback takes the machine's step, for which RetryLaw says what it leads to |
| RetryLaw.FinishedRequests | flutter_app/lib/core/api/api_client.dart:53-98 | In any interleaving, a finished request was never refused and fetched once; or refused on an auth path; or the refresh it awaited failed and it was fetched once; or that refresh succeeded and it was fetched exactly twice |
| RetryLaw.RefreshedRequestsGoOut | flutter_app/lib/core/api/api_client.dart:84-94 | A request whose refresh has succeeded has been fetched exactly once more |
| RetryLaw.SuccessfulRefreshRetries | flutter_app/lib/core/api/api_client.dart:66-98 | For every waiting request: when the server accepts the posted token and the reply is stored, the request is retried and answered, and the client holds the new live token |
| RetryLaw.RejectedRefreshEndsTheSession | flutter_app/lib/core/auth/auth_state.dart:193-200 | When the server rejects it, the refusal stands and the stored tokens are gone |
| RetryLaw.InterruptedRefreshKeepsTheTokens | flutter_app/lib/core/auth/auth_state.dart:199-204 | When it times out or fails in transit, the refusal stands and the tokens are kept |
| RetryLaw.LostRotationLeavesASpentToken | flutter_app/lib/core/auth/auth_state.dart:186-204 | When a rotation's reply is lost or cannot be stored, the refusal stands, the old token stays stored, and presenting it again is a replay |
| RetryLaw.FirstRefusalRefreshes | flutter_app/lib/core/api/api_client.dart:62-70 | A first 401 off the auth paths joins the running refresh or posts the stored token |
| RetryLaw.NothingIsPostedAfterLogout | flutter_app/lib/core/auth/auth_state.dart:141-159 | After a logout the next refusal's refresh fails without a POST |
| Leaderboard.WindowMeansScope | backend/app/api/leaderboard.py:42-80 | An instant lies in the computed window if and only if its day is in the same Monday-to-Sunday week as today, in the same calendar month, or always, as the scope says |
| Leaderboard.WindowsPartitionTime | backend/app/api/leaderboard.py:42-80 | Every instant lies in its own day's window, and in another day's only if both are the same window |
| Standings.TotalIsOfScope | backend/app/api/leaderboard.py:126-142 | A member's total is the sum of their rows in the household awarded during the scope |
| Standings.CountIsOfScope | backend/app/api/leaderboard.py:147-166 | A member's count is the number of their chores in the household completed during the scope |
| Leaderboard.SortedDescends | backend/app/api/leaderboard.py:171-171 | The sort orders by total, highest first |
| Leaderboard.SortIsStable | backend/app/api/leaderboard.py:171-171 | Equal totals keep the query's order |
| Leaderboard.Rank | backend/app/api/leaderboard.py:174-186 | The loop gives each member rank 1 plus the number of distinct greater totals |
| Standings.MembersAreDistinct | backend/app/api/leaderboard.py:107-117 | The active-member query lists nobody twice |
| Standings.ReachablePointsMatchChores | backend/app/api/leaderboard.py:123-166 | In every reachable state, for every member and window, the points shown are the sum of the points of the chores counted |
| Standings.OwnRank | backend/app/api/leaderboard.py:191-195 | The loop finds the caller's rank whenever the caller has an entry |
| Standings.GetLeaderboard | backend/app/api/leaderboard.py:87-205 | On the tables, for the household's active members: refused for non-members, otherwise densely ranked entries that are a permutation of the members, with exactly the points and chores of the scope's week, month or all time, agreeing with each other, and the caller's own rank |
| Leaderboard.RanksAreDense | backend/app/api/leaderboard.py:174-186 | The ranks in use are exactly 1 to the number of distinct totals |
| Leaderboard.CollectPoints | backend/app/api/leaderboard.py:120-142 | Zero-initialised and overwritten from the grouped query, every member has the sum of their rows in the window |
| Leaderboard.CollectChores | backend/app/api/leaderboard.py:121-166 | Likewise for the number of completed chores |

## Left out

- Authors (`created_by`), titles, categories, descriptions, groceries, template hiding, listings and profile edits: single-row edits and reads.
- RowLock.ExactlyOneWinner: covers completing and dismissing under the row lock of one chore; `reassign_chore` takes no lock and is modelled as an atomic step only.
- RotationLock.InterleavingsAreSerial: at most one member leaves during an interleaving.
- Scheduler.RunJob: that a rollback restores the tables is what the database promises; the model takes it as such.
- InviteLock.InviteIsUsedOnce: the household's other members stay as they were during the race.
- The advisory lock between workers appears as an answer of the database, not as an interleaving.
- Endpoints other than those locks are atomic steps, so races between, say, two admins leaving at once are not modelled.
- ApiClient.ReuseDetectionStaysSilent: starts from a stored token and has no new login of the same client during the run.
- Access tokens, password hashing, token randomness and rate limits: a token stands for its hash, and access control is what the database says about the caller. The password change is the same revocation as logout.
- An invite's id and its token are one key.
- Notifications, logging and response bodies.
- Users' display names: the leaderboard takes its members in the order in which the query returned them.
- The largest year of the date library (9999) and the width of the pointer column.
- Leaderboard.Rank: stable insertion sort stands for the language's stable sort.
