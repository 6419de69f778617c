/** `get_leaderboard`: windows, totals, sorting and dense ranking. */
module Leaderboard {
  import opened Types
  import opened Calendar
  import opened Filtering
  import opened Schema

  // ---------------------------------------------------------------------------
  // Windows
  // ---------------------------------------------------------------------------

  datatype Scope = AllTime | ThisWeek | ThisMonth

  const SECONDS_PER_DAY := 86400

  function Midnight(day: int): Time {
    day * SECONDS_PER_DAY
  }

  /** Monday is 0, and day 1 was a Monday. */
  function Weekday(day: int): int {
    (day + 6) % 7
  }

  datatype Window = Unbounded | Between(start: Time, end: Time)

  /** First day (inclusive) and last day (exclusive) of the week or month of `today`. */
  function Days(scope: Scope, today: Day): (int, int)
    requires !scope.AllTime?
  {
    match scope
    case ThisWeek =>
      var start := today - Weekday(today);
      (start, start + 7)
    case ThisMonth =>
      var d := FromOrdinal(today);
      (Ordinal(Date(d.year, d.month, 1)), Ordinal(Date(d.year, d.month, DaysInMonth(d.year, d.month))) + 1)
  }

  function ComputeWindow(scope: Scope, today: Day): Window {
    if scope.AllTime? then Unbounded
    else Between(Midnight(Days(scope, today).0), Midnight(Days(scope, today).1))
  }

  predicate InWindow(t: Time, w: Window) {
    w.Unbounded? || w.start <= t < w.end
  }

  lemma WeekOfDay(today: Day, other: Day)
    requires Days(ThisWeek, today).0 <= other < Days(ThisWeek, today).1
    ensures Days(ThisWeek, other) == Days(ThisWeek, today)
  {
  }

  lemma MonthOfDay(today: Day, other: Day)
    requires Days(ThisMonth, today).0 <= other < Days(ThisMonth, today).1
    ensures Days(ThisMonth, other) == Days(ThisMonth, today)
  {
    hide FromOrdinal, DaysBeforeYear, DaysBeforeMonth, DaysInMonth;
    var d := FromOrdinal(today);
    var there := Date(d.year, d.month, other - Days(ThisMonth, today).0 + 1);
    assert Ordinal(there) == other;
    FromOrdinalInverts(there, other);
  }

  lemma OwnDayIsInside(scope: Scope, today: Day)
    requires !scope.AllTime?
    ensures Days(scope, today).0 <= today < Days(scope, today).1
  {
    hide FromOrdinal, DaysBeforeYear, DaysBeforeMonth, DaysInMonth;
    if scope.ThisMonth? {
      var d := FromOrdinal(today);
      assert Ordinal(d) == Ordinal(Date(d.year, d.month, 1)) + d.day - 1;
    }
  }

  /**
   The windows of a scope partition time: every instant of a day lies in that
   day's window, and lies in another day's window only if the two are the same.
   */
  lemma WindowsPartitionTime(scope: Scope, today: Day, other: Day, t: Time)
    requires Midnight(other) <= t < Midnight(other + 1)
    ensures InWindow(t, ComputeWindow(scope, other))
    ensures InWindow(t, ComputeWindow(scope, today)) <==> ComputeWindow(scope, today) == ComputeWindow(scope, other)
  {
    hide Days;
    if !scope.AllTime? {
      OwnDayIsInside(scope, other);
      var (a, b) := Days(scope, today);
      if a <= other < b {
        if scope.ThisWeek? {
          WeekOfDay(today, other);
        } else {
          MonthOfDay(today, other);
        }
      }
    }
  }

  /**
   What the scopes mean, in days of the calendar: everything; the Monday-to-Sunday
   week of today (day 1 was a Monday); the calendar month of today.
   */
  predicate During(t: Time, scope: Scope, today: Day) {
    var day := t / 86400;
    match scope
    case AllTime => true
    case ThisWeek => (day - 1) / 7 == (today - 1) / 7
    case ThisMonth =>
      && 1 <= day
      && FromOrdinal(day).year == FromOrdinal(today).year && FromOrdinal(day).month == FromOrdinal(today).month
  }

  lemma DayOfInstant(t: Time, a: int, b: int)
    ensures Midnight(a) <= t < Midnight(b) <==> a <= t / 86400 < b
  {
  }

  lemma WeekLaw(today: Day, day: int)
    ensures Days(ThisWeek, today).0 <= day < Days(ThisWeek, today).1 <==> (day - 1) / 7 == (today - 1) / 7
  {
  }

  lemma MonthLaw(today: Day, day: Day)
    ensures Days(ThisMonth, today).0 <= day < Days(ThisMonth, today).1 <==>
            FromOrdinal(day).year == FromOrdinal(today).year && FromOrdinal(day).month == FromOrdinal(today).month
  {
    hide FromOrdinal, Ordinal, DaysInMonth;
    var d, o := FromOrdinal(today), FromOrdinal(day);
    var first, last := Date(d.year, d.month, 1), Date(d.year, d.month, DaysInMonth(d.year, d.month));
    OrdinalOrdersDates(o, first);
    OrdinalOrdersDates(last, o);
    MonthOfIndex(d.year, d.month);
    MonthOfIndex(o.year, o.month);
  }

  lemma MonthsStartOnDays(today: Day)
    ensures 1 <= Days(ThisMonth, today).0
  {
    hide FromOrdinal, Ordinal, DaysInMonth;
    var d := FromOrdinal(today);
    DateOrdinalRoundTrip(Date(d.year, d.month, 1));
  }

  /** The computed window holds exactly the instants that the scope means. */
  lemma WindowMeansScope(scope: Scope, today: Day, t: Time)
    ensures InWindow(t, ComputeWindow(scope, today)) <==> During(t, scope, today)
  {
    hide Midnight, Days, FromOrdinal;
    var day := t / 86400;
    if scope.ThisWeek? {
      DayOfInstant(t, Days(scope, today).0, Days(scope, today).1);
      WeekLaw(today, day);
    } else if scope.ThisMonth? {
      DayOfInstant(t, Days(scope, today).0, Days(scope, today).1);
      MonthsStartOnDays(today);
      if 1 <= day {
        MonthLaw(today, day);
      }
    }
  }

  // ---------------------------------------------------------------------------
  // Totals
  // ---------------------------------------------------------------------------

  datatype Person = Person(id: Id, name: string)

  predicate Counts(row: LedgerRow, h: Id, w: Window) {
    row.household == h && InWindow(row.awardedAt, w)
  }

  /** SUM(points) of one user's ledger rows in the window. */
  function Total(ledger: seq<LedgerRow>, h: Id, w: Window, u: Id): int {
    if ledger == [] then 0
    else
      var row := ledger[|ledger| - 1];
      Total(ledger[..|ledger| - 1], h, w, u) + if Counts(row, h, w) && row.user == u then row.points else 0
  }

  /** The users the grouped query has a row for. */
  function Scorers(ledger: seq<LedgerRow>, h: Id, w: Window): set<Id> {
    set i | 0 <= i < |ledger| && Counts(ledger[i], h, w) :: ledger[i].user
  }

  lemma {:induction false} NonScorersHaveZero(ledger: seq<LedgerRow>, h: Id, w: Window, u: Id)
    requires u !in Scorers(ledger, h, w)
    ensures Total(ledger, h, w, u) == 0
  {
    if ledger != [] {
      var n := |ledger| - 1;
      assert !(Counts(ledger[n], h, w) && ledger[n].user == u);
      forall i | 0 <= i < n && Counts(ledger[..n][i], h, w) ensures ledger[..n][i].user != u {
        assert ledger[i].user in Scorers(ledger, h, w);
      }
      NonScorersHaveZero(ledger[..n], h, w, u);
    }
  }

  function Completed(instances: Instances, h: Id, w: Window, u: Id): set<Id> {
    set id | id in instances && instances[id].household == h && instances[id].status == Complete
             && instances[id].completedAt.Some? && InWindow(instances[id].completedAt.value, w)
             && instances[id].assignee == Some(u)
  }

  function ChoreCount(instances: Instances, h: Id, w: Window, u: Id): nat {
    |Completed(instances, h, w, u)|
  }

  ghost predicate DistinctPeople(ms: seq<Person>) {
    forall i, j :: 0 <= i < j < |ms| ==> ms[i].id != ms[j].id
  }

  function IdsOf(ms: seq<Person>): set<Id> {
    set i | 0 <= i < |ms| :: ms[i].id
  }

  // ---------------------------------------------------------------------------
  // Sorting by points, highest first, ties in the given order
  // ---------------------------------------------------------------------------

  type Points = map<Id, int>

  ghost predicate Scored(ms: seq<Person>, points: Points) {
    forall i :: 0 <= i < |ms| ==> ms[i].id in points
  }

  function Insert(p: Person, ms: seq<Person>, points: Points): (r: seq<Person>)
    requires p.id in points && forall i :: 0 <= i < |ms| ==> ms[i].id in points
    ensures |r| == |ms| + 1 && multiset(r) == multiset(ms) + multiset{p}
    ensures forall i :: 0 <= i < |r| ==> r[i].id in points
  {
    if ms == [] then [p]
    else if points[p.id] <= points[ms[|ms| - 1].id] then ms + [p]
    else
      assert ms == ms[..|ms| - 1] + [ms[|ms| - 1]];
      Insert(p, ms[..|ms| - 1], points) + [ms[|ms| - 1]]
  }

  function Sorted(ms: seq<Person>, points: Points): (r: seq<Person>)
    requires forall i :: 0 <= i < |ms| ==> ms[i].id in points
    ensures |r| == |ms| && multiset(r) == multiset(ms)
    ensures forall i :: 0 <= i < |r| ==> r[i].id in points
  {
    if ms == [] then []
    else
      assert ms == ms[..|ms| - 1] + [ms[|ms| - 1]];
      Insert(ms[|ms| - 1], Sorted(ms[..|ms| - 1], points), points)
  }

  ghost predicate Descending(ms: seq<Person>, points: Points)
    requires Scored(ms, points)
  {
    forall i, j :: 0 <= i < j < |ms| ==> points[ms[i].id] >= points[ms[j].id]
  }

  lemma {:induction false} InsertDescends(p: Person, ms: seq<Person>, points: Points)
    requires p.id in points && Scored(ms, points) && Descending(ms, points)
    ensures Descending(Insert(p, ms, points), points)
  {
    if ms != [] && points[p.id] > points[ms[|ms| - 1].id] {
      var front, last := ms[..|ms| - 1], ms[|ms| - 1];
      InsertDescends(p, front, points);
      var r := Insert(p, front, points);
      forall i | 0 <= i < |r| ensures points[r[i].id] >= points[last.id] {
        assert r[i] in multiset(front) + multiset{p};
      }
    }
  }

  lemma {:induction false} SortedDescends(ms: seq<Person>, points: Points)
    requires Scored(ms, points)
    ensures Descending(Sorted(ms, points), points)
  {
    if ms != [] {
      SortedDescends(ms[..|ms| - 1], points);
      InsertDescends(ms[|ms| - 1], Sorted(ms[..|ms| - 1], points), points);
    }
  }

  function HasTotal(points: Points, t: int): Person -> bool {
    (p: Person) => p.id in points && points[p.id] == t
  }

  /** Rows of which at most one is kept may change places. */
  lemma FilterSwap(front: seq<Person>, last: Person, p: Person, inserted: seq<Person>, keep: Person -> bool)
    requires Filter(inserted, keep) == Filter(front + [p], keep) && !(keep(last) && keep(p))
    ensures Filter(inserted + [last], keep) == Filter(front + [last] + [p], keep)
  {
    FilterAppend(inserted, last, keep);
    FilterAppend(front, p, keep);
    FilterAppend(front, last, keep);
    FilterAppend(front + [last], p, keep);
    hide Filter;
  }

  lemma {:induction false} InsertIsStable(p: Person, ms: seq<Person>, points: Points, t: int)
    requires p.id in points && Scored(ms, points)
    ensures Filter(Insert(p, ms, points), HasTotal(points, t)) == Filter(ms + [p], HasTotal(points, t))
  {
    var keep := HasTotal(points, t);
    if ms != [] && points[p.id] > points[ms[|ms| - 1].id] {
      var front, last := ms[..|ms| - 1], ms[|ms| - 1];
      var inserted := Insert(p, front, points);
      assert Insert(p, ms, points) == inserted + [last];
      InsertIsStable(p, front, points, t);
      FilterSwap(front, last, p, inserted, keep);
    }
  }

  /** Members with equal totals keep the order the query returned them in. */
  lemma {:induction false} SortIsStable(ms: seq<Person>, points: Points, t: int)
    requires Scored(ms, points)
    ensures Filter(Sorted(ms, points), HasTotal(points, t)) == Filter(ms, HasTotal(points, t))
  {
    if ms != [] {
      var front, last := ms[..|ms| - 1], ms[|ms| - 1];
      SortIsStable(front, points, t);
      InsertIsStable(last, Sorted(front, points), points, t);
      FilterAppend(Sorted(front, points), last, HasTotal(points, t));
    }
  }

  // ---------------------------------------------------------------------------
  // Dense ranking
  // ---------------------------------------------------------------------------

  datatype Entry = Entry(rank: nat, person: Person, points: int, chores: nat)

  /** The distinct totals strictly greater than `t`. */
  function Above(ms: seq<Person>, points: Points, t: int): set<int>
    requires forall i :: 0 <= i < |ms| ==> ms[i].id in points
  {
    set i | 0 <= i < |ms| && points[ms[i].id] > t :: points[ms[i].id]
  }

  function DistinctTotals(ms: seq<Person>, points: Points): set<int>
    requires forall i :: 0 <= i < |ms| ==> ms[i].id in points
  {
    set i | 0 <= i < |ms| :: points[ms[i].id]
  }

  lemma AboveStep(ms: seq<Person>, points: Points, i: nat)
    requires Scored(ms, points) && Descending(ms, points) && 0 < i < |ms|
    ensures var before, now := points[ms[i - 1].id], points[ms[i].id];
            && now <= before
            && Above(ms, points, now) == Above(ms, points, before) + (if now < before then {before} else {})
            && before !in Above(ms, points, before)
  {
    var before, now := points[ms[i - 1].id], points[ms[i].id];
    forall t | t in Above(ms, points, now)
      ensures t in Above(ms, points, before) + (if now < before then {before} else {})
    {
      var j :| 0 <= j < |ms| && points[ms[j].id] == t && t > now;
      assert j < i;
    }
  }

  lemma NobodyAboveFirst(ms: seq<Person>, points: Points)
    requires Scored(ms, points) && Descending(ms, points) && ms != []
    ensures Above(ms, points, points[ms[0].id]) == {}
  {
    assert forall j :: 0 <= j < |ms| ==> points[ms[0].id] >= points[ms[j].id];
  }

  lemma SameTotals(a: seq<Person>, b: seq<Person>, points: Points, t: int)
    requires Scored(a, points) && Scored(b, points) && multiset(a) == multiset(b)
    ensures Above(a, points, t) == Above(b, points, t)
  {
    AboveIncluded(a, b, points, t);
    AboveIncluded(b, a, points, t);
  }

  lemma AboveIncluded(a: seq<Person>, b: seq<Person>, points: Points, t: int)
    requires Scored(a, points) && Scored(b, points) && multiset(a) == multiset(b)
    ensures Above(a, points, t) <= Above(b, points, t)
  {
    forall x | x in Above(a, points, t) ensures x in Above(b, points, t) {
      var i :| 0 <= i < |a| && points[a[i].id] == x && x > t;
      assert a[i] in multiset(b);
      var j :| 0 <= j < |b| && b[j] == a[i];
    }
  }

  /** What the entries promise: sorted members with their totals, each ranked one above the number of better totals. */
  ghost predicate RankedDensely(entries: seq<Entry>, ms: seq<Person>, points: Points)
    requires Scored(ms, points)
  {
    && |entries| == |ms|
    && (forall i :: 0 <= i < |entries| ==>
         && entries[i].person.id in points && entries[i].points == points[entries[i].person.id]
         && entries[i].rank == 1 + |Above(ms, points, entries[i].points)|)
  }

  /** One entry against the sorted members. */
  ghost predicate EntryOk(e: Entry, p: Person, order: seq<Person>, points: Points, chores: map<Id, nat>)
    requires Scored(order, points)
  {
    && e.person == p && p.id in points && e.points == points[p.id]
    && e.rank == 1 + |Above(order, points, e.points)|
    && p.id in chores && e.chores == chores[p.id]
  }

  /** The dense-rank loop. */
  method Rank(ms: seq<Person>, points: Points, chores: map<Id, nat>) returns (entries: seq<Entry>)
    requires Scored(ms, points) && forall i :: 0 <= i < |ms| ==> ms[i].id in chores
    ensures RankedDensely(entries, ms, points) && ListedIn(entries, Sorted(ms, points))
    ensures forall i :: 0 <= i < |entries| ==>
      entries[i].person.id in chores && entries[i].chores == chores[entries[i].person.id]
  {
    hide Sorted, Above, Descending, EntryOk;
    var order := Sorted(ms, points);
    SortedDescends(ms, points);
    entries := [];
    var currentRank := 1;
    var i := 0;
    while i < |order|
      invariant 0 <= i <= |order| && |entries| == i
      invariant i == 0 ==> currentRank == 1
      invariant i > 0 ==> currentRank == 1 + |Above(order, points, points[order[i - 1].id])|
      invariant forall k :: 0 <= k < i ==> EntryOk(entries[k], order[k], order, points, chores)
    {
      if i == 0 {
        NobodyAboveFirst(order, points);
      } else {
        AboveStep(order, points, i);
        if points[order[i].id] < points[order[i - 1].id] {
          currentRank := currentRank + 1;
        }
      }
      MemberOf(ms, order, i);
      var e := Entry(currentRank, order[i], points[order[i].id], chores[order[i].id]);
      EntryFits(e, order[i], order, points, chores);
      entries := entries + [e];
      i := i + 1;
    }
    AllEntriesFit(entries, ms, order, points, chores);
  }

  lemma EntryFits(e: Entry, p: Person, order: seq<Person>, points: Points, chores: map<Id, nat>)
    requires Scored(order, points) && p.id in points && p.id in chores
    requires e == Entry(1 + |Above(order, points, points[p.id])|, p, points[p.id], chores[p.id])
    ensures EntryOk(e, p, order, points, chores)
  {
  }

  lemma AllEntriesFit(entries: seq<Entry>, ms: seq<Person>, order: seq<Person>, points: Points, chores: map<Id, nat>)
    requires Scored(ms, points) && Scored(order, points) && multiset(ms) == multiset(order)
    requires |entries| == |order| == |ms|
    requires forall k :: 0 <= k < |entries| ==> EntryOk(entries[k], order[k], order, points, chores)
    ensures RankedDensely(entries, ms, points) && ListedIn(entries, order)
    ensures forall i :: 0 <= i < |entries| ==>
      entries[i].person.id in chores && entries[i].chores == chores[entries[i].person.id]
  {
    hide Above;
    forall k | 0 <= k < |entries| ensures entries[k].rank == 1 + |Above(ms, points, entries[k].points)| {
      SameTotals(ms, order, points, entries[k].points);
    }
  }

  lemma MemberOf(a: seq<Person>, b: seq<Person>, i: nat)
    requires multiset(a) == multiset(b) && i < |b|
    ensures exists j :: 0 <= j < |a| && a[j] == b[i]
  {
    assert b[i] in multiset(a);
  }

  /** The entries list the people of `order` in that order. */
  ghost predicate ListedIn(entries: seq<Entry>, order: seq<Person>) {
    |entries| == |order| && forall i :: 0 <= i < |entries| ==> entries[i].person == order[i]
  }

  ghost predicate RankUsed(entries: seq<Entry>, r: nat) {
    exists i :: 0 <= i < |entries| && entries[i].rank == r
  }

  /** The ranks in use are exactly 1 to the number of distinct totals. */
  lemma RanksAreDense(entries: seq<Entry>, ms: seq<Person>, points: Points)
    requires Scored(ms, points) && RankedDensely(entries, ms, points) && ListedIn(entries, Sorted(ms, points))
    ensures forall r: nat :: RankUsed(entries, r) <==> 1 <= r <= |DistinctTotals(ms, points)|
  {
    hide Sorted, Above, DistinctTotals, RankUsed, Descending;
    var order := Sorted(ms, points);
    SortedDescends(ms, points);
    var n := |entries|;
    if n > 0 {
      forall i | 0 <= i < n ensures entries[i].rank == 1 + |Above(order, points, points[order[i].id])| {
        SameTotals(ms, order, points, points[order[i].id]);
      }
      NobodyAboveFirst(order, points);
      forall i | 0 < i < n ensures entries[i - 1].rank <= entries[i].rank <= entries[i - 1].rank + 1 {
        AboveStep(order, points, i);
      }
      LastSeesAllButOne(ms, order, points);
      RisesByOnes(entries);
    } else {
      NobodyRanked(entries, ms, points);
    }
  }

  lemma NobodyRanked(entries: seq<Entry>, ms: seq<Person>, points: Points)
    requires Scored(ms, points) && entries == [] && ms == []
    ensures DistinctTotals(ms, points) == {} && forall r: nat :: !RankUsed(entries, r)
  {
  }

  lemma LastSeesAllButOne(ms: seq<Person>, order: seq<Person>, points: Points)
    requires Scored(ms, points) && Scored(order, points) && multiset(ms) == multiset(order)
    requires order != [] && Descending(order, points)
    ensures |DistinctTotals(ms, points)| == 1 + |Above(order, points, points[order[|order| - 1].id])|
  {
    var least := points[order[|order| - 1].id];
    forall t | t in DistinctTotals(ms, points) ensures t in Above(order, points, least) + {least} {
      var i :| 0 <= i < |ms| && points[ms[i].id] == t;
      MemberOf(order, ms, i);
    }
    forall t | t in Above(order, points, least) + {least} ensures t in DistinctTotals(ms, points) {
      var i :| 0 <= i < |order| && points[order[i].id] == t;
      MemberOf(ms, order, i);
    }
    assert DistinctTotals(ms, points) == Above(order, points, least) + {least};
  }

  lemma {:induction false} RisesByOnes(entries: seq<Entry>)
    requires entries != [] && entries[0].rank == 1
    requires forall i :: 0 < i < |entries| ==> entries[i - 1].rank <= entries[i].rank <= entries[i - 1].rank + 1
    ensures forall r: nat :: RankUsed(entries, r) <==> 1 <= r <= entries[|entries| - 1].rank
  {
    var n := |entries| - 1;
    if n > 0 {
      var front, last := entries[..n], entries[n];
      RisesByOnes(front);
      assert front[n - 1].rank <= last.rank <= front[n - 1].rank + 1;
      assert RankUsed(front, front[n - 1].rank);
      forall r: nat ensures RankUsed(entries, r) <==> RankUsed(front, r) || last.rank == r {
        if RankUsed(front, r) {
          var i :| 0 <= i < |front| && front[i].rank == r;
          assert entries[i].rank == r;
        }
        assert entries[n].rank == last.rank;
        if RankUsed(entries, r) && last.rank != r {
          var i :| 0 <= i < |entries| && entries[i].rank == r;
          assert front[i].rank == r;
        }
      }
    } else {
      forall r: nat ensures RankUsed(entries, r) <==> entries[0].rank == r {
      }
    }
  }

  // ---------------------------------------------------------------------------
  // The whole endpoint
  // ---------------------------------------------------------------------------

  function PointsTable(members: seq<Person>, ledger: seq<LedgerRow>, h: Id, w: Window): (points: Points)
    ensures Scored(members, points)
  {
    map u | u in IdsOf(members) :: Total(ledger, h, w, u)
  }

  /** Start every member at zero, then copy the totals of those the grouped query returned. */
  method CollectPoints(members: seq<Person>, ledger: seq<LedgerRow>, h: Id, w: Window) returns (userPoints: Points)
    ensures userPoints == PointsTable(members, ledger, h, w)
  {
    userPoints := map u | u in IdsOf(members) :: 0;
    var scorers := Scorers(ledger, h, w);
    hide Scorers, Total, IdsOf;
    while scorers != {}
      invariant userPoints.Keys == IdsOf(members) && scorers <= Scorers(ledger, h, w)
      invariant forall u :: u in userPoints ==>
        userPoints[u] == if u in scorers || u !in Scorers(ledger, h, w) then 0 else Total(ledger, h, w, u)
      decreases |scorers|
    {
      var u :| u in scorers;
      if u in userPoints {
        userPoints := userPoints[u := Total(ledger, h, w, u)];
      }
      scorers := scorers - {u};
    }
    forall u | u in userPoints ensures userPoints[u] == Total(ledger, h, w, u) {
      if u !in Scorers(ledger, h, w) {
        NonScorersHaveZero(ledger, h, w, u);
      }
    }
  }

  function ChoresTable(members: seq<Person>, instances: Instances, h: Id, w: Window): map<Id, nat> {
    map u | u in IdsOf(members) :: ChoreCount(instances, h, w, u)
  }

  function Assignees(instances: Instances): set<Id> {
    set id | id in instances && instances[id].assignee.Some? :: instances[id].assignee.value
  }

  method CollectChores(members: seq<Person>, instances: Instances, h: Id, w: Window) returns (userChores: map<Id, nat>)
    ensures userChores == ChoresTable(members, instances, h, w)
  {
    userChores := map u | u in IdsOf(members) :: 0;
    var assignees := Assignees(instances);
    hide Assignees, ChoreCount, IdsOf;
    while assignees != {}
      invariant userChores.Keys == IdsOf(members) && assignees <= Assignees(instances)
      invariant forall u :: u in userChores ==>
        userChores[u] == if u in assignees || u !in Assignees(instances) then 0 else ChoreCount(instances, h, w, u)
      decreases |assignees|
    {
      var u :| u in assignees;
      if u in userChores {
        userChores := userChores[u := ChoreCount(instances, h, w, u)];
      }
      assignees := assignees - {u};
    }
    forall u | u in userChores ensures userChores[u] == ChoreCount(instances, h, w, u) {
      if u !in Assignees(instances) {
        NobodysChores(instances, h, w, u);
      }
    }
  }

  lemma NobodysChores(instances: Instances, h: Id, w: Window, u: Id)
    requires u !in Assignees(instances)
    ensures ChoreCount(instances, h, w, u) == 0
  {
    forall id | id in instances && instances[id].assignee.Some? ensures instances[id].assignee.value != u {
      assert instances[id].assignee.value in Assignees(instances);
    }
  }

  /** The ranking of a list of people from the rows of a household. */
  method RankPeople(members: seq<Person>, ledger: seq<LedgerRow>, instances: Instances, h: Id, scope: Scope, today: Day)
    returns (entries: seq<Entry>)
    ensures var w := ComputeWindow(scope, today);
            var points := PointsTable(members, ledger, h, w);
            && RankedDensely(entries, members, points)
            && ListedIn(entries, Sorted(members, points))
            && forall i :: 0 <= i < |entries| ==> entries[i].chores == ChoreCount(instances, h, w, entries[i].person.id)
  {
    var w := ComputeWindow(scope, today);
    var userPoints := CollectPoints(members, ledger, h, w);
    var userChores := CollectChores(members, instances, h, w);
    hide PointsTable, Completed, Sorted, Above;
    entries := Rank(members, userPoints, userChores);
  }

  function SumOfEntries(entries: seq<Entry>): int {
    if entries == [] then 0 else SumOfEntries(entries[..|entries| - 1]) + entries[|entries| - 1].points
  }

  function SumOfTotals(ms: seq<Person>, points: Points): int
    requires forall i :: 0 <= i < |ms| ==> ms[i].id in points
  {
    if ms == [] then 0 else SumOfTotals(ms[..|ms| - 1], points) + points[ms[|ms| - 1].id]
  }

  /** The points of all ledger rows of the members in the window. */
  function RowsTotal(ledger: seq<LedgerRow>, h: Id, w: Window, ids: set<Id>): int {
    if ledger == [] then 0
    else
      var row := ledger[|ledger| - 1];
      RowsTotal(ledger[..|ledger| - 1], h, w, ids) + if Counts(row, h, w) && row.user in ids then row.points else 0
  }

  lemma {:induction false} SumAfterInsert(p: Person, ms: seq<Person>, points: Points)
    requires p.id in points && Scored(ms, points)
    ensures SumOfTotals(Insert(p, ms, points), points) == SumOfTotals(ms, points) + points[p.id]
  {
    if ms != [] {
      var front, last := ms[..|ms| - 1], ms[|ms| - 1];
      if points[p.id] <= points[last.id] {
        assert (ms + [p])[..|ms|] == ms;
      } else {
        SumAfterInsert(p, front, points);
        var r := Insert(p, front, points);
        assert (r + [last])[..|r|] == r;
      }
    }
  }

  lemma {:induction false} SumAfterSort(ms: seq<Person>, points: Points)
    requires Scored(ms, points)
    ensures SumOfTotals(Sorted(ms, points), points) == SumOfTotals(ms, points)
  {
    if ms != [] {
      SumAfterSort(ms[..|ms| - 1], points);
      SumAfterInsert(ms[|ms| - 1], Sorted(ms[..|ms| - 1], points), points);
    }
  }

  lemma {:induction false} EntriesSumTotals(entries: seq<Entry>, order: seq<Person>, points: Points)
    requires |entries| == |order| && Scored(order, points)
    requires forall i :: 0 <= i < |entries| ==> entries[i].points == points[order[i].id]
    ensures SumOfEntries(entries) == SumOfTotals(order, points)
  {
    if entries != [] {
      EntriesSumTotals(entries[..|entries| - 1], order[..|order| - 1], points);
    }
  }

  /** Adding one ledger row raises the members' totals by its points if it is theirs, once. */
  lemma {:induction false} OneRowCountsOnce(ms: seq<Person>, before: Points, after: Points, u: Id, points: int)
    requires DistinctPeople(ms) && Scored(ms, before) && Scored(ms, after)
    requires forall i :: 0 <= i < |ms| ==> after[ms[i].id] == before[ms[i].id] + if ms[i].id == u then points else 0
    ensures SumOfTotals(ms, after) == SumOfTotals(ms, before) + if u in IdsOf(ms) then points else 0
  {
    if ms != [] {
      var front, last := ms[..|ms| - 1], ms[|ms| - 1];
      OneRowCountsOnce(front, before, after, u, points);
      assert IdsOf(ms) == IdsOf(front) + {last.id} by {
        assert forall i :: 0 <= i < |front| ==> front[i] == ms[i];
        assert ms[|ms| - 1].id in IdsOf(ms);
      }
      assert last.id !in IdsOf(front);
    }
  }

  lemma {:induction false} TotalsSumRows(members: seq<Person>, ledger: seq<LedgerRow>, h: Id, w: Window)
    requires DistinctPeople(members)
    ensures SumOfTotals(members, PointsTable(members, ledger, h, w)) == RowsTotal(ledger, h, w, IdsOf(members))
  {
    var points := PointsTable(members, ledger, h, w);
    if ledger == [] {
      AllZero(members, points);
    } else {
      var front, row := ledger[..|ledger| - 1], ledger[|ledger| - 1];
      TotalsSumRows(members, front, h, w);
      OneRowCountsOnce(members, PointsTable(members, front, h, w), points, row.user,
        if Counts(row, h, w) then row.points else 0);
    }
  }

  lemma {:induction false} AllZero(ms: seq<Person>, points: Points)
    requires Scored(ms, points) && forall i :: 0 <= i < |ms| ==> points[ms[i].id] == 0
    ensures SumOfTotals(ms, points) == 0
  {
    if ms != [] {
      AllZero(ms[..|ms| - 1], points);
    }
  }

  /**
   Conservation: the entries' points add up to the members' ledger rows in the window,
   and every member appears once.
   */
  lemma LeaderboardAddsUp(members: seq<Person>, ledger: seq<LedgerRow>, h: Id, w: Window, entries: seq<Entry>)
    requires DistinctPeople(members)
    requires RankedDensely(entries, members, PointsTable(members, ledger, h, w))
    requires ListedIn(entries, Sorted(members, PointsTable(members, ledger, h, w)))
    ensures SumOfEntries(entries) == RowsTotal(ledger, h, w, IdsOf(members))
    ensures multiset(PeopleOf(entries)) == multiset(members)
  {
    hide PointsTable, Sorted, Above;
    var points := PointsTable(members, ledger, h, w);
    var order := Sorted(members, points);
    EntriesSumTotals(entries, order, points);
    SumAfterSort(members, points);
    TotalsSumRows(members, ledger, h, w);
    assert PeopleOf(entries) == order;
  }

  function PeopleOf(entries: seq<Entry>): (ps: seq<Person>)
    ensures |ps| == |entries| && forall i :: 0 <= i < |ps| ==> ps[i] == entries[i].person
  {
    seq(|entries|, i requires 0 <= i < |entries| => entries[i].person)
  }
}
