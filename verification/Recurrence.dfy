/**
 Recurrence expansion (`_compute_due_dates`): a rule is stepped from the first
 due date, and the dates between a backfill floor and a horizon are kept.
 */
module Recurrence {
  import opened Types
  import opened Arithmetic
  import opened Calendar

  datatype Unit = Days | Weeks | Months | OtherUnit

  /** `RecurrenceRule.interval_n` is validated to be at least one. */
  type Interval = n: int | 1 <= n witness 1

  datatype Rule = Rule(unit: Unit, interval: Interval)

  predicate Supported(rule: Rule) {
    rule.unit != OtherUnit
  }

  /** `current + delta`. */
  function Next(rule: Rule, day: Day): (r: Day)
    requires Supported(rule)
    ensures day < r
  {
    match rule.unit
    case Days => day + rule.interval
    case Weeks => day + 7 * rule.interval
    case Months => PlusMonths(day, rule.interval)
  }

  /** The k-th date of the series that starts at `first`. */
  function Nth(rule: Rule, first: Day, k: nat): (r: Day)
    requires Supported(rule)
    ensures first + k <= r
  {
    if k == 0 then first else Next(rule, Nth(rule, first, k - 1))
  }

  ghost predicate InSeries(rule: Rule, first: Day, x: int) {
    Supported(rule) && exists k: nat :: Nth(rule, first, k) == x
  }

  predicate AtLeast(x: int, floor: Option<int>) {
    floor.None? || floor.value <= x
  }

  /** The dates the loop collects when it is entered with `current`. */
  function DatesFrom(rule: Rule, current: Day, horizon: int, floor: Option<int>): seq<Day>
    requires Supported(rule)
    decreases horizon - current
  {
    if current > horizon then []
    else (if AtLeast(current, floor) then [current] else []) + DatesFrom(rule, Next(rule, current), horizon, floor)
  }

  function DueDates(first: Day, rule: Rule, horizon: int, floor: Option<int>): seq<Day> {
    if Supported(rule) then DatesFrom(rule, first, horizon, floor) else []
  }

  method ComputeDueDates(first: Day, rule: Rule, horizon: int, floor: Option<int>) returns (dueDates: seq<Day>)
    ensures dueDates == DueDates(first, rule, horizon, floor)
  {
    hide Next, DatesFrom, AtLeast;
    dueDates := [];
    if !Supported(rule) {
      return;
    }
    var current := first;
    while current <= horizon
      invariant dueDates + DatesFrom(rule, current, horizon, floor) == DatesFrom(rule, first, horizon, floor)
      decreases horizon - current
    {
      ghost var before, now := dueDates, current;
      if AtLeast(current, floor) {
        dueDates := dueDates + [current];
      }
      current := Next(rule, current);
      LoopStep(before, dueDates, rule, now, horizon, floor);
    }
    NothingBeyondHorizon(rule, current, horizon, floor);
  }

  lemma NothingBeyondHorizon(rule: Rule, current: Day, horizon: int, floor: Option<int>)
    requires Supported(rule) && horizon < current
    ensures DatesFrom(rule, current, horizon, floor) == []
  {
  }

  lemma LoopStep(before: seq<Day>, after: seq<Day>, rule: Rule, current: Day, horizon: int, floor: Option<int>)
    requires Supported(rule) && current <= horizon
    requires after == before + if AtLeast(current, floor) then [current] else []
    ensures before + DatesFrom(rule, current, horizon, floor)
         == after + DatesFrom(rule, Next(rule, current), horizon, floor)
  {
    hide Next;
    var rest := DatesFrom(rule, Next(rule, current), horizon, floor);
    assert before + ((if AtLeast(current, floor) then [current] else []) + rest) == after + rest;
  }

  // ---------------------------------------------------------------------------
  // Soundness and completeness of the expansion
  // ---------------------------------------------------------------------------

  ghost predicate StrictlyIncreasing(s: seq<int>) {
    forall i, j :: 0 <= i < j < |s| ==> s[i] < s[j]
  }

  lemma NextIsSecond(rule: Rule, first: Day, k: nat)
    requires Supported(rule)
    ensures Nth(rule, Next(rule, first), k) == Nth(rule, first, k + 1)
  {
    if k > 0 {
      NextIsSecond(rule, first, k - 1);
    }
  }

  lemma SeriesUnfolds(rule: Rule, first: Day, x: int)
    requires Supported(rule)
    ensures InSeries(rule, first, x) <==> x == first || InSeries(rule, Next(rule, first), x)
  {
    hide Next;
    if x == first {
      assert Nth(rule, first, 0) == x;
    }
    if InSeries(rule, Next(rule, first), x) {
      var k: nat :| Nth(rule, Next(rule, first), k) == x;
      NextIsSecond(rule, first, k);
    }
    if InSeries(rule, first, x) && x != first {
      var k: nat :| Nth(rule, first, k) == x;
      NextIsSecond(rule, first, k - 1);
    }
  }

  lemma {:induction false} DatesFromExact(rule: Rule, current: Day, horizon: int, floor: Option<int>)
    requires Supported(rule)
    ensures forall x :: x in DatesFrom(rule, current, horizon, floor) <==>
                        InSeries(rule, current, x) && AtLeast(x, floor) && x <= horizon
    ensures StrictlyIncreasing(DatesFrom(rule, current, horizon, floor))
    ensures forall x :: x in DatesFrom(rule, current, horizon, floor) ==> current <= x
    decreases horizon - current
  {
    var dates := DatesFrom(rule, current, horizon, floor);
    if current > horizon {
      forall x | InSeries(rule, current, x) ensures x > horizon {
        var k: nat :| Nth(rule, current, k) == x;
      }
    } else {
      var next := Next(rule, current);
      var rest := DatesFrom(rule, next, horizon, floor);
      DatesFromExact(rule, next, horizon, floor);
      forall x ensures x in dates <==> InSeries(rule, current, x) && AtLeast(x, floor) && x <= horizon {
        SeriesUnfolds(rule, current, x);
        if AtLeast(current, floor) {
          assert dates == [current] + rest;
        }
      }
      if AtLeast(current, floor) {
        assert dates == [current] + rest;
        forall j | 1 <= j < |dates| ensures current < dates[j] {
          assert dates[j] in rest;
        }
      }
    }
  }

  /**
   The result is exactly the series dates between floor and horizon, in order,
   for every unit; an unsupported unit yields none.
   */
  lemma DueDatesExact(first: Day, rule: Rule, horizon: int, floor: Option<int>)
    ensures var dates := DueDates(first, rule, horizon, floor);
            && StrictlyIncreasing(dates)
            && (forall x :: x in dates <==>
                  InSeries(rule, first, x) && (floor.None? || floor.value <= x) && x <= horizon)
  {
    if Supported(rule) {
      DatesFromExact(rule, first, horizon, floor);
    }
  }

  function StepLength(rule: Rule): (n: int)
    requires rule.unit in {Days, Weeks}
    ensures 1 <= n
  {
    if rule.unit == Days then rule.interval else 7 * rule.interval
  }

  lemma StepLengthIs(rule: Rule)
    requires rule.unit in {Days, Weeks}
    ensures StepLength(rule) == if rule.unit == Weeks then 7 * rule.interval else rule.interval
  {
  }

  lemma NthIsLinear(rule: Rule, first: Day, k: nat)
    requires rule.unit in {Days, Weeks}
    ensures Nth(rule, first, k) == first + k * StepLength(rule)
  {
    if k > 0 {
      NthIsLinear(rule, first, k - 1);
      assert k * StepLength(rule) == (k - 1) * StepLength(rule) + StepLength(rule);
    }
  }

  /** Day and week rules produce exactly the dates congruent to the first one, modulo n days or 7 n. */
  lemma DayAndWeekDates(first: Day, rule: Rule, horizon: int, floor: Option<int>, x: int)
    requires rule.unit in {Days, Weeks}
    ensures var n := if rule.unit == Weeks then 7 * rule.interval else rule.interval;
            && 0 < n
            && (x in DueDates(first, rule, horizon, floor) <==>
                first <= x <= horizon && (floor.None? || floor.value <= x) && (x - first) % n == 0)
  {
    hide *;
    StepLengthIs(rule);
    DatesByStep(first, rule, horizon, floor, x);
  }

  lemma DatesByStep(first: Day, rule: Rule, horizon: int, floor: Option<int>, x: int)
    requires rule.unit in {Days, Weeks}
    ensures x in DueDates(first, rule, horizon, floor) <==>
            first <= x <= horizon && (floor.None? || floor.value <= x) && (x - first) % StepLength(rule) == 0
  {
    hide StepLength, DueDates, Nth, Next;
    var n := StepLength(rule);
    DueDatesExact(first, rule, horizon, floor);
    if InSeries(rule, first, x) {
      var k: nat :| Nth(rule, first, k) == x;
      NthIsLinear(rule, first, k);
      MultipleHasNoRemainder(k, n);
    }
    if first <= x && (x - first) % n == 0 {
      var k: nat := (x - first) / n;
      NthIsLinear(rule, first, k);
      assert x - first == n * k + (x - first) % n;
      assert Nth(rule, first, k) == x;
    }
  }

  /** A floor only drops a prefix: what is left is a suffix, so the cadence is never shifted. */
  lemma {:induction false} FloorKeepsSuffix(rule: Rule, first: Day, horizon: int, floor: int)
      returns (dropped: seq<Day>)
    requires Supported(rule)
    ensures DatesFrom(rule, first, horizon, None) == dropped + DatesFrom(rule, first, horizon, Some(floor))
    ensures forall x :: x in dropped ==> x < floor
    decreases horizon - first
  {
    if first > horizon {
      dropped := [];
    } else if first < floor {
      var rest := FloorKeepsSuffix(rule, Next(rule, first), horizon, floor);
      dropped := [first] + rest;
    } else {
      FloorBelowIsNoFloor(rule, first, horizon, floor);
      dropped := [];
    }
  }

  lemma {:induction false} FloorBelowIsNoFloor(rule: Rule, first: Day, horizon: int, floor: int)
    requires Supported(rule) && floor <= first
    ensures DatesFrom(rule, first, horizon, None) == DatesFrom(rule, first, horizon, Some(floor))
    decreases horizon - first
  {
    if first <= horizon {
      FloorBelowIsNoFloor(rule, Next(rule, first), horizon, floor);
    }
  }

  /** Moving the horizon forward only appends. */
  lemma {:induction false} HorizonOnlyAppends(rule: Rule, first: Day, horizon: int, later: int, floor: Option<int>)
    requires Supported(rule) && horizon <= later
    ensures DatesFrom(rule, first, horizon, floor) <= DatesFrom(rule, first, later, floor)
    decreases horizon - first
  {
    if first <= horizon {
      HorizonOnlyAppends(rule, Next(rule, first), horizon, later, floor);
    }
  }

  // ---------------------------------------------------------------------------
  // Monthly series
  // ---------------------------------------------------------------------------

  /** The index of the j-th month visited when stepping by `n` months. */
  function VisitedMonth(first: int, n: int, j: nat): int {
    if j == 0 then first else VisitedMonth(first, n, j - 1) + n
  }

  function VisitedLength(first: Date, n: int, j: nat): (length: int)
    ensures 28 <= length
  {
    LengthAt(VisitedMonth(MonthIndex(first), n, j))
  }

  /** The smallest of the first day of month and the lengths of months 1..k of the walk. */
  ghost predicate IsRunningMinimum(first: Date, n: int, k: nat, day: int) {
    && day <= first.day
    && (forall j: nat :: 1 <= j <= k ==> day <= VisitedLength(first, n, j))
    && (day == first.day || exists j: nat :: 1 <= j <= k && day == VisitedLength(first, n, j))
  }

  lemma VisitedMonthIsLinear(first: int, n: int, j: nat)
    ensures VisitedMonth(first, n, j) == first + j * n
  {
    if j > 0 {
      VisitedMonthIsLinear(first, n, j - 1);
      assert j * n == (j - 1) * n + n;
    }
  }

  lemma RunningMinimumExtends(first: Date, n: int, k: nat, before: int, after: int)
    requires IsRunningMinimum(first, n, k, before)
    requires after == Min(before, VisitedLength(first, n, k + 1))
    ensures IsRunningMinimum(first, n, k + 1, after)
  {
    if after == before && before != first.day {
      var j: nat :| 1 <= j <= k && before == VisitedLength(first, n, j);
    }
  }

  lemma FirstIsRunningMinimum(first: Date, n: int)
    ensures IsRunningMinimum(first, n, 0, first.day)
  {
  }

  lemma {:induction false} MonthlyByWalk(rule: Rule, first: Day, k: nat)
    requires rule.unit == Months
    ensures var r := FromOrdinal(Nth(rule, first, k));
            && MonthIndex(r) == VisitedMonth(MonthIndex(FromOrdinal(first)), rule.interval, k)
            && IsRunningMinimum(FromOrdinal(first), rule.interval, k, r.day)
  {
    hide FromOrdinal, LengthAt, MonthIndex, PlusMonths, AddMonths, IsRunningMinimum;
    if k == 0 {
      FirstIsRunningMinimum(FromOrdinal(first), rule.interval);
    } else {
      MonthlyByWalk(rule, first, k - 1);
      var before := Nth(rule, first, k - 1);
      PlusMonthsMovesExactly(before, rule.interval);
      RunningMinimumExtends(FromOrdinal(first), rule.interval, k - 1, FromOrdinal(before).day,
                            FromOrdinal(Next(rule, before)).day);
    }
  }

  /**
   Closed form of the iterated loop: the k-th date lies exactly k intervals after
   the first, on the running minimum of every month length met on the way.
   */
  lemma MonthlyClosedForm(rule: Rule, first: Day, k: nat)
    requires rule.unit == Months
    ensures MonthIndex(FromOrdinal(Nth(rule, first, k))) == MonthIndex(FromOrdinal(first)) + k * rule.interval
    ensures IsRunningMinimum(FromOrdinal(first), rule.interval, k, FromOrdinal(Nth(rule, first, k)).day)
  {
    hide FromOrdinal, Nth, IsRunningMinimum, MonthIndex;
    MonthlyByWalk(rule, first, k);
    VisitedMonthIsLinear(MonthIndex(FromOrdinal(first)), rule.interval, k);
  }

  lemma RunningMinimumSettles(first: Date, n: int, j: nat, k: nat, dj: int, dk: int)
    requires j <= k && IsRunningMinimum(first, n, j, dj) && IsRunningMinimum(first, n, k, dk)
    ensures dk <= dj
    ensures dj <= 28 ==> dk == dj
  {
    if dk != first.day {
      var i: nat :| 1 <= i <= k && dk == VisitedLength(first, n, i);
    }
  }

  /** The day of month never rises, and once it is at most 28 it stays for good. */
  lemma MonthlyDaySettles(rule: Rule, first: Day, j: nat, k: nat)
    requires rule.unit == Months && j <= k
    ensures FromOrdinal(Nth(rule, first, k)).day <= FromOrdinal(Nth(rule, first, j)).day
    ensures FromOrdinal(Nth(rule, first, j)).day <= 28 ==>
              FromOrdinal(Nth(rule, first, k)).day == FromOrdinal(Nth(rule, first, j)).day
  {
    hide FromOrdinal, Nth, IsRunningMinimum, MonthIndex;
    MonthlyByWalk(rule, first, j);
    MonthlyByWalk(rule, first, k);
    RunningMinimumSettles(FromOrdinal(first), rule.interval, j, k,
                          FromOrdinal(Nth(rule, first, j)).day, FromOrdinal(Nth(rule, first, k)).day);
  }

  /** The day the first date lands on when it is moved by k intervals in one step. */
  function DirectDay(first: Date, n: int, k: nat): int {
    Min(first.day, VisitedLength(first, n, k))
  }

  lemma RunningMinimumIsDirect(first: Date, n: int, k: nat, day: int)
    requires IsRunningMinimum(first, n, k, day) && first.day <= LengthAt(MonthIndex(first))
    ensures day == DirectDay(first, n, k) <==>
            forall j: nat :: j < k ==> DirectDay(first, n, k) <= VisitedLength(first, n, j)
  {
    assert VisitedLength(first, n, 0) == LengthAt(MonthIndex(first));
    hide VisitedLength;
    assert k > 0 ==> day <= VisitedLength(first, n, k);
    var m := DirectDay(first, n, k);
    assert day <= m;
    if day < m {
      var i: nat :| 1 <= i <= k && day == VisitedLength(first, n, i);
      assert i < k && VisitedLength(first, n, i) < m;
    }
  }

  /**
   Where the loop's k-th date is the first date moved by k intervals at once
   (what "every n months on the 31st" suggests): exactly when no month visited
   before it is shorter than the day that single move lands on.
   */
  lemma IterationMatchesSingleMove(rule: Rule, first: Day, k: nat)
    requires rule.unit == Months
    ensures var d, n := FromOrdinal(first), rule.interval;
            && 0 <= k * n
            && (FromOrdinal(Nth(rule, first, k)) == AddMonths(d, k * n) <==>
                forall j: nat :: j < k ==> DirectDay(d, n, k) <= VisitedLength(d, n, j))
  {
    hide FromOrdinal, LengthAt, IsRunningMinimum, Ordinal, Nth, AddMonths, MonthIndex;
    var d, n := FromOrdinal(first), rule.interval;
    var iterated := FromOrdinal(Nth(rule, first, k));
    MonthlyByWalk(rule, first, k);
    VisitedMonthIsLinear(MonthIndex(d), n, k);
    ProductIsNonNegative(k, n);
    var direct := AddMonths(d, k * n);
    AddMonthsMovesExactly(d, k * n);
    OwnMonthLength(d);
    RunningMinimumIsDirect(d, n, k, iterated.day);
    assert direct.day == DirectDay(d, n, k);
    SameMonthSameDate(iterated, direct);
  }

  lemma OwnMonthLength(d: Date)
    requires ValidDate(d)
    ensures d.day <= LengthAt(MonthIndex(d))
  {
    MonthOfIndex(d.year, d.month);
  }

  lemma ProductIsNonNegative(k: nat, n: nat)
    ensures 0 <= k * n
  {
  }

  lemma SameMonthSameDate(a: Date, b: Date)
    requires ValidDate(a) && ValidDate(b) && MonthIndex(a) == MonthIndex(b)
    ensures a == b <==> a.day == b.day
  {
    MonthOfIndex(a.year, a.month);
    MonthOfIndex(b.year, b.month);
  }

  lemma NextFromDate(rule: Rule, from: Date, to: Date)
    requires rule.unit == Months && ValidDate(from) && to == AddMonths(from, rule.interval)
    ensures 1 <= Ordinal(from) && Next(rule, Ordinal(from)) == Ordinal(to)
  {
    hide FromOrdinal, Ordinal, AddMonths, PlusMonths;
    DateOrdinalRoundTrip(from);
    PlusMonthsMovesExactly(Ordinal(from), rule.interval);
  }

  lemma OrdinalByNumbers(d: Date)
    requires ValidDate(d)
    ensures var y := d.year - 1;
            Ordinal(d) == 365 * y + y / 4 - y / 100 + y / 400 + DaysBeforeMonth(d.year, d.month) + d.day
  {
    YearsCountLeapDays(d.year);
    hide DaysBeforeYear, DaysBeforeMonth;
  }

  /**
   In a leap year: monthly from 31 January 2024 comes 29 February, then 29 March, as
   days 738916, 738945 and 738974.
   */
  lemma MonthEndInALeapYear()
    ensures FromOrdinal(738916) == Date(2024, 1, 31)
    ensures Nth(Rule(Months, 1), 738916, 1) == 738945 && FromOrdinal(738945) == Date(2024, 2, 29)
    ensures Nth(Rule(Months, 1), 738916, 2) == 738974 && FromOrdinal(738974) == Date(2024, 3, 29)
  {
    hide FromOrdinal, Ordinal, Next;
    var rule := Rule(Months, 1);
    var jan, feb, mar := Date(2024, 1, 31), Date(2024, 2, 29), Date(2024, 3, 29);
    OrdinalByNumbers(jan);
    OrdinalByNumbers(feb);
    OrdinalByNumbers(mar);
    DateOrdinalRoundTrip(jan);
    DateOrdinalRoundTrip(feb);
    DateOrdinalRoundTrip(mar);
    NextFromDate(rule, jan, feb);
    NextFromDate(rule, feb, mar);
    assert Nth(rule, 738916, 0) == 738916;
    assert Nth(rule, 738916, 1) == Next(rule, Nth(rule, 738916, 0));
    assert Nth(rule, 738916, 2) == Next(rule, Nth(rule, 738916, 1));
  }

  /** A chore due monthly from 31 January 2023 drifts to 28 March instead of 31 March. */
  lemma MonthEndDrift()
    ensures var first := Ordinal(Date(2023, 1, 31));
            && 1 <= first
            && FromOrdinal(Nth(Rule(Months, 1), first, 2)) == Date(2023, 3, 28)
            && AddMonths(FromOrdinal(first), 2) == Date(2023, 3, 31)
  {
    hide FromOrdinal, Ordinal, Next;
    var rule := Rule(Months, 1);
    var jan, feb, mar := Date(2023, 1, 31), Date(2023, 2, 28), Date(2023, 3, 28);
    NextFromDate(rule, jan, feb);
    NextFromDate(rule, feb, mar);
    DateOrdinalRoundTrip(jan);
    DateOrdinalRoundTrip(mar);
    var first: Day := Ordinal(jan);
    assert Nth(rule, first, 0) == first;
    assert Nth(rule, first, 1) == Next(rule, Nth(rule, first, 0));
    assert Nth(rule, first, 2) == Next(rule, Nth(rule, first, 1));
  }
}
