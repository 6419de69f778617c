/**
 The part of Python's `datetime.date` and dateutil's `relativedelta` that the
 scheduler and the leaderboard rely on: month lengths, ordinals, day arithmetic
 through ordinals, and month addition with end-of-month clipping.
 */
module Calendar {
  import opened Types
  import opened Arithmetic

  datatype Date = Date(year: int, month: int, day: int)

  predicate IsLeap(year: int) {
    year % 4 == 0 && (year % 100 != 0 || year % 400 == 0)
  }

  function DaysInMonth(year: int, month: int): (n: int)
    requires 1 <= month <= 12
    ensures 28 <= n <= 31
  {
    if month == 2 then (if IsLeap(year) then 29 else 28)
    else if month in {4, 6, 9, 11} then 30
    else 31
  }

  predicate ValidDate(d: Date) {
    1 <= d.year && 1 <= d.month <= 12 && 1 <= d.day <= DaysInMonth(d.year, d.month)
  }

  function YearLength(year: int): int {
    if IsLeap(year) then 366 else 365
  }

  /** The days in all years before `year`. */
  function DaysBeforeYear(year: int): int
    decreases year
  {
    if year <= 1 then 0 else DaysBeforeYear(year - 1) + YearLength(year - 1)
  }

  // ---------------------------------------------------------------------------
  // The Gregorian calendar in numbers
  // ---------------------------------------------------------------------------

  function Quotient(y: int, n: int): int
    requires 1 < n
  {
    y / n
  }

  predicate Divides(n: int, y: int)
    requires 1 < n
  {
    y % n == 0
  }

  lemma QuotientAdvances(y: int, n: int)
    requires 1 < n
    ensures Quotient(y, n) - Quotient(y - 1, n) == if Divides(n, y) then 1 else 0
  {
    var q, r := y / n, y % n;
    if r == 0 {
      assert n * (q - 1) == n * q - n;
      QuotientIsUnique(y - 1, n, q - 1, n - 1);
    } else {
      QuotientIsUnique(y - 1, n, q, r - 1);
    }
  }

  lemma LeapYearsDivide(y: int)
    ensures YearLength(y) == if Divides(4, y) && (!Divides(100, y) || Divides(400, y)) then 366 else 365
  {
  }

  lemma FactorDivides(n: int, k: int, y: int)
    requires 1 < n && 1 < k && 1 < n * k && Divides(n * k, y)
    ensures Divides(n, y)
  {
    var q := y / (n * k);
    assert y == (n * k) * q == n * (k * q);
    QuotientIsUnique(y, n, k * q, 0);
  }

  lemma LeapDaysAdvance(y: int)
    ensures Quotient(y, 4) - Quotient(y, 100) + Quotient(y, 400) + 365
         == Quotient(y - 1, 4) - Quotient(y - 1, 100) + Quotient(y - 1, 400) + YearLength(y)
  {
    hide *;
    QuotientAdvances(y, 4);
    QuotientAdvances(y, 100);
    QuotientAdvances(y, 400);
    LeapYearsDivide(y);
    if Divides(100, y) {
      FactorDivides(4, 25, y);
    }
    if Divides(400, y) {
      FactorDivides(100, 4, y);
    }
  }

  lemma {:induction false} YearsByQuotients(year: int)
    requires 1 <= year
    ensures DaysBeforeYear(year)
         == 365 * (year - 1) + Quotient(year - 1, 4) - Quotient(year - 1, 100) + Quotient(year - 1, 400)
    decreases year
  {
    if year > 1 {
      hide YearLength, Quotient;
      YearsByQuotients(year - 1);
      LeapDaysAdvance(year - 1);
    }
  }

  /** The years before `year` have 365 days each and one more for every leap day of the Gregorian rule. */
  lemma YearsCountLeapDays(year: int)
    requires 1 <= year
    ensures DaysBeforeYear(year) == 365 * (year - 1) + (year - 1) / 4 - (year - 1) / 100 + (year - 1) / 400
  {
    hide DaysBeforeYear;
    YearsByQuotients(year);
  }

  /** Four centuries have 146097 days. */
  lemma FourCenturies(year: int)
    requires 1 <= year
    ensures DaysBeforeYear(year + 400) == DaysBeforeYear(year) + 146097
  {
    hide DaysBeforeYear;
    YearsCountLeapDays(year);
    YearsCountLeapDays(year + 400);
    CenturyOffsets(year - 1);
  }

  lemma CenturyOffsets(y: int)
    ensures (y + 400) / 4 == y / 4 + 100 && (y + 400) / 100 == y / 100 + 4 && (y + 400) / 400 == y / 400 + 1
  {
  }

  /** A year has 366 days exactly when its February has 29, and otherwise 365 and 28. */
  lemma FebruaryMakesTheYear(year: int)
    requires 1 <= year
    ensures DaysInMonth(year, 2) in {28, 29}
    ensures DaysBeforeYear(year + 1) - DaysBeforeYear(year) == 337 + DaysInMonth(year, 2)
  {
  }

  /** The other months alternate between 31 and 30 days, with 31 in both July and August. */
  lemma MonthsAlternate(year: int, month: int)
    requires 1 <= month <= 12 && month != 2
    ensures DaysInMonth(year, month) == 30 + (month + month / 8) % 2
  {
  }

  function DaysBeforeMonth(year: int, month: int): int
    requires 1 <= month <= 12
  {
    [0, 31, 59, 90, 120, 151, 181, 212, 243, 273, 304, 334][month - 1]
    + (if month > 2 && IsLeap(year) then 1 else 0)
  }

  function Ordinal(d: Date): int
    requires 1 <= d.month <= 12
  {
    DaysBeforeYear(d.year) + DaysBeforeMonth(d.year, d.month) + d.day
  }

  /** Months counted from January of year 0; adding months is adding to this index. */
  function MonthIndex(d: Date): int {
    12 * d.year + d.month - 1
  }

  function FirstOfNextMonth(year: int, month: int): Date {
    if month == 12 then Date(year + 1, 1, 1) else Date(year, month + 1, 1)
  }

  /** The day after the last of a month is the first of the next one. */
  lemma MonthsAreContiguous(year: int, month: int)
    requires 1 <= year && 1 <= month <= 12
    ensures Ordinal(FirstOfNextMonth(year, month)) == Ordinal(Date(year, month, 1)) + DaysInMonth(year, month)
  {
  }

  /** A date in an earlier month has a smaller ordinal. */
  lemma {:induction false} EarlierMonthEarlierDay(a: Date, b: Date)
    requires ValidDate(a) && ValidDate(b) && MonthIndex(a) < MonthIndex(b)
    ensures Ordinal(a) < Ordinal(b)
    decreases MonthIndex(b) - MonthIndex(a)
  {
    MonthsAreContiguous(a.year, a.month);
    var next := FirstOfNextMonth(a.year, a.month);
    if MonthIndex(next) == MonthIndex(b) {
      assert next.year == b.year && next.month == b.month;
    } else {
      EarlierMonthEarlierDay(next, b);
    }
  }

  /** Ordinals order dates exactly as (year, month, day) does, so they are also injective. */
  lemma OrdinalOrdersDates(a: Date, b: Date)
    requires ValidDate(a) && ValidDate(b)
    ensures Ordinal(a) < Ordinal(b) <==>
            MonthIndex(a) < MonthIndex(b) || (MonthIndex(a) == MonthIndex(b) && a.day < b.day)
    ensures Ordinal(a) == Ordinal(b) <==> a == b
  {
    if MonthIndex(a) < MonthIndex(b) {
      EarlierMonthEarlierDay(a, b);
    } else if MonthIndex(b) < MonthIndex(a) {
      EarlierMonthEarlierDay(b, a);
    } else {
      assert a.year == b.year && a.month == b.month;
    }
  }

  function Tomorrow(d: Date): (r: Date)
    requires ValidDate(d)
    ensures ValidDate(r) && Ordinal(r) == Ordinal(d) + 1
  {
    if d.day < DaysInMonth(d.year, d.month) then d.(day := d.day + 1)
    else
      MonthsAreContiguous(d.year, d.month);
      FirstOfNextMonth(d.year, d.month)
  }

  /** `date.fromordinal`. */
  function FromOrdinal(n: Day): (d: Date)
    ensures ValidDate(d) && Ordinal(d) == n
  {
    if n == 1 then Date(1, 1, 1) else Tomorrow(FromOrdinal(n - 1))
  }

  lemma DateOrdinalRoundTrip(d: Date)
    requires ValidDate(d)
    ensures 1 <= Ordinal(d) && FromOrdinal(Ordinal(d)) == d
  {
    hide FromOrdinal, Ordinal;
    OrdinalIsPositive(d);
    FromOrdinalInverts(d, Ordinal(d));
  }

  lemma {:induction false} OrdinalIsPositive(d: Date)
    requires ValidDate(d)
    ensures 1 <= Ordinal(d)
  {
    YearsStartLate(d.year);
  }

  lemma {:induction false} YearsStartLate(year: int)
    ensures 0 <= DaysBeforeYear(year)
    decreases year
  {
    if year > 1 {
      YearsStartLate(year - 1);
    }
  }

  lemma FromOrdinalInverts(d: Date, n: Day)
    requires ValidDate(d) && Ordinal(d) == n
    ensures FromOrdinal(n) == d
  {
    hide *;
    OrdinalOrdersDates(FromOrdinal(n), d);
  }

  /**
   `date + relativedelta(months=n)`: relativedelta first normalises `n` into
   years and months, adds each, carries one year when the month overflows, and
   clips the day to the length of the month it lands in.
   */
  function AddMonths(d: Date, n: nat): Date
    requires ValidDate(d)
  {
    var year := d.year + n / 12;
    var month := d.month + n % 12;
    var (year', month') := if month > 12 then (year + 1, month - 12) else (year, month);
    Date(year', month', Min(d.day, DaysInMonth(year', month')))
  }

  /** The normalise-and-carry arithmetic moves exactly `n` months and only ever clips the day. */
  lemma AddMonthsMovesExactly(d: Date, n: nat)
    requires ValidDate(d)
    ensures var r := AddMonths(d, n);
            && ValidDate(r)
            && MonthIndex(r) == MonthIndex(d) + n
            && r.day == Min(d.day, LengthAt(MonthIndex(d) + n))
            && (0 < n ==> Ordinal(d) < Ordinal(r))
  {
    var r := AddMonths(d, n);
    CarryIsExact(d.year, d.month, n);
    MonthOfIndex(r.year, r.month);
    if 0 < n {
      EarlierMonthEarlierDay(d, r);
    }
  }

  /** `AddMonths` on ordinals. */
  function PlusMonths(day: Day, n: nat): (r: Day)
    requires 0 < n
    ensures day < r
  {
    AddMonthsMovesExactly(FromOrdinal(day), n);
    hide *;
    Ordinal(AddMonths(FromOrdinal(day), n))
  }

  lemma PlusMonthsMovesExactly(day: Day, n: nat)
    requires 0 < n
    ensures var d, r := FromOrdinal(day), FromOrdinal(PlusMonths(day, n));
            && r == AddMonths(d, n)
            && MonthIndex(r) == MonthIndex(d) + n
            && r.day == Min(d.day, LengthAt(MonthIndex(r)))
  {
    hide FromOrdinal, AddMonths, Ordinal, LengthAt, MonthIndex;
    var d := FromOrdinal(day);
    AddMonthsMovesExactly(d, n);
    DateOrdinalRoundTrip(AddMonths(d, n));
  }

  lemma CarryIsExact(year: int, month: int, n: nat)
    requires 1 <= month <= 12
    ensures 12 * (year + n / 12) + (month + n % 12) == 12 * year + month + n
  {
    assert n == 12 * (n / 12) + n % 12;
  }

  lemma MonthOfIndex(year: int, month: int)
    requires 1 <= month <= 12
    ensures (12 * year + month - 1) / 12 == year && (12 * year + month - 1) % 12 + 1 == month
  {
  }

  /** The length of the month with the given index. */
  function LengthAt(index: int): int {
    DaysInMonth(index / 12, index % 12 + 1)
  }
}
