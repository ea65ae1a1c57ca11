/** Calendar arithmetic for the recurrence engine. A schedule's `nextDate` is
    a JavaScript `Date`; only its calendar day matters here. JavaScript's
    `setDate` and `setMonth` do not clamp: they compute ECMAScript's MakeDay
    for an out-of-range day of the month and read the calendar date of that
    day back, so 31 January plus one month is 3 March (2 March in a leap
    year). `MakeDay` below is that day count and `Normalise` is the reading
    back. */
module Calendar {

  datatype Date = Date(year: int, month: int, day: int)

  datatype Frequency = Daily | Weekly | Monthly | Quarterly

  predicate IsLeapYear(y: int) {
    y % 4 == 0 && (y % 100 != 0 || y % 400 == 0)
  }

  function DaysInMonth(y: int, m: int): (n: int)
    requires 1 <= m <= 12
    ensures 28 <= n <= 31
    ensures n == 29 <==> m == 2 && IsLeapYear(y)
  {
    if m == 2 then (if IsLeapYear(y) then 29 else 28)
    else if m == 4 || m == 6 || m == 9 || m == 11 then 30
    else 31
  }

  /** A date that names an existing calendar day. */
  predicate Valid(d: Date) {
    1 <= d.month <= 12 && 1 <= d.day <= DaysInMonth(d.year, d.month)
  }

  /** ECMAScript's DayFromYear: days from 1 January 1970 to 1 January of `y`
      (the divisions are floor divisions, as Dafny's are for a positive
      divisor). */
  function DayFromYear(y: int): int {
    365 * (y - 1970) + (y - 1969) / 4 - (y - 1901) / 100 + (y - 1601) / 400
  }

  function DaysBeforeMonth(y: int, m: int): int
    requires 1 <= m <= 12
  {
    [0, 31, 59, 90, 120, 151, 181, 212, 243, 273, 304, 334][m - 1]
      + (if m > 2 && IsLeapYear(y) then 1 else 0)
  }

  /** ECMAScript's MakeDay: the day number of day `d` of month `m` of year
      `y`, where `d` may run past the end of the month. */
  function MakeDay(y: int, m: int, d: int): int
    requires 1 <= m <= 12
  {
    DayFromYear(y) + DaysBeforeMonth(y, m) + d - 1
  }

  /** Days since 1 January 1970. */
  function DayNumber(d: Date): int
    requires 1 <= d.month <= 12
  {
    MakeDay(d.year, d.month, d.day)
  }

  /** The calendar order: year, then month, then day. */
  predicate Before(a: Date, b: Date) {
    a.year < b.year
    || (a.year == b.year && a.month < b.month)
    || (a.year == b.year && a.month == b.month && a.day < b.day)
  }

  predicate AtOrBefore(a: Date, b: Date) {
    a == b || Before(a, b)
  }

  /** The month after month `m` of year `y`, as (year, month). */
  function NextMonthYear(y: int, m: int): int
    requires 1 <= m <= 12
  {
    if m == 12 then y + 1 else y
  }

  function NextMonth(m: int): (r: int)
    requires 1 <= m <= 12
    ensures 1 <= r <= 12
  {
    if m == 12 then 1 else m + 1
  }

  /** Floor division by c steps up by one exactly at the multiples of c. */
  lemma FloorStep(x: int, c: int)
    requires c == 4 || c == 100 || c == 400
    ensures (x + 1) / c == x / c + (if (x + 1) % c == 0 then 1 else 0)
  {
    var q, r := x / c, x % c;
    assert x == c * q + r && 0 <= r < c;
    if r == c - 1 {
      assert x + 1 == c * (q + 1);
    } else {
      assert x + 1 == c * q + (r + 1);
    }
  }

  lemma YearLength(y: int)
    ensures DayFromYear(y + 1) == DayFromYear(y) + (if IsLeapYear(y) then 366 else 365)
  {
    FloorStep(y - 1969, 4);
    FloorStep(y - 1901, 100);
    FloorStep(y - 1601, 400);
    assert (y - 1968) % 4 == y % 4;
    assert (y - 1900) % 100 == y % 100;
    assert (y - 1600) % 400 == y % 400;
  }

  /** The first of the next month comes `DaysInMonth` days after the first of
      this one. */
  lemma MonthLength(y: int, m: int)
    requires 1 <= m <= 12
    ensures MakeDay(NextMonthYear(y, m), NextMonth(m), 1) == MakeDay(y, m, 1) + DaysInMonth(y, m)
  {
    if m == 12 {
      YearLength(y);
    }
  }

  /** The calendar date JavaScript lands on for day `d` (possibly past the end
      of the month) of month `m` of year `y`: the overflow rolls into the
      following months. */
  function Normalise(y: int, m: int, d: int): (r: Date)
    requires 1 <= m <= 12 && d >= 1
    ensures Valid(r)
    ensures DayNumber(r) == MakeDay(y, m, d)
    decreases d
  {
    if d <= DaysInMonth(y, m) then Date(y, m, d)
    else
      MonthLength(y, m);
      Normalise(NextMonthYear(y, m), NextMonth(m), d - DaysInMonth(y, m))
  }

  /** Months counted from January of year 0: month `m` of year `y` has
      index `12 * y + m - 1`. */
  function MonthIndex(d: Date): int {
    12 * d.year + d.month - 1
  }

  function YearOfIndex(i: int): int {
    i / 12
  }

  function MonthOfIndex(i: int): (m: int)
    ensures 1 <= m <= 12
  {
    i % 12 + 1
  }

  /** `setMonth(getMonth() + k)`: JavaScript carries the month overflow into
      the year (MakeDay's `ym = y + floor(m / 12)`, `mn = m mod 12`), keeps
      the day of the month as it is, and reads the day count back. */
  function AddMonths(d: Date, k: nat): (r: Date)
    requires Valid(d)
    ensures Valid(r)
    ensures DayNumber(r) == MakeDay(YearOfIndex(MonthIndex(d) + k), MonthOfIndex(MonthIndex(d) + k), d.day)
  {
    var i := MonthIndex(d) + k;
    Normalise(YearOfIndex(i), MonthOfIndex(i), d.day)
  }

  lemma IndexOfDate(d: Date)
    requires 1 <= d.month <= 12
    ensures YearOfIndex(MonthIndex(d)) == d.year && MonthOfIndex(MonthIndex(d)) == d.month
  {
  }

  lemma IndexStep(i: int)
    ensures YearOfIndex(i + 1) == NextMonthYear(YearOfIndex(i), MonthOfIndex(i))
    ensures MonthOfIndex(i + 1) == NextMonth(MonthOfIndex(i))
  {
  }

  /** The scheduling service's `bump`: the next occurrence after `d`. */
  function Bump(d: Date, f: Frequency): (r: Date)
    requires Valid(d)
    ensures Valid(r)
    ensures f == Daily ==> DayNumber(r) == DayNumber(d) + 1
    ensures f == Weekly ==> DayNumber(r) == DayNumber(d) + 7
    ensures f == Monthly ==> r == AddMonths(d, 1)
    ensures f == Quarterly ==> r == AddMonths(d, 3)
  {
    match f
    case Daily => Normalise(d.year, d.month, d.day + 1)
    case Weekly => Normalise(d.year, d.month, d.day + 7)
    case Monthly => AddMonths(d, 1)
    case Quarterly => AddMonths(d, 3)
  }

  // ---------------------------------------------------------------------
  // Day numbers and the calendar order agree.

  lemma {:induction false} DayFromYearMonotone(a: int, b: int)
    requires a < b
    ensures DayFromYear(a) + 365 <= DayFromYear(b)
    decreases b - a
  {
    YearLength(a);
    if a + 1 < b {
      DayFromYearMonotone(a + 1, b);
    }
  }

  lemma {:induction false} DaysBeforeMonthMonotone(y: int, a: int, b: int)
    requires 1 <= a < b <= 12
    ensures DaysBeforeMonth(y, a) + DaysInMonth(y, a) <= DaysBeforeMonth(y, b)
    decreases b - a
  {
    if a + 1 < b {
      DaysBeforeMonthMonotone(y, a + 1, b);
    }
  }

  lemma DayInYearBounds(d: Date)
    requires Valid(d)
    ensures DayFromYear(d.year) <= DayNumber(d) < DayFromYear(d.year) + (if IsLeapYear(d.year) then 366 else 365)
  {
    if d.month < 12 {
      DaysBeforeMonthMonotone(d.year, d.month, 12);
    }
  }

  lemma EarlierYearFirst(a: Date, b: Date)
    requires Valid(a) && Valid(b) && a.year < b.year
    ensures DayNumber(a) < DayNumber(b)
  {
    DayInYearBounds(a);
    DayInYearBounds(b);
    YearLength(a.year);
    if a.year + 1 < b.year {
      DayFromYearMonotone(a.year + 1, b.year);
    }
  }

  lemma EarlierMonthFirst(a: Date, b: Date)
    requires Valid(a) && Valid(b) && a.year == b.year && a.month < b.month
    ensures DayNumber(a) < DayNumber(b)
  {
    DaysBeforeMonthMonotone(a.year, a.month, b.month);
  }

  /** For existing dates the calendar order is the order of day numbers. */
  lemma BeforeIsDayOrder(a: Date, b: Date)
    requires Valid(a) && Valid(b)
    ensures Before(a, b) <==> DayNumber(a) < DayNumber(b)
  {
    if a.year < b.year {
      EarlierYearFirst(a, b);
    } else if b.year < a.year {
      EarlierYearFirst(b, a);
    } else if a.month < b.month {
      EarlierMonthFirst(a, b);
    } else if b.month < a.month {
      EarlierMonthFirst(b, a);
    }
  }

  /** Two existing dates with the same day number are the same date, so a day
      count determines the calendar date JavaScript reads back. */
  lemma DayNumberInjective(a: Date, b: Date)
    requires Valid(a) && Valid(b)
    requires DayNumber(a) == DayNumber(b)
    ensures a == b
  {
    BeforeIsDayOrder(a, b);
    BeforeIsDayOrder(b, a);
  }

  /** The `nextDate <= now` test of `runDue` compares day numbers. */
  lemma AtOrBeforeIsDayOrder(a: Date, b: Date)
    requires Valid(a) && Valid(b)
    ensures AtOrBefore(a, b) <==> DayNumber(a) <= DayNumber(b)
  {
    BeforeIsDayOrder(a, b);
    if DayNumber(a) == DayNumber(b) {
      DayNumberInjective(a, b);
    }
  }

  // ---------------------------------------------------------------------
  // What `bump` promises.

  /** The first day of the month with index `i`. */
  function FirstOfIndex(i: int): int {
    MakeDay(YearOfIndex(i), MonthOfIndex(i), 1)
  }

  lemma FirstOfIndexStep(j: int)
    ensures FirstOfIndex(j) >= FirstOfIndex(j - 1) + 28
  {
    var y, m := YearOfIndex(j - 1), MonthOfIndex(j - 1);
    IndexStep(j - 1);
    MonthLength(y, m);
  }

  /** A sequence that grows by at least 28 at every step grows by at least
      28 per step over k steps. */
  lemma {:induction false} StepwiseGrowth(f: int -> int, i: int, k: nat)
    requires forall j :: f(j) >= f(j - 1) + 28
    ensures f(i + k) >= f(i) + 28 * k
    decreases k
  {
    if k > 0 {
      StepwiseGrowth(f, i, k - 1);
      assert f(i + k) >= f(i + k - 1) + 28;
    }
  }

  lemma FirstOfIndexIncreasing(i: int, k: nat)
    ensures FirstOfIndex(i + k) >= FirstOfIndex(i) + 28 * k
  {
    forall j ensures FirstOfIndex(j) >= FirstOfIndex(j - 1) + 28 {
      FirstOfIndexStep(j);
    }
    StepwiseGrowth(FirstOfIndex, i, k);
  }

  lemma AddMonthsLater(d: Date, k: nat)
    requires Valid(d) && k >= 1
    ensures DayNumber(AddMonths(d, k)) >= DayNumber(d) + 28 * k
  {
    IndexOfDate(d);
    FirstOfIndexIncreasing(MonthIndex(d), k);
  }

  /** `bump` always moves a date strictly forward. */
  lemma BumpIsLater(d: Date, f: Frequency)
    requires Valid(d)
    ensures DayNumber(Bump(d, f)) > DayNumber(d)
    ensures Before(d, Bump(d, f))
  {
    var r := Bump(d, f);
    if f == Monthly {
      AddMonthsLater(d, 1);
    } else if f == Quarterly {
      AddMonthsLater(d, 3);
    }
    BeforeIsDayOrder(d, r);
  }

  /** Monthly and quarterly keep the day of the month when the target month
      has it; otherwise the surplus days run into the month after the target
      month. The result is never clamped to the target month's last day. */
  lemma AddMonthsKeepsOrOverflows(d: Date, k: nat)
    requires Valid(d)
    ensures var i := MonthIndex(d) + k;
            var ty, tm := YearOfIndex(i), MonthOfIndex(i);
            var r := AddMonths(d, k);
            (d.day <= DaysInMonth(ty, tm) ==> r == Date(ty, tm, d.day))
            && (d.day > DaysInMonth(ty, tm) ==>
                  r == Date(NextMonthYear(ty, tm), NextMonth(tm), d.day - DaysInMonth(ty, tm))
                  && r.day < d.day)
  {
    var i := MonthIndex(d) + k;
    NormaliseShortOverflow(YearOfIndex(i), MonthOfIndex(i), d.day);
  }

  /** A day of the month up to 56 overflows by at most one month. */
  lemma NormaliseShortOverflow(y: int, m: int, d: int)
    requires 1 <= m <= 12 && 1 <= d <= 56
    ensures d <= DaysInMonth(y, m) ==> Normalise(y, m, d) == Date(y, m, d)
    ensures d > DaysInMonth(y, m) ==>
              Normalise(y, m, d) == Date(NextMonthYear(y, m), NextMonth(m), d - DaysInMonth(y, m))
  {
    if d > DaysInMonth(y, m) {
      var rest := d - DaysInMonth(y, m);
      assert rest <= DaysInMonth(NextMonthYear(y, m), NextMonth(m));
    }
  }

  /** The target month of a monthly bump is the calendar month after the
      date's month, and that of a quarterly bump the third month after it. */
  lemma BumpTargetMonth(d: Date)
    requires Valid(d)
    ensures YearOfIndex(MonthIndex(d) + 1) == NextMonthYear(d.year, d.month)
    ensures MonthOfIndex(MonthIndex(d) + 1) == NextMonth(d.month)
    ensures MonthOfIndex(MonthIndex(d) + 3) == (d.month + 2) % 12 + 1
    ensures YearOfIndex(MonthIndex(d) + 3) == if d.month >= 10 then d.year + 1 else d.year
  {
    IndexOfDate(d);
    IndexStep(MonthIndex(d));
  }

  // ---------------------------------------------------------------------
  // Worked examples at month boundaries.

  lemma ExampleJanuary31Monthly()
    ensures Bump(Date(2025, 1, 31), Monthly) == Date(2025, 3, 3)
  {
    BumpTargetMonth(Date(2025, 1, 31));
    NormaliseShortOverflow(2025, 2, 31);
  }

  lemma ExampleJanuary31MonthlyLeapYear()
    ensures Bump(Date(2024, 1, 31), Monthly) == Date(2024, 3, 2)
  {
    BumpTargetMonth(Date(2024, 1, 31));
    NormaliseShortOverflow(2024, 2, 31);
  }

  lemma ExampleNovember30Quarterly()
    ensures Bump(Date(2025, 11, 30), Quarterly) == Date(2026, 3, 2)
  {
    BumpTargetMonth(Date(2025, 11, 30));
    NormaliseShortOverflow(2026, 2, 30);
  }

  lemma ExampleDailyAndWeekly()
    ensures Bump(Date(2025, 6, 9), Daily) == Date(2025, 6, 10)
    ensures Bump(Date(2025, 12, 28), Weekly) == Date(2026, 1, 4)
  {
    NormaliseShortOverflow(2025, 6, 10);
    NormaliseShortOverflow(2025, 12, 35);
  }
}
