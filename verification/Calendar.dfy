/** Days, months and the proleptic Gregorian calendar; time in microseconds. */
module Calendar {

  const SECOND := 1_000_000
  const MINUTE := 60_000_000 // 60 * SECOND
  const HOUR := 3_600_000_000 // 60 * MINUTE
  const DAY := 86_400_000_000 // 24 * HOUR

  // A time is a number of microseconds; day `n` of the calendar runs from `n * DAY`, day 1 being 1 January
  // of year 1.
  type Time = int

  function HourOf(t: Time): int {
    t / HOUR
  }

  function OrdinalOf(t: Time): int {
    t / DAY
  }

  lemma HourWithinDay(t: Time)
    ensures HourOf(t) / 24 == OrdinalOf(t)
    ensures HourOf(t) * HOUR <= t < (HourOf(t) + 1) * HOUR
  {
  }

  // ------------------------------------------------------------ arithmetic with a divisor

  lemma {:induction false} StepUp(d: int, a: int, b: int)
    requires d > 0
    ensures a < b ==> d * a + d <= d * b
    decreases b - a
  {
    if a < b {
      StepUp(d, a, b - 1);
      assert d * b == d * (b - 1) + d;
    }
  }

  lemma Quotient(t: int, d: int, q: int, r: int)
    requires d > 0 && t == d * q + r && 0 <= r < d
    ensures t / d == q && t % d == r
  {
    StepUp(d, q, t / d);
    StepUp(d, t / d, q);
  }

  // ------------------------------------------------------------ dates

  datatype Date = Date(year: nat, month: nat, day: nat)

  predicate IsLeap(year: nat) {
    year % 4 == 0 && (year % 100 != 0 || year % 400 == 0)
  }

  function DaysIn(year: nat, month: nat): nat {
    if month == 2 then (if IsLeap(year) then 29 else 28)
    else if month == 4 || month == 6 || month == 9 || month == 11 then 30
    else 31
  }

  predicate ValidDate(d: Date) {
    1 <= d.year && 1 <= d.month <= 12 && 1 <= d.day <= DaysIn(d.year, d.month)
  }

  const FIRST_DATE := Date(1, 1, 1)

  function NextDate(d: Date): Date
    requires ValidDate(d)
  {
    if d.day < DaysIn(d.year, d.month) then Date(d.year, d.month, d.day + 1)
    else if d.month < 12 then Date(d.year, d.month + 1, 1)
    else Date(d.year + 1, 1, 1)
  }

  function PreviousDate(d: Date): (p: Date)
    requires ValidDate(d) && d != FIRST_DATE
    ensures ValidDate(p) && NextDate(p) == d
  {
    if d.day > 1 then Date(d.year, d.month, d.day - 1)
    else if d.month > 1 then Date(d.year, d.month - 1, DaysIn(d.year, d.month - 1))
    else Date(d.year - 1, 12, 31)
  }

  /** The date of day `n`. */
  function Civil(n: int): (d: Date)
    requires 1 <= n
    ensures ValidDate(d)
    decreases n
  {
    if n == 1 then FIRST_DATE else NextDate(Civil(n - 1))
  }

  /** The day a date falls on. */
  function Ordinal(d: Date): (n: int)
    requires ValidDate(d)
    ensures 1 <= n
    decreases d.year, d.month, d.day
  {
    if d == FIRST_DATE then 1 else Ordinal(PreviousDate(d)) + 1
  }

  lemma {:induction false} OrdinalOfCivil(n: int)
    requires 1 <= n
    ensures Ordinal(Civil(n)) == n
    decreases n
  {
    if n > 1 {
      OrdinalOfCivil(n - 1);
      PreviousOfNext(Civil(n - 1));
    }
  }

  lemma PreviousOfNext(d: Date)
    requires ValidDate(d)
    ensures ValidDate(NextDate(d)) && NextDate(d) != FIRST_DATE && PreviousDate(NextDate(d)) == d
  {
  }

  lemma {:induction false} CivilOfOrdinal(d: Date)
    requires ValidDate(d)
    ensures Civil(Ordinal(d)) == d
    decreases d.year, d.month, d.day
  {
    if d != FIRST_DATE {
      CivilOfOrdinal(PreviousDate(d));
    }
  }

  // Whole years, their leap days, the days of the months gone by in a common year, the leap day of the year
  // once February is over, and the day of the month.
  function DayCount(year: int, month: int, day: int): int
    requires 1 <= month <= 12
  {
    365 * (year - 1) + (year - 1) / 4 - (year - 1) / 100 + (year - 1) / 400
    + [0, 31, 59, 90, 120, 151, 181, 212, 243, 273, 304, 334][month - 1]
    + (if month > 2 && year % 4 == 0 && (year % 100 != 0 || year % 400 == 0) then 1 else 0)
    + day
  }

  lemma MonthPasses(year: nat, month: nat)
    requires 1 <= year && 1 <= month < 12
    ensures DayCount(year, month + 1, 1) == DayCount(year, month, DaysIn(year, month)) + 1
  {
  }

  lemma DivisorPasses(n: int, d: int)
    requires 0 < d
    ensures n / d == (n - 1) / d + (if n % d == 0 then 1 else 0)
  {
    var q, r := n / d, n % d;
    if r == 0 {
      Quotient(n - 1, d, q - 1, d - 1);
    } else {
      Quotient(n - 1, d, q, r - 1);
    }
  }

  lemma YearPasses(year: nat)
    requires 1 < year
    ensures DayCount(year, 1, 1) == DayCount(year - 1, 12, 31) + 1
  {
    DivisorPasses(year - 1, 4);
    DivisorPasses(year - 1, 100);
    DivisorPasses(year - 1, 400);
  }

  /** A date falls on the day that counting by years, months and leap days gives. */
  lemma {:induction false} OrdinalIsDayCount(d: Date)
    requires ValidDate(d)
    ensures Ordinal(d) == DayCount(d.year, d.month, d.day)
    decreases d.year, d.month, d.day
  {
    if d != FIRST_DATE {
      var p := PreviousDate(d);
      OrdinalIsDayCount(p);
      if d.day == 1 {
        if d.month == 1 { YearPasses(d.year); } else { MonthPasses(d.year, d.month - 1); }
      }
    }
  }

  predicate Earlier(a: Date, b: Date) {
    a.year < b.year || (a.year == b.year && (a.month < b.month || (a.month == b.month && a.day < b.day)))
  }

  /** Dates follow one another in the order of their days. */
  lemma {:induction false} CivilIncreases(n: int, m: int)
    requires 1 <= n < m
    ensures Earlier(Civil(n), Civil(m))
    decreases m
  {
    if n < m - 1 {
      CivilIncreases(n, m - 1);
    }
  }

  lemma CivilInjective(n: int, m: int)
    requires 1 <= n && 1 <= m && Civil(n) == Civil(m)
    ensures n == m
  {
    OrdinalOfCivil(n);
    OrdinalOfCivil(m);
  }

  /** And a day has the date for which counting gives it. */
  lemma CivilIsDayCount(n: int, d: Date)
    requires ValidDate(d) && n == DayCount(d.year, d.month, d.day)
    ensures 1 <= n && Civil(n) == d
  {
    OrdinalIsDayCount(d);
    CivilOfOrdinal(d);
  }

  /** 29 February comes in leap years and in no others. */
  lemma LeapDaysIff(year: nat)
    requires 1 <= year
    ensures ValidDate(Date(year, 2, 29)) <==> year % 4 == 0 && (year % 100 != 0 || year % 400 == 0)
  {
    MonthPasses(year, 2);
  }

  predicate SameMonth(a: Date, b: Date) {
    a.year == b.year && a.month == b.month
  }

  // `replace(day=1)`.
  function FirstOfMonth(n: int): int
    requires 1 <= n
  {
    n - (Civil(n).day - 1)
  }

  lemma {:induction false} FirstOfMonthIsFirst(n: int)
    requires 1 <= n
    ensures 1 <= FirstOfMonth(n) <= n
    ensures Civil(FirstOfMonth(n)) == Date(Civil(n).year, Civil(n).month, 1)
    decreases n
  {
    if Civil(n).day > 1 {
      FirstOfMonthIsFirst(n - 1);
    }
  }

  /** The days up to `n` that share its month are those from the first of the month on. */
  lemma MonthIsInterval(n: int, k: int)
    requires 1 <= k <= n
    ensures SameMonth(Civil(k), Civil(n)) <==> FirstOfMonth(n) <= k
  {
    FirstOfMonthIsFirst(n);
    var first := FirstOfMonth(n);
    if k < first {
      CivilIncreases(k, first);
    } else {
      if first < k { CivilIncreases(first, k); }
      if k < n { CivilIncreases(k, n); }
    }
  }

  /** `_get_last_day`: midnight of the day before. */
  function LastDay(t: Time): Time {
    OrdinalOf(t - DAY) * DAY
  }

  /** `_get_last_month`: midnight of the first day of the month before. */
  function LastMonth(t: Time): Time
    requires 1 <= OrdinalOf(t) && 1 <= FirstOfMonth(OrdinalOf(t)) - 1
  {
    FirstOfMonth(FirstOfMonth(OrdinalOf(t)) - 1) * DAY
  }

  /** Both are midnights, of the day before and of a first of a month. */
  lemma StartsAreMidnights(t: Time)
    requires 2 <= OrdinalOf(t) && 1 <= FirstOfMonth(OrdinalOf(t)) - 1
    ensures LastDay(t) == (OrdinalOf(t) - 1) * DAY
    ensures var last := OrdinalOf(LastMonth(t));
      LastMonth(t) == last * DAY && 1 <= last && Civil(last).day == 1 && last < FirstOfMonth(OrdinalOf(t))
  {
    var m := FirstOfMonth(FirstOfMonth(OrdinalOf(t)) - 1);
    FirstOfMonthIsFirst(FirstOfMonth(OrdinalOf(t)) - 1);
    Quotient(m * DAY, DAY, m, 0);
    Quotient(t - DAY, DAY, OrdinalOf(t) - 1, t % DAY);
  }
}
