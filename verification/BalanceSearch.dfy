/**
 Which stored hourly balance a query starts from: the search through today, yesterday, yesterday's month
 and the months before it, on the hours for which a balance is stored.
 */
module BalanceSearch {
  import opened BalanceKeys
  import opened Calendar
  import opened Wrappers

  // How many months before yesterday's the search goes through.
  const MONTHS_BACK := 6

  ghost function AnyOf<T>(s: set<T>): (x: T)
    requires s != {}
    ensures x in s
  {
    var x :| x in s;
    x
  }

  ghost function MaxOf(s: set<int>): (m: int)
    requires s != {}
    ensures m in s && forall x :: x in s ==> x <= m
    decreases s
  {
    var x := AnyOf(s);
    var rest := s - {x};
    if rest == {} then
      assert s == {x};
      x
    else
      assert s == {x} + rest;
      var m := MaxOf(rest);
      if x < m then m else x
  }

  function DayHours(hours: set<int>, n: int): set<int> {
    set h | h in hours && h / 24 == n
  }

  function MonthHours(hours: set<int>, n: int): set<int>
    requires 1 <= n
  {
    set h | h in hours && KeyableHour(h) && SameMonth(Civil(h / 24), Civil(n))
  }

  // Months counted like days.
  function MonthIndex(n: int): int
    requires 1 <= n
  {
    Civil(n).year * 12 + Civil(n).month
  }

  // The first day of the month before the month of day `n`.
  function MonthBefore(n: int): (m: int)
    requires 1 <= n && 13 < MonthIndex(n)
    ensures 1 <= m && FirstOfMonth(m) == m && MonthIndex(m) == MonthIndex(n) - 1
    ensures m < FirstOfMonth(n) && FirstOfMonth(FirstOfMonth(n) - 1) == m
  {
    FirstOfMonthIsFirst(n);
    FirstOfMonthIsFirst(FirstOfMonth(n) - 1);
    FirstOfMonth(FirstOfMonth(n) - 1)
  }

  // A day from which the search can go back `months` months without leaving the years that "%4d" and
  // `isoformat` write alike.
  predicate Searchable(n: int, months: nat) {
    1 <= n && Civil(n).year <= 9999 && 12 * 1000 + months < MonthIndex(n)
  }

  lemma SearchablePrefixable(n: int, months: nat)
    requires Searchable(n, months)
    ensures PrefixableDay(n)
    ensures 0 < months ==> Searchable(MonthBefore(n), months - 1)
  {
  }

  // A day on which a balance can be asked for.
  predicate QueryDay(n: int, months: nat) {
    PrefixableDay(n) && Searchable(n - 1, months)
  }

  ghost function SearchMonths(hours: set<int>, n: int, months: nat): Option<int>
    requires Searchable(n, months)
    decreases months
  {
    if MonthHours(hours, n) != {} then Some(MaxOf(MonthHours(hours, n)))
    else if months == 0 then None
    else
      SearchablePrefixable(n, months);
      SearchMonths(hours, MonthBefore(n), months - 1)
  }

  /** The stored hour `_find_last_balance_key` returns on day `n`; none means the beginning of time. */
  ghost function SearchHour(hours: set<int>, n: int, months: nat): Option<int>
    requires QueryDay(n, months)
  {
    if DayHours(hours, n) != {} then Some(MaxOf(DayHours(hours, n)))
    else if DayHours(hours, n - 1) != {} then Some(MaxOf(DayHours(hours, n - 1)))
    else SearchMonths(hours, n - 1, months)
  }

  // ------------------------------------------------------------ the search finds the newest

  /** The first day of the window: `months` whole months before the month of day `n`. */
  function WindowStart(n: int, months: nat): (first: int)
    requires Searchable(n, months)
    ensures 1 <= first <= FirstOfMonth(n)
    decreases months
  {
    FirstOfMonthIsFirst(n);
    if months == 0 then FirstOfMonth(n)
    else
      SearchablePrefixable(n, months);
      WindowStart(MonthBefore(n), months - 1)
  }

  predicate AllBefore(hours: set<int>, day: int) {
    forall h :: h in hours ==> h / 24 < day
  }

  // The newest stored hour, when it is not before the given day.
  ghost function NewestFrom(hours: set<int>, day: int): Option<int> {
    if hours != {} && day <= MaxOf(hours) / 24 then Some(MaxOf(hours)) else None
  }

  // Hours of the newest day or month are newer than all the others.
  lemma FoundIsNewest(hours: set<int>, found: set<int>, day: int)
    requires found != {} && found <= hours
    requires forall h :: h in hours ==> (h in found <==> day <= h / 24)
    ensures MaxOf(found) == MaxOf(hours) && day <= MaxOf(hours) / 24
  {
    assert MaxOf(found) in hours;
    assert MaxOf(found) <= MaxOf(hours);
    assert MaxOf(found) / 24 <= MaxOf(hours) / 24;
  }

  lemma MonthFound(hours: set<int>, n: int)
    requires 1 <= n && AllBefore(hours, n + 1) && forall h :: h in hours ==> KeyableHour(h)
    ensures forall h :: h in hours ==> (h in MonthHours(hours, n) <==> FirstOfMonth(n) <= h / 24)
  {
    forall h | h in hours
      ensures h in MonthHours(hours, n) <==> FirstOfMonth(n) <= h / 24
    {
      MonthIsInterval(n, h / 24);
    }
  }

  // A month's hours are the same whichever of its days names it.
  lemma MonthHoursOfFirst(hours: set<int>, n: int)
    requires 1 <= n && 1 <= FirstOfMonth(n)
    ensures MonthHours(hours, FirstOfMonth(n)) == MonthHours(hours, n)
  {
    FirstOfMonthIsFirst(n);
  }

  // No stored hour falls between two months searched one after the other.
  lemma {:induction false} SearchMonthsFindsNewest(hours: set<int>, n: int, last: int, months: nat)
    requires Searchable(n, months) && n <= last && FirstOfMonth(last) == FirstOfMonth(n)
    requires AllBefore(hours, last + 1) && forall h :: h in hours ==> KeyableHour(h)
    ensures SearchMonths(hours, n, months) == NewestFrom(hours, WindowStart(n, months))
    decreases months
  {
    var first := FirstOfMonth(n);
    FirstOfMonthIsFirst(n);
    MonthHoursOfFirst(hours, n);
    MonthHoursOfFirst(hours, last);
    MonthFound(hours, last);
    if MonthHours(hours, n) != {} {
      FoundIsNewest(hours, MonthHours(hours, n), first);
    } else if months > 0 {
      SearchablePrefixable(n, months);
      MonthBeforeEndsAt(n);
      SearchMonthsFindsNewest(hours, MonthBefore(n), first - 1, months - 1);
    }
  }

  lemma MonthBeforeEndsAt(n: int)
    requires 1 <= n && 13 < MonthIndex(n)
    ensures MonthBefore(n) <= FirstOfMonth(n) - 1
    ensures FirstOfMonth(FirstOfMonth(n) - 1) == FirstOfMonth(MonthBefore(n))
  {
  }

  /** When no stored hour lies after day `n`, the search returns the newest stored hour if that lies within
      the window, and none otherwise: nothing between two searched prefixes is missed. */
  lemma SearchFindsNewest(hours: set<int>, n: int, months: nat)
    requires QueryDay(n, months) && AllBefore(hours, n + 1)
    requires forall h :: h in hours ==> KeyableHour(h)
    ensures SearchHour(hours, n, months) == NewestFrom(hours, WindowStart(n - 1, months))
  {
    FirstOfMonthIsFirst(n - 1);
    if DayHours(hours, n) != {} {
      FoundIsNewest(hours, DayHours(hours, n), n);
    } else {
      assert AllBefore(hours, n) by {
        forall h | h in hours ensures h / 24 < n {
          assert h !in DayHours(hours, n);
        }
      }
      if DayHours(hours, n - 1) != {} {
        FoundIsNewest(hours, DayHours(hours, n - 1), n - 1);
      } else {
        SearchMonthsFindsNewest(hours, n - 1, n - 1, months);
      }
    }
  }

  lemma {:induction false} WindowStartIsFirst(n: int, months: nat)
    requires Searchable(n, months)
    ensures var first := WindowStart(n, months);
      FirstOfMonth(first) == first && MonthIndex(first) == MonthIndex(n) - months
    decreases months
  {
    FirstOfMonthIsFirst(n);
    FirstOfMonthIsFirst(FirstOfMonth(n));
    if months > 0 {
      SearchablePrefixable(n, months);
      WindowStartIsFirst(MonthBefore(n), months - 1);
    }
  }

  // A day is not before the first of a month exactly when its month is not before that month.
  lemma NotBeforeMonthIff(first: int, day: int)
    requires 1 <= first && 1 <= day && FirstOfMonth(first) == first
    ensures first <= day <==> MonthIndex(first) <= MonthIndex(day)
  {
    FirstOfMonthIsFirst(first);
    if first < day {
      CivilIncreases(first, day);
    } else if day < first {
      CivilIncreases(day, first);
    }
  }

  /** A search on day `n` finds a stored balance exactly when the newest one is of no earlier month than the
      sixth before yesterday's. */
  lemma SixMonthsAreSearched(hours: set<int>, n: int, newest: int)
    requires QueryDay(n, MONTHS_BACK) && AllBefore(hours, n + 1) && KeyableHour(newest)
    requires newest in hours && forall h :: h in hours ==> KeyableHour(h) && h <= newest
    ensures SearchHour(hours, n, MONTHS_BACK) ==
      if MonthIndex(n - 1) - 6 <= MonthIndex(newest / 24) then Some(newest) else None
  {
    SearchInMonths(hours, n, MONTHS_BACK, newest);
  }

  lemma SearchInMonths(hours: set<int>, n: int, months: nat, newest: int)
    requires QueryDay(n, months) && AllBefore(hours, n + 1) && KeyableHour(newest)
    requires newest in hours && forall h :: h in hours ==> KeyableHour(h) && h <= newest
    ensures SearchHour(hours, n, months) ==
      if MonthIndex(n - 1) - months <= MonthIndex(newest / 24) then Some(newest) else None
  {
    var first := WindowStart(n - 1, months);
    assert SearchHour(hours, n, months) == NewestFrom(hours, first) by { SearchFindsNewest(hours, n, months); }
    assert FirstOfMonth(first) == first && MonthIndex(first) == MonthIndex(n - 1) - months by {
      WindowStartIsFirst(n - 1, months);
    }
    NotBeforeMonthIff(first, newest / 24);
    assert MaxOf(hours) == newest;
  }
}
