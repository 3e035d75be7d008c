/**
 The keys of hourly balances. Searching for the newest balance relies on three facts about these
 strings: a day's prefix selects exactly that day's hours, a month's prefix exactly that month's, and
 the keys sort in the order of time.
 */
module BalanceKeys {
  import opened Calendar
  import opened Digits
  import opened LineItemKeys
  import opened Wrappers

  // Hours are counted like days: hour `h` runs from `h * HOUR`, in day `h / 24`.
  predicate KeyableHour(h: int) {
    24 <= h && Civil(h / 24).year <= 9999
  }

  // "%4d" pads the year with blanks, `isoformat` with zeros: the two agree from the year 1000 on.
  predicate PrefixableDay(n: int) {
    1 <= n && 1000 <= Civil(n).year <= 9999
  }

  function HourText(h: int): string
    requires KeyableHour(h)
  {
    IsoDate(Civil(h / 24)) + "T" + Print(h % 24, 2)
  }

  /** `_get_key_from_hour`. */
  function HourKey(start: string, h: int): string
    requires KeyableHour(h)
  {
    start + "/" + HourText(h)
  }

  function DayText(n: int): string
    requires PrefixableDay(n)
  {
    Print(Civil(n).year, 4) + "-" + Print(Civil(n).month, 2) + "-" + Print(Civil(n).day, 2)
  }

  /** `_get_key_from_day`. */
  function DayKey(start: string, n: int): string
    requires PrefixableDay(n)
  {
    start + "/" + DayText(n)
  }

  function MonthText(n: int): string
    requires PrefixableDay(n)
  {
    Print(Civil(n).year, 4) + "-" + Print(Civil(n).month, 2)
  }

  /** `_get_key_from_month`. */
  function MonthKey(start: string, n: int): string
    requires PrefixableDay(n)
  {
    start + "/" + MonthText(n)
  }

  // ------------------------------------------------------------ prefixes

  lemma PrintInjective(a: nat, b: nat, w: nat)
    requires a < Pow10(w) && b < Pow10(w) && Print(a, w) == Print(b, w)
    ensures a == b
  {
    ParsePrint(a, w);
    ParsePrint(b, w);
  }

  lemma PrefixAfter(start: string, a: string, b: string)
    ensures start + "/" + a <= start + "/" + b <==> a <= b
  {
    var p := start + "/";
    assert forall i :: 0 <= i < |a| ==> (p + a)[|p| + i] == a[i];
    assert forall i :: 0 <= i < |b| ==> (p + b)[|p| + i] == b[i];
    if a <= b {
      assert p + b == p + a + b[|a|..];
    }
    if p + a <= p + b {
      assert |a| <= |b|;
      forall i | 0 <= i < |a| ensures a[i] == b[i] {
        assert (p + a)[|p| + i] == (p + b)[|p| + i];
      }
    }
  }

  lemma DateSlices(y: string, m: string, d: string, rest: string)
    requires |y| == 4 && |m| == |d| == 2
    ensures var s := y + "-" + m + "-" + d + rest;
      |s| >= 10 && s[..4] == y && s[5..7] == m && s[8..10] == d && s[..7] == y + "-" + m
          && s[..10] == y + "-" + m + "-" + d
  {
  }

  lemma MonthSlices(y: string, m: string)
    requires |y| == 4 && |m| == 2
    ensures var s := y + "-" + m;
      |s| == 7 && s[..4] == y && s[5..7] == m
  {
  }

  /** The text of an hour starts with the text of a day exactly when the hour is in the day. */
  lemma DayTextIsPrefix(n: int, h: int)
    requires PrefixableDay(n) && KeyableHour(h)
    ensures DayText(n) <= HourText(h) <==> h / 24 == n
  {
    var a, b := Civil(n), Civil(h / 24);
    assert Pow10(2) == 100 && Pow10(4) == 10000;
    DateSlices(Print(a.year, 4), Print(a.month, 2), Print(a.day, 2), "");
    DateSlices(Print(b.year, 4), Print(b.month, 2), Print(b.day, 2), "T" + Print(h % 24, 2));
    assert HourText(h) == Print(b.year, 4) + "-" + Print(b.month, 2) + "-" + Print(b.day, 2) + ("T" + Print(h % 24, 2));
    if DayText(n) <= HourText(h) {
      assert HourText(h)[..10] == DayText(n);
      PrintInjective(a.year, b.year, 4);
      PrintInjective(a.month, b.month, 2);
      PrintInjective(a.day, b.day, 2);
      CivilInjective(n, h / 24);
    }
  }

  lemma MonthTextIsPrefix(n: int, h: int)
    requires PrefixableDay(n) && KeyableHour(h)
    ensures MonthText(n) <= HourText(h) <==> SameMonth(Civil(h / 24), Civil(n))
  {
    var a, b := Civil(n), Civil(h / 24);
    assert Pow10(2) == 100 && Pow10(4) == 10000;
    MonthSlices(Print(a.year, 4), Print(a.month, 2));
    DateSlices(Print(b.year, 4), Print(b.month, 2), Print(b.day, 2), "T" + Print(h % 24, 2));
    assert HourText(h) == Print(b.year, 4) + "-" + Print(b.month, 2) + "-" + Print(b.day, 2) + ("T" + Print(h % 24, 2));
    if MonthText(n) <= HourText(h) {
      assert HourText(h)[..7] == MonthText(n);
      PrintInjective(a.year, b.year, 4);
      PrintInjective(a.month, b.month, 2);
    }
  }

  lemma DayPrefixSelects(start: string, n: int, h: int)
    requires PrefixableDay(n) && KeyableHour(h)
    ensures DayKey(start, n) <= HourKey(start, h) <==> h / 24 == n
  {
    PrefixAfter(start, DayText(n), HourText(h));
    DayTextIsPrefix(n, h);
  }

  lemma MonthPrefixSelects(start: string, n: int, h: int)
    requires PrefixableDay(n) && KeyableHour(h)
    ensures MonthKey(start, n) <= HourKey(start, h) <==> SameMonth(Civil(h / 24), Civil(n))
  {
    PrefixAfter(start, MonthText(n), HourText(h));
    MonthTextIsPrefix(n, h);
  }

  // ------------------------------------------------------------ order

  // The first number decides, or else what follows it.
  lemma FieldSorts(n: nat, m: nat, w: nat, x: string, y: string)
    requires n < Pow10(w) && m < Pow10(w)
    ensures n < m ==> Before(Print(n, w) + x, Print(m, w) + y)
    ensures n == m ==> Before(Print(n, w) + x, Print(m, w) + y) == Before(x, y)
  {
    if n < m {
      PrintSorts(n, m, w, x, y);
    } else if n == m {
      BeforeAfterPrefix(Print(n, w), x, y);
    }
  }

  lemma DateReads(y: string, m: string, d: string, x: string)
    ensures (y + "-" + m + "-" + d) + x == y + ("-" + (m + ("-" + (d + x))))
  {
  }

  lemma DatesSort(a: Date, b: Date, x: string, y: string)
    requires ValidDate(a) && ValidDate(b) && a.year <= 9999 && b.year <= 9999
    ensures Earlier(a, b) ==> Before(IsoDate(a) + x, IsoDate(b) + y)
    ensures a == b ==> Before(IsoDate(a) + x, IsoDate(b) + y) == Before(x, y)
  {
    assert Pow10(2) == 100 && Pow10(4) == 10000;
    var ad, bd := Print(a.day, 2) + x, Print(b.day, 2) + y;
    var am, bm := Print(a.month, 2) + ("-" + ad), Print(b.month, 2) + ("-" + bd);
    DateReads(Print(a.year, 4), Print(a.month, 2), Print(a.day, 2), x);
    DateReads(Print(b.year, 4), Print(b.month, 2), Print(b.day, 2), y);
    FieldSorts(a.year, b.year, 4, "-" + am, "-" + bm);
    BeforeAfterPrefix("-", am, bm);
    FieldSorts(a.month, b.month, 2, "-" + ad, "-" + bd);
    BeforeAfterPrefix("-", ad, bd);
    FieldSorts(a.day, b.day, 2, x, y);
  }

  lemma HourReads(date: string, hour: string)
    ensures date + "T" + hour == date + ("T" + (hour + ""))
  {
  }

  /** The keys of hourly balances sort in the order of time. */
  lemma HourKeysSort(start: string, h: int, k: int)
    requires KeyableHour(h) && KeyableHour(k) && h < k
    ensures Before(HourKey(start, h), HourKey(start, k))
  {
    var a, b := Civil(h / 24), Civil(k / 24);
    var x, y := Print(h % 24, 2) + "", Print(k % 24, 2) + "";
    HourReads(IsoDate(a), Print(h % 24, 2));
    HourReads(IsoDate(b), Print(k % 24, 2));
    BeforeAfterPrefix(start + "/", HourText(h), HourText(k));
    DatesSort(a, b, "T" + x, "T" + y);
    BeforeAfterPrefix("T", x, y);
    assert Pow10(2) == 100;
    if h / 24 < k / 24 {
      CivilIncreases(h / 24, k / 24);
    } else {
      PrintSorts(h % 24, k % 24, 2, "", "");
    }
  }

  // ------------------------------------------------------------ reading the hour off a key

  // The pattern four digits, two digits, two digits, 'T', two digits.
  predicate LooksLikeHour(s: string) {
    |s| == 13 && LooksLikeDate(s[..10]) && s[10] == 'T' && AllDigits(s[11..])
  }

  // The first place from `i` on where the pattern stands.
  function FindHour(key: string, i: nat): (found: Option<string>)
    requires i <= |key|
    ensures found.Some? ==> LooksLikeHour(found.value)
    decreases |key| - i
  {
    if i + 13 > |key| then None
    else if LooksLikeHour(key[i..i + 13]) then Some(key[i..i + 13])
    else FindHour(key, i + 1)
  }

  function ParseHour(s: string): Option<int>
    requires LooksLikeHour(s)
  {
    match ParseIsoDate(s[..10])
    case None => None
    case Some(d) => if Parse(s[11..]) < 24 then Some(Ordinal(d) * 24 + Parse(s[11..])) else None
  }

  /** `_get_hour_from_key`. */
  function HourFromKey(key: string): Option<int> {
    match FindHour(key, 0)
    case None => None
    case Some(s) => ParseHour(s)
  }

  lemma HourSlices(date: string, hour: string)
    requires |date| == 10 && |hour| == 2
    ensures var s := date + "T" + hour;
      |s| == 13 && s[..10] == date && s[10] == 'T' && s[11..] == hour
  {
  }

  lemma ParseHourParts(date: string, hour: string, n: int)
    requires |date| == 10 && |hour| == 2 && 1 <= n && AllDigits(hour) && Parse(hour) < 24
    requires ParseIsoDate(date) == Some(Civil(n)) && Ordinal(Civil(n)) == n
    ensures LooksLikeHour(date + "T" + hour)
    ensures ParseHour(date + "T" + hour) == Some(n * 24 + Parse(hour))
  {
    HourSlices(date, hour);
  }

  lemma ParseHourText(h: int)
    requires KeyableHour(h)
    ensures LooksLikeHour(HourText(h)) && ParseHour(HourText(h)) == Some(h)
  {
    var n, date, hour := h / 24, IsoDate(Civil(h / 24)), Print(h % 24, 2);
    assert |date| == 10 && ParseIsoDate(date) == Some(Civil(n)) by { ParsePrintedDate(Civil(n)); }
    assert Ordinal(Civil(n)) == n by { OrdinalOfCivil(n); }
    assert Parse(hour) == h % 24 by {
      assert Pow10(2) == 100;
      ParsePrint(h % 24, 2);
    }
    ParseHourParts(date, hour, n);
  }

  lemma {:induction false} FindSkips(key: string, i: nat, k: nat)
    requires i <= k && k + 13 <= |key| && LooksLikeHour(key[k..k + 13])
    requires forall j :: i + 10 <= j < k + 10 ==> key[j] != 'T'
    ensures FindHour(key, i) == Some(key[k..k + 13])
    decreases k - i
  {
    if i < k {
      assert key[i..i + 13][10] == key[i + 10];
      FindSkips(key, i + 1, k);
    }
  }

  /** The hour a key was made for is the hour read back, as long as no 'T' comes before it. */
  lemma HourRoundTrip(start: string, h: int)
    requires KeyableHour(h) && 'T' !in start
    ensures HourFromKey(HourKey(start, h)) == Some(h)
  {
    var key, k := HourKey(start, h), |start| + 1;
    ParseHourText(h);
    assert key[k..k + 13] == HourText(h);
    NoTInDate(Civil(h / 24));
    forall j | 10 <= j < k + 10 ensures key[j] != 'T' {
      if j >= k {
        assert key[j] == HourText(h)[j - k] == IsoDate(Civil(h / 24))[j - k];
      }
    }
    FindSkips(key, 0, k);
  }

  lemma NoTInDate(d: Date)
    ensures 'T' !in IsoDate(d)
  {
  }

  // ------------------------------------------------------------ keys in full

  /** The keys of an hour, its day and its month, field by field. */
  lemma HourKeyInFields(start: string, n: int, d: Date, hour: nat)
    requires ValidDate(d) && 1000 <= d.year <= 9999 && hour < 24 && n == DayCount(d.year, d.month, d.day)
    ensures 1 <= n && KeyableHour(n * 24 + hour) && PrefixableDay(n)
    ensures MonthKey(start, n) == start + "/" + (Print(d.year, 4) + "-" + Print(d.month, 2))
    ensures DayKey(start, n) == start + "/" + (Print(d.year, 4) + "-" + Print(d.month, 2) + "-" + Print(d.day, 2))
    ensures HourKey(start, n * 24 + hour) ==
      start + "/" + (Print(d.year, 4) + "-" + Print(d.month, 2) + "-" + Print(d.day, 2) + "T" + Print(hour, 2))
  {
    CivilIsDayCount(n, d);
    Quotient(n * 24 + hour, 24, n, hour);
  }
}
