/** An account: it finds its balance by searching the object store and remembers what it found. */
module AccountService {
  import opened AccountStore
  import opened BalanceCache
  import opened BalanceKeys
  import opened BalanceSearch
  import opened Balances
  import opened Calendar
  import opened Digits
  import opened LineItemKeys
  import opened Wrappers

  class Bucket {
    var objects: Objects

    constructor ()
      ensures objects == map[]
    {
      objects := map[];
    }

    method SetObject(key: string, data: StoredObject)
      modifies this
      ensures objects == old(objects)[key := data]
    {
      objects := objects[key := data];
    }

    method GetObject(key: string) returns (data: Option<StoredObject>)
      ensures data == if key in objects then Some(objects[key]) else None
    {
      data := if key in objects then Some(objects[key]) else None;
    }

    /** The names of the objects under a prefix, in no particular order. */
    method GetAllObjectNames(prefix: string) returns (names: seq<string>)
      ensures Found(names, objects.Keys, prefix)
    {
      names := [];
      var left := objects.Keys;
      while left != {}
        invariant left <= objects.Keys
        invariant Found(names, objects.Keys - left, prefix)
        decreases left
      {
        var key :| key in left;
        left := left - {key};
        if prefix <= key {
          names := names + [key];
        }
      }
    }
  }

  /** The last of a list of keys once it is sorted. */
  method Last(keys: seq<string>) returns (last: string)
    requires keys != []
    ensures last in keys && forall k :: k in keys ==> k == last || Before(k, last)
  {
    last := keys[0];
    for i := 1 to |keys|
      invariant last in keys[..i] && forall k :: k in keys[..i] ==> k == last || Before(k, last)
    {
      if Before(last, keys[i]) {
        AllBefore(keys[..i], last, keys[i]);
        last := keys[i];
      } else {
        BeforeTotal(last, keys[i]);
      }
    }
  }

  lemma AllBefore(keys: seq<string>, last: string, next: string)
    requires Before(last, next) && forall k :: k in keys ==> k == last || Before(k, last)
    ensures forall k :: k in keys ==> Before(k, next)
  {
    forall k | k in keys ensures Before(k, next) {
      if k != last {
        BeforeTransitive(k, last, next);
      }
    }
  }

  /** The last of the keys of hourly balances is the key of the newest. */
  lemma LastIsNewest(keys: seq<string>, start: string, hours: set<int>, last: string)
    requires Named(keys, HourName(start), HourFromKey, hours) && forall h :: h in hours ==> KeyableHour(h)
    requires last in keys && forall k :: k in keys ==> k == last || Before(k, last)
    ensures hours != {} && last == HourKey(start, MaxOf(hours))
  {
    var h := HourFromKey(last).value;
    assert h in hours && HourName(start)(h) == last;
    var newest := MaxOf(hours);
    assert HourName(start)(newest) in keys;
    if h < newest {
      HourKeysSort(start, h, newest);
      BeforeTransitiveIrreflexive(last, HourKey(start, newest));
    }
  }

  lemma BeforeTransitiveIrreflexive(a: string, b: string)
    requires Before(a, b)
    ensures a != b && !Before(b, a)
  {
    BeforeIrreflexive(a);
    if Before(b, a) {
      BeforeTransitive(a, b, a);
    }
  }

  /** The line items under a list of keys that are stamped after `start` and no later than `end`. */
  method Select(keys: seq<string>, start: Time, end: Time, ghost txns: string, ghost items: set<Item>)
    returns (transactions: seq<Item>)
    requires Named(keys, ItemName(txns), Decode, items)
    ensures Lists(transactions, Window(items, start, end))
  {
    transactions := [];
    for i := 0 to |keys|
      invariant forall x :: x in transactions <==> x in Window(items, start, end) && ItemName(txns)(x) in keys[..i]
      invariant Distinct(transactions)
    {
      var transaction := FromKey(keys[i]);
      assert keys[i] in keys;
      if transaction.Some? && transaction.value.stamp > start && transaction.value.stamp <= end {
        transactions := transactions + [transaction.value];
      }
    }
  }

  lemma ListsTogether(a: seq<Item>, b: seq<Item>, xs: set<Item>, ys: set<Item>)
    requires Lists(a, xs) && Lists(b, ys) && xs !! ys
    ensures Lists(a + b, xs + ys)
  {
    var c := a + b;
    forall i, j | 0 <= i < j < |c| ensures c[i] != c[j] {
      if i < |a| <= j {
        assert a[i] in xs && b[j - |a|] in ys;
      }
    }
  }

  // The line items of the window that are stamped before a day.
  function SearchedBefore(items: set<Item>, start: Time, end: Time, day: int): set<Item> {
    set i | i in items && start < i.stamp <= end && OrdinalOf(i.stamp) < day
  }

  lemma NothingSearched(items: set<Item>, start: Time, end: Time)
    ensures SearchedBefore(items, start, end, OrdinalOf(start)) == {}
  {
  }

  lemma OneMoreDay(items: set<Item>, start: Time, end: Time, day: int)
    ensures SearchedBefore(items, start, end, day + 1) ==
      SearchedBefore(items, start, end, day) + Window(OnDay(items, day), start, end)
    ensures SearchedBefore(items, start, end, day) !! Window(OnDay(items, day), start, end)
  {
  }

  lemma AllDaysSearched(items: set<Item>, start: Time, end: Time, day: int)
    requires DayByDay(start, end) && OrdinalOf(start) <= day && EndDay(end) < day
    requires day <= EndDay(end) + 1 || day == OrdinalOf(start)
    ensures SearchedBefore(items, start, end, day) == Between(items, start, end)
  {
    forall i | i in items && start < i.stamp <= end
      ensures OrdinalOf(i.stamp) < day <==> !Skipped(i, start, end)
    {
      MidnightSplits(i.stamp, end);
    }
  }

  lemma MidnightSplits(t: Time, end: Time)
    requires t <= end
    ensures OrdinalOf(t) <= EndDay(end) <==> !(end % DAY == 0 && t == end)
  {
  }

  lemma DayInYears(start: Time, end: Time, day: int)
    requires Stampable(start) && Stampable(end) && OrdinalOf(start) <= day <= EndDay(end)
    ensures 1 <= day && Civil(day).year <= 9999
  {
    if day < OrdinalOf(end) {
      CivilIncreases(day, OrdinalOf(end));
    }
  }

  class Account {
    const bucket: Bucket
    const uid: string
    const roots: Roots
    var lastUpdate: map<string, Update>

    // What the store and the account's memory hold under the account's roots.
    ghost predicate Holds(v: View)
      reads this, bucket
    {
      AccountStore.Shows(bucket.objects, lastUpdate, roots, v)
    }

    // And these are the roots of the account's own UID.
    ghost predicate Shows(v: View)
      reads this, bucket
    {
      AccountUid(uid) && roots == RootsOf(uid) && Holds(v)
    }

    /** An account loaded from the store remembers nothing. */
    constructor (uid: string, bucket: Bucket, ghost v: View)
      requires AccountUid(uid) && AccountStore.Shows(bucket.objects, map[], RootsOf(uid), v)
      ensures this.bucket == bucket && this.uid == uid && Shows(v)
    {
      this.bucket := bucket;
      this.uid := uid;
      roots := RootsOf(uid);
      lastUpdate := map[];
    }

    /** `_get_transactions_between`. */
    method TransactionsBetween(start: Time, end: Time, ghost v: View) returns (transactions: seq<Item>)
      requires Holds(v) && Stampable(start) && Stampable(end)
      ensures Lists(transactions, Between(v.items, start, end))
    {
      var startDay, endDay := OrdinalOf(start), OrdinalOf(end);
      if end % DAY == 0 {
        endDay := endDay - 1;
      }
      if endDay - startDay < 7 {
        transactions := [];
        NothingSearched(v.items, start, end);
        var day := startDay;
        while day < endDay + 1
          invariant startDay <= day && (day <= endDay + 1 || day == startDay)
          invariant Lists(transactions, SearchedBefore(v.items, start, end, day))
        {
          DayInYears(start, end, day);
          var keys := bucket.GetAllObjectNames(DayPrefix(roots.txns, day));
          DayItemsNamed(bucket.objects.Keys, roots.txns, v.items, day, keys);
          var found := Select(keys, start, end, roots.txns, OnDay(v.items, day));
          OneMoreDay(v.items, start, end, day);
          ListsTogether(transactions, found,
                        SearchedBefore(v.items, start, end, day), Window(OnDay(v.items, day), start, end));
          transactions := transactions + found;
          day := day + 1;
        }
        AllDaysSearched(v.items, start, end, day);
      } else {
        var keys := bucket.GetAllObjectNames(roots.txns);
        AllItemsNamed(bucket.objects.Keys, roots.txns, v.items, keys);
        transactions := Select(keys, start, end, roots.txns, v.items);
        assert Window(v.items, start, end) == Between(v.items, start, end);
      }
    }

    /** The key of the newest hourly balance under a prefix, if there is any. */
    method LastUnder(prefix: string, ghost v: View, ghost hours: set<int>) returns (key: Option<string>)
      requires Holds(v) && roots.balances <= prefix
      requires forall h :: h in hours <==> h in v.stored && KeyableHour(h) && prefix <= HourKey(roots.balances, h)
      ensures key.None? <==> hours == {}
      ensures key.Some? ==> KeyableHour(MaxOf(hours)) && key.value == HourKey(roots.balances, MaxOf(hours))
    {
      var keys := bucket.GetAllObjectNames(prefix);
      HoursNamed(bucket.objects, roots.balances, v.stored, prefix, keys, hours);
      if |keys| > 0 {
        var last := Last(keys);
        LastIsNewest(keys, roots.balances, hours, last);
        return Some(last);
      }
      forall h ensures h !in hours {
        assert h in hours ==> HourName(roots.balances)(h) in keys;
      }
      return None;
    }

    // Hours of a month, or day, that the search has just looked through.
    method SearchDay(n: int, ghost v: View) returns (key: Option<string>)
      requires Holds(v) && PrefixableDay(n)
      ensures key.None? <==> DayHours(v.stored.Keys, n) == {}
      ensures key.Some? ==>
        var h := MaxOf(DayHours(v.stored.Keys, n));
        KeyableHour(h) && key.value == HourKey(roots.balances, h)
    {
      PrefixOfDay(roots.balances, v.stored, n);
      key := LastUnder(DayKey(roots.balances, n), v, DayHours(v.stored.Keys, n));
    }

    method SearchMonth(n: int, ghost v: View) returns (key: Option<string>)
      requires Holds(v) && PrefixableDay(n)
      ensures key.None? <==> MonthHours(v.stored.Keys, n) == {}
      ensures key.Some? ==>
        var h := MaxOf(MonthHours(v.stored.Keys, n));
        KeyableHour(h) && key.value == HourKey(roots.balances, h)
    {
      PrefixOfMonth(roots.balances, v.stored, n);
      key := LastUnder(MonthKey(roots.balances, n), v, MonthHours(v.stored.Keys, n));
    }

    // Yesterday's month, and then the months before it.
    method SearchMonthsBack(yesterday: Time, months: nat, ghost v: View) returns (key: Option<string>, time: Time)
      requires Holds(v) && Searchable(OrdinalOf(yesterday), months)
      ensures KeyOf(key, SearchMonths(v.stored.Keys, OrdinalOf(yesterday), months))
      ensures key.None? ==> PrefixableDay(OrdinalOf(time)) && MonthHours(v.stored.Keys, OrdinalOf(time)) == {}
    {
      time := yesterday;
      SearchablePrefixable(OrdinalOf(time), months);
      key := SearchMonth(OrdinalOf(time), v);
      if key.Some? {
        return;
      }
      var left := months;
      while left > 0
        invariant 0 <= left && Searchable(OrdinalOf(time), left)
        invariant MonthHours(v.stored.Keys, OrdinalOf(time)) == {} && key.None?
        invariant SearchMonths(v.stored.Keys, OrdinalOf(yesterday), months) ==
          SearchMonths(v.stored.Keys, OrdinalOf(time), left)
      {
        OneMonthBack(v.stored.Keys, time, left);
        time := LastMonth(time);
        left := left - 1;
        key := SearchMonth(OrdinalOf(time), v);
        if key.Some? {
          return;
        }
      }
      SearchablePrefixable(OrdinalOf(time), left);
    }

    ghost predicate KeyOf(key: Option<string>, hour: Option<int>) {
      if hour.None? then key.None? else KeyableHour(hour.value) && key == Some(HourKey(roots.balances, hour.value))
    }

    // Yesterday, the months, and then "any" balance.
    method SearchEarlier(yesterday: Time, months: nat, ghost v: View, ghost n: int) returns (key: Option<string>)
      requires Holds(v) && n == OrdinalOf(yesterday) && Searchable(n, months)
      ensures var hours := DayHours(v.stored.Keys, n);
        KeyOf(key, if hours != {} then Some(MaxOf(hours)) else SearchMonths(v.stored.Keys, n, months))
    {
      SearchablePrefixable(n, months);
      key := SearchDay(OrdinalOf(yesterday), v);
      if key.Some? {
        return;
      }
      var time: Time;
      key, time := SearchMonthsBack(yesterday, months, v);
      if key.None? {
        // the prefix is still that of the last month searched, so again nothing is found
        key := SearchMonth(OrdinalOf(time), v);
      }
    }

    method SearchFromYesterday(now: Time, months: nat, ghost v: View, ghost n: int) returns (key: Option<string>)
      requires Holds(v) && n == OrdinalOf(now) - 1 && Searchable(n, months)
      ensures var hours := DayHours(v.stored.Keys, n);
        KeyOf(key, if hours != {} then Some(MaxOf(hours)) else SearchMonths(v.stored.Keys, n, months))
    {
      DayBefore(now);
      key := SearchEarlier(LastDay(now), months, v, n);
    }

    // Today, then everything before it.
    method SearchFrom(today: int, now: Time, months: nat, ghost v: View) returns (key: Option<string>)
      requires Holds(v) && today == OrdinalOf(now) && QueryDay(today, months)
      ensures KeyOf(key, SearchHour(v.stored.Keys, today, months))
    {
      ghost var hours := v.stored.Keys;
      key := SearchDay(today, v);
      if key.Some? {
        assert SearchHour(hours, today, months) == Some(MaxOf(DayHours(hours, today)));
        return;
      }
      key := SearchFromYesterday(now, months, v, today - 1);
      SearchSteps(hours, today, months);
    }

    /** The search proper: the key of the newest hourly balance in the window, if there is any. */
    method SearchStored(now: Time, months: nat, ghost v: View) returns (key: Option<string>)
      requires Holds(v) && QueryDay(OrdinalOf(now), months)
      ensures KeyOf(key, SearchHour(v.stored.Keys, OrdinalOf(now), months))
    {
      key := SearchFrom(OrdinalOf(now), now, months, v);
    }

    /** `_find_last_balance_key`. */
    method FindLastBalanceKey(now: Time, ghost v: View) returns (key: string)
      requires Shows(v) && QueryTime(now)
      modifies bucket
      ensures Shows(AfterSearch(v, now)) && OthersKept(old(bucket.objects), bucket.objects, uid)
      ensures KeyableHour(LastHour(v, now)) && key == HourKey(roots.balances, LastHour(v, now))
    {
      var found := SearchStored(now, MONTHS_BACK, v);
      if found.Some? {
        return found.value;
      }

      // no balance at all: a balance of zero for the beginning of time
      key := HourKey(roots.balances, GENESIS);
      StoreShows(bucket.objects, lastUpdate, roots, v, GENESIS, ZERO);
      StoreKeepsOthers(bucket.objects, uid, GENESIS, StoredBalance(ZERO));
      bucket.SetObject(key, StoredBalance(ZERO));
    }

    /** The sum of the line items stamped after `start` and no later than `end`. */
    method SumBetween(start: Time, end: Time, ghost v: View) returns (total: Balance)
      requires Holds(v) && Stampable(start) && Stampable(end)
      ensures total == SumOf(Between(v.items, start, end))
    {
      var transactions := TransactionsBetween(start, end, v);
      forall i | 0 <= i < |transactions| ensures transactions[i].info.WellFormed() {
        assert transactions[i] in transactions;
        assert transactions[i] in v.items;
      }
      total := SumTransactions(Infos(transactions));
      ReplayIsSum(transactions, Between(v.items, start, end));
    }

    method StoredBalanceAt(h: int, ghost v: View) returns (b: Option<Balance>)
      requires Holds(v) && KeyableHour(h)
      ensures b == if h in v.stored then Some(v.stored[h]) else None
    {
      var data := bucket.GetObject(HourKey(roots.balances, h));
      StoredLookup(bucket.objects, roots, v, lastUpdate, h);
      match data
      case Some(StoredBalance(found)) => b := Some(found);
      case _ => b := None;
    }

    method Store(h: int, b: Balance, ghost v: View)
      requires Shows(v) && KeyableHour(h)
      modifies bucket
      ensures Shows(v.(stored := v.stored[h := b])) && OthersKept(old(bucket.objects), bucket.objects, uid)
    {
      StoreShows(bucket.objects, lastUpdate, roots, v, h, b);
      StoreKeepsOthers(bucket.objects, uid, h, StoredBalance(b));
      bucket.SetObject(HourKey(roots.balances, h), StoredBalance(b));
    }

    method Remember(h: int, u: Update, ghost v: View)
      requires Shows(v) && KeyableHour(h) && Stampable(u.time)
      modifies this`lastUpdate
      ensures Shows(v.(updates := v.updates[h := u]))
    {
      RememberShows(bucket.objects, lastUpdate, roots, v, h, u);
      lastUpdate := lastUpdate[HourKey(roots.balances, h) := u];
    }

    method Recall(h: int, ghost v: View) returns (u: Option<Update>)
      requires Holds(v) && KeyableHour(h)
      ensures u == if h in v.updates then Some(v.updates[h]) else None
      ensures u.Some? ==> Stampable(u.value.time)
    {
      var key := HourKey(roots.balances, h);
      u := if key in lastUpdate then Some(lastUpdate[key]) else None;
      UpdateLookup(bucket.objects, roots, v, lastUpdate, h);
    }

    /** The balance at the top of the hour from the last one stored. */
    method Rebuild(now: Time, ghost v: View) returns (hourly: Balance)
      requires Shows(v) && QueryTime(now)
      modifies bucket
      ensures Shows(AfterSearch(v, now)) && OthersKept(old(bucket.objects), bucket.objects, uid)
      ensures hourly == Rebuilt(v, now)
    {
      var key := FindLastBalanceKey(now, v);
      ghost var w, last := AfterSearch(v, now), LastHour(v, now);
      LastHourIsStored(v, now);
      NameOfHour(roots, last);
      var time := HourFromKey(key).value;
      var found := StoredBalanceAt(time, w);
      HoursAreStampable(time);
      HoursAreStampable(HourOf(now));
      var total := SumBetween(time * HOUR, HourOf(now) * HOUR, w);
      hourly := found.value.Plus(total);
    }

    /** `_get_hourly_balance`. */
    method GetHourlyBalance(now: Time, ghost v: View) returns (hourly: Balance)
      requires Shows(v) && QueryTime(now)
      modifies bucket, this`lastUpdate
      ensures hourly == HourlyBalance(v, now) && Shows(AfterHourly(v, now))
      ensures OthersKept(old(bucket.objects), bucket.objects, uid)
    {
      var h := HourOf(now);
      var recalled := Recall(h, v);
      if recalled.Some? {
        return recalled.value.hourly;
      }
      ghost var w := v;
      var found := StoredBalanceAt(h, v);
      if found.Some? {
        hourly := found.value;
      } else {
        hourly := Rebuild(now, v);
        w := AfterSearch(v, now);
      }
      HoursAreStampable(h);
      ghost var between := bucket.objects;
      Store(h, hourly, w);
      KeptTwice(old(bucket.objects), between, bucket.objects, uid);
      Remember(h, Update(hourly, h * HOUR, hourly), w.(stored := w.stored[h := hourly]));
    }

    // What the query goes on from.
    method GetBase(now: Time, ghost v: View) returns (base: Update)
      requires Shows(v) && QueryTime(now)
      modifies bucket, this`lastUpdate
      ensures base == Base(v, now) && Stampable(base.time) && Shows(AfterHourly(v, now))
      ensures OthersKept(old(bucket.objects), bucket.objects, uid)
    {
      var h := HourOf(now);
      var recalled := Recall(h, v);
      HoursAreStampable(h);
      if recalled.Some? {
        base := recalled.value;
      } else {
        var hourly := GetHourlyBalance(now, v);
        base := Update(hourly, h * HOUR, hourly);
      }
      if base.time >= now {
        // the last update was in the future - go from the current hour
        base := Update(base.hourly, h * HOUR, base.hourly);
      }
    }

    /** `balance`: whatever is stored and remembered, the answer and what it leaves behind. */
    method GetBalance(now: Time, ghost v: View) returns (total: Balance)
      requires Shows(v) && QueryTime(now)
      modifies bucket, this`lastUpdate
      ensures total == BalanceNow(v, now) && Shows(AfterBalance(v, now))
      ensures OthersKept(old(bucket.objects), bucket.objects, uid)
    {
      var base := GetBase(now, v);
      ghost var w := AfterHourly(v, now);
      ItemsUntouched(v, now);
      QueryIsStampable(now);
      var sum := SumBetween(base.time, now, w);
      total := base.balance.Plus(sum);
      Remember(HourOf(now), Update(base.hourly, now, total), w);
    }

    /** The write that ends every debit and credit, of a note with the given UID. */
    method WriteLineItem(item: Item, note: string, ghost v: View)
      requires Shows(v) && Encodable(item)
      modifies bucket
      ensures Shows(v.(items := v.items + {item})) && OthersKept(old(bucket.objects), bucket.objects, uid)
    {
      WriteShows(bucket.objects, lastUpdate, roots, v, item, LineItem(note));
      WriteKeepsOthers(bucket.objects, uid, item, LineItem(note));
      bucket.SetObject(ItemKey(roots.txns, item), LineItem(note));
    }
  }

  lemma StoredLookup(objects: Objects, roots: Roots, v: View, last: map<string, Update>, h: int)
    requires AccountStore.Shows(objects, last, roots, v) && KeyableHour(h)
    ensures var k := HourKey(roots.balances, h);
      if h in v.stored then k in objects && objects[k] == StoredBalance(v.stored[h]) else k !in objects
  {
    NameOfHour(roots, h);
  }

  lemma UpdateLookup(objects: Objects, roots: Roots, v: View, last: map<string, Update>, h: int)
    requires AccountStore.Shows(objects, last, roots, v) && KeyableHour(h)
    ensures var k := HourKey(roots.balances, h);
      if h in v.updates then k in last && last[k] == v.updates[h] else k !in last
  {
    NameOfHour(roots, h);
  }

  lemma QueryIsStampable(now: Time)
    requires QueryTime(now)
    ensures Stampable(now)
  {
    HourWithinDay(now);
  }

  lemma HoursAreStampable(h: int)
    requires KeyableHour(h)
    ensures Stampable(h * HOUR)
  {
    OnTheHour(h);
  }

  lemma OneMonthBack(hours: set<int>, t: Time, left: nat)
    requires 0 < left && Searchable(OrdinalOf(t), left) && MonthHours(hours, OrdinalOf(t)) == {}
    ensures 1 <= FirstOfMonth(OrdinalOf(t)) - 1
    ensures var n := OrdinalOf(LastMonth(t));
      && Searchable(n, left - 1)
      && PrefixableDay(n)
      && SearchMonths(hours, OrdinalOf(t), left) == SearchMonths(hours, n, left - 1)
  {
    SearchablePrefixable(OrdinalOf(t), left);
    MonthBack(t);
    SearchablePrefixable(OrdinalOf(LastMonth(t)), left - 1);
  }

  lemma SearchSteps(hours: set<int>, n: int, months: nat)
    requires QueryDay(n, months)
    ensures DayHours(hours, n) != {} ==> SearchHour(hours, n, months) == Some(MaxOf(DayHours(hours, n)))
    ensures var earlier := DayHours(hours, n - 1);
      DayHours(hours, n) == {} ==>
      SearchHour(hours, n, months) == if earlier != {} then Some(MaxOf(earlier)) else SearchMonths(hours, n - 1, months)
  {
  }

  lemma DayBefore(t: Time)
    ensures OrdinalOf(LastDay(t)) == OrdinalOf(t) - 1
  {
  }

  lemma MonthBack(t: Time)
    requires 1 <= OrdinalOf(t) && 13 < MonthIndex(OrdinalOf(t))
    ensures 1 <= FirstOfMonth(OrdinalOf(t)) - 1 && OrdinalOf(LastMonth(t)) == MonthBefore(OrdinalOf(t))
  {
    var m := MonthBefore(OrdinalOf(t));
    assert (m * DAY) / DAY == m;
  }
}
