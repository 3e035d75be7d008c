/**
 How an account is laid out in the object store: line items and hourly balances under string keys that are
 found again by prefix.
 */
module AccountStore {
  import opened BalanceCache
  import opened BalanceKeys
  import opened BalanceSearch
  import opened Balances
  import opened Calendar
  import opened LineItemKeys
  import opened Wrappers

  // An object of the store, read back from its JSON.
  datatype StoredObject = LineItem(uid: string) | StoredBalance(balance: Balance) | Other

  type Objects = map<string, StoredObject>

  // The two keys under which an account's line items and its hourly balances are found.
  datatype Roots = Roots(txns: string, balances: string) {
    predicate Sound() {
      'T' !in balances && Differ(txns, balances)
    }
  }

  // Neither string starts with the other.
  predicate Differ(a: string, b: string) {
    exists n :: 0 <= n < |a| && n < |b| && a[n] != b[n]
  }

  /** `_transactions_key` and `_balance_key`. */
  function RootsOf(uid: string): (roots: Roots)
    requires 'T' !in uid
    ensures roots.Sound()
  {
    var key := "accounting/accounts/" + uid;
    var roots := Roots(key + "/txns", key + "/balance");
    assert roots.txns[|key| + 1] == 't' && roots.balances[|key| + 1] == 'b';
    roots
  }

  function ItemKey(txns: string, item: Item): string
    requires Encodable(item)
  {
    txns + "/" + ToKey(item)
  }

  // ------------------------------------------------------------ filing under keys

  // The keys below `root` are the names of the things filed, one key each, and can be read back.
  ghost predicate Filed<X>(
    keys: set<string>, root: string, name: X -> string, read: string -> Option<X>, filed: set<X>)
  {
    && (forall x :: x in filed ==> name(x) in keys && root <= name(x) && read(name(x)) == Some(x))
    && (forall k :: k in keys && root <= k ==> read(k).Some? && read(k).value in filed && name(read(k).value) == k)
  }

  lemma FileOne<X>(keys: set<string>, root: string, name: X -> string, read: string -> Option<X>, filed: set<X>, x: X)
    requires Filed(keys, root, name, read, filed)
    requires root <= name(x) && read(name(x)) == Some(x)
    ensures Filed(keys + {name(x)}, root, name, read, filed + {x})
  {
  }

  lemma FileElsewhere<X>(keys: set<string>, root: string, name: X -> string, read: string -> Option<X>,
                         filed: set<X>, k: string)
    requires Filed(keys, root, name, read, filed) && !(root <= k)
    ensures Filed(keys + {k}, root, name, read, filed)
  {
  }

  lemma FiledIsDetermined<X>(keys: set<string>, root: string, name: X -> string, read: string -> Option<X>,
                             a: set<X>, b: set<X>)
    requires Filed(keys, root, name, read, a) && Filed(keys, root, name, read, b)
    ensures a == b
  {
    forall x ensures x in a <==> x in b {
    }
  }

  // As above, for a dictionary and what its keys are mapped to.
  ghost predicate FiledMap<K, V, W>(
    m: map<string, W>, root: string, name: K -> string, read: string -> Option<K>, wrap: V -> W, filed: map<K, V>)
  {
    && Filed(m.Keys, root, name, read, filed.Keys)
    && (forall x :: x in filed ==> m[name(x)] == wrap(filed[x]))
  }

  lemma FileMapOne<K, V, W>(
    m: map<string, W>, root: string, name: K -> string, read: string -> Option<K>, wrap: V -> W, filed: map<K, V>,
    x: K, v: V)
    requires FiledMap(m, root, name, read, wrap, filed)
    requires root <= name(x) && read(name(x)) == Some(x)
    ensures FiledMap(m[name(x) := wrap(v)], root, name, read, wrap, filed[x := v])
  {
    assert m[name(x) := wrap(v)].Keys == m.Keys + {name(x)} && filed[x := v].Keys == filed.Keys + {x};
    FileOne(m.Keys, root, name, read, filed.Keys, x);
  }

  lemma FileMapElsewhere<K, V, W>(
    m: map<string, W>, root: string, name: K -> string, read: string -> Option<K>, wrap: V -> W, filed: map<K, V>,
    k: string, o: W)
    requires FiledMap(m, root, name, read, wrap, filed) && !(root <= k)
    ensures FiledMap(m[k := o], root, name, read, wrap, filed)
  {
    assert m[k := o].Keys == m.Keys + {k};
    FileElsewhere(m.Keys, root, name, read, filed.Keys, k);
  }

  lemma FiledMapIsDetermined<K, V, W>(
    m: map<string, W>, root: string, name: K -> string, read: string -> Option<K>, wrap: V -> W, a: map<K, V>,
        b: map<K, V>)
    requires FiledMap(m, root, name, read, wrap, a) && FiledMap(m, root, name, read, wrap, b)
    requires forall v, w :: wrap(v) == wrap(w) ==> v == w
    ensures a == b
  {
    FiledIsDetermined(m.Keys, root, name, read, a.Keys, b.Keys);
    forall x | x in a ensures a[x] == b[x] {
      assert x in a.Keys;
      assert wrap(a[x]) == wrap(b[x]);
    }
  }

  // ------------------------------------------------------------ what a store shows of an account

  function ItemName(txns: string): Item -> string {
    (i: Item) => if Encodable(i) then ItemKey(txns, i) else ""
  }

  function HourName(start: string): int -> string {
    (h: int) => if KeyableHour(h) then HourKey(start, h) else ""
  }

  function AsObject(): Balance -> StoredObject {
    (b: Balance) => StoredBalance(b)
  }

  function AsIs(): Update -> Update {
    (u: Update) => u
  }

  ghost predicate ShowsItems(keys: set<string>, txns: string, items: set<Item>) {
    && (forall i :: i in items ==> Encodable(i))
    && Filed(keys, txns, ItemName(txns), Decode, items)
  }

  ghost predicate ShowsStored(objects: Objects, start: string, stored: map<int, Balance>) {
    && (forall h :: h in stored ==> KeyableHour(h))
    && FiledMap(objects, start, HourName(start), HourFromKey, AsObject(), stored)
  }

  // The account's own dictionary is filed under the same keys.
  ghost predicate ShowsUpdates(last: map<string, Update>, start: string, updates: map<int, Update>) {
    && (forall h :: h in updates ==> KeyableHour(h) && Stampable(updates[h].time))
    && FiledMap(last, "", HourName(start), HourFromKey, AsIs(), updates)
  }

  ghost predicate Shows(objects: Objects, last: map<string, Update>, roots: Roots, v: View) {
    && roots.Sound()
    && ShowsItems(objects.Keys, roots.txns, v.items)
    && ShowsStored(objects, roots.balances, v.stored)
    && ShowsUpdates(last, roots.balances, v.updates)
  }

  /** A store shows one history of an account and no other. */
  lemma ShowsOneView(objects: Objects, last: map<string, Update>, roots: Roots, v: View, w: View)
    requires Shows(objects, last, roots, v) && Shows(objects, last, roots, w)
    ensures v == w
  {
    FiledIsDetermined(objects.Keys, roots.txns, ItemName(roots.txns), Decode, v.items, w.items);
    FiledMapIsDetermined(objects, roots.balances, HourName(roots.balances), HourFromKey, AsObject(),
                         v.stored, w.stored);
    FiledMapIsDetermined(last, "", HourName(roots.balances), HourFromKey, AsIs(), v.updates, w.updates);
  }

  lemma UnderOneRoot(root: string, other: string, text: string)
    requires Differ(root, other)
    ensures root <= root + "/" + text && !(other <= root + "/" + text)
  {
    var n :| 0 <= n < |root| && n < |other| && root[n] != other[n];
    assert (root + "/" + text)[n] == root[n];
    assert root + "/" + text == root + ("/" + text);
  }

  lemma NameOfHour(roots: Roots, h: int)
    requires roots.Sound() && KeyableHour(h)
    ensures var k := HourKey(roots.balances, h);
      && HourName(roots.balances)(h) == k
      && HourFromKey(k) == Some(h)
      && roots.balances <= k
      && !(roots.txns <= k)
  {
    HourRoundTrip(roots.balances, h);
    UnderOneRoot(roots.balances, roots.txns, HourText(h));
  }

  lemma NameOfItem(roots: Roots, i: Item)
    requires roots.Sound() && Encodable(i)
    ensures var k := ItemKey(roots.txns, i);
      ItemName(roots.txns)(i) == k && Decode(k) == Some(i) && roots.txns <= k && !(roots.balances <= k)
  {
    RoundTrip(roots.txns, i);
    UnderOneRoot(roots.txns, roots.balances, ToKey(i));
  }

  lemma StoreAt(objects: Objects, last: map<string, Update>, roots: Roots, v: View, h: int, b: Balance, k: string)
    requires Shows(objects, last, roots, v) && KeyableHour(h)
    requires HourName(roots.balances)(h) == k && HourFromKey(k) == Some(h) && roots.balances <= k && !(roots.txns <= k)
    ensures Shows(objects[k := StoredBalance(b)], last, roots, v.(stored := v.stored[h := b]))
  {
    assert objects[k := StoredBalance(b)].Keys == objects.Keys + {k};
    FileMapOne(objects, roots.balances, HourName(roots.balances), HourFromKey, AsObject(), v.stored, h, b);
    FileElsewhere(objects.Keys, roots.txns, ItemName(roots.txns), Decode, v.items, k);
  }

  /** Storing an hourly balance adds that balance to what is shown, and nothing else. */
  lemma StoreShows(objects: Objects, last: map<string, Update>, roots: Roots, v: View, h: int, b: Balance)
    requires Shows(objects, last, roots, v) && KeyableHour(h)
    ensures Shows(objects[HourKey(roots.balances, h) := StoredBalance(b)], last, roots, v.(stored := v.stored[h := b]))
  {
    NameOfHour(roots, h);
    StoreAt(objects, last, roots, v, h, b, HourKey(roots.balances, h));
  }

  lemma RememberAt(objects: Objects, last: map<string, Update>, roots: Roots, v: View, h: int, u: Update, k: string)
    requires Shows(objects, last, roots, v) && KeyableHour(h) && Stampable(u.time)
    requires HourName(roots.balances)(h) == k && HourFromKey(k) == Some(h)
    ensures Shows(objects, last[k := u], roots, v.(updates := v.updates[h := u]))
  {
    FileMapOne(last, "", HourName(roots.balances), HourFromKey, AsIs(), v.updates, h, u);
  }

  lemma RememberShows(objects: Objects, last: map<string, Update>, roots: Roots, v: View, h: int, u: Update)
    requires Shows(objects, last, roots, v) && KeyableHour(h) && Stampable(u.time)
    ensures Shows(objects, last[HourKey(roots.balances, h) := u], roots, v.(updates := v.updates[h := u]))
  {
    NameOfHour(roots, h);
    RememberAt(objects, last, roots, v, h, u, HourKey(roots.balances, h));
  }

  lemma WriteAt(objects: Objects, last: map<string, Update>, roots: Roots, v: View, i: Item, o: StoredObject, k: string)
    requires Shows(objects, last, roots, v) && Encodable(i)
    requires ItemName(roots.txns)(i) == k && Decode(k) == Some(i) && roots.txns <= k && !(roots.balances <= k)
    ensures Shows(objects[k := o], last, roots, v.(items := v.items + {i}))
  {
    assert objects[k := o].Keys == objects.Keys + {k};
    FileOne(objects.Keys, roots.txns, ItemName(roots.txns), Decode, v.items, i);
    FileMapElsewhere(objects, roots.balances, HourName(roots.balances), HourFromKey, AsObject(), v.stored, k, o);
  }

  /** Writing a line item adds that line item to what is shown, and nothing else. */
  lemma WriteShows(objects: Objects, last: map<string, Update>, roots: Roots, v: View, i: Item, o: StoredObject)
    requires Shows(objects, last, roots, v) && Encodable(i)
    ensures Shows(objects[ItemKey(roots.txns, i) := o], last, roots, v.(items := v.items + {i}))
  {
    NameOfItem(roots, i);
    WriteAt(objects, last, roots, v, i, o, ItemKey(roots.txns, i));
  }

  // ------------------------------------------------------------ the other accounts of the store

  // A UID as accounts have them.
  predicate AccountUid(uid: string) {
    'T' !in uid && '/' !in uid
  }

  lemma DifferExtended(a: string, b: string, x: string, y: string)
    requires Differ(a, b)
    ensures Differ(a + x, b + y)
  {
    var n :| 0 <= n < |a| && n < |b| && a[n] != b[n];
    assert (a + x)[n] != (b + y)[n];
  }

  lemma DifferAfter(start: string, a: string, b: string)
    requires Differ(a, b)
    ensures Differ(start + a, start + b)
  {
    var n :| 0 <= n < |a| && n < |b| && a[n] != b[n];
    assert (start + a)[|start| + n] != (start + b)[|start| + n];
  }

  // Two UIDs differ, or one goes on where the other is followed by a slash.
  lemma {:induction false} UidsDiffer(a: string, b: string)
    requires a != b && '/' !in a && '/' !in b
    ensures Differ(a + "/", b + "/")
    decreases |a|
  {
    var x, y := a + "/", b + "/";
    if |a| > 0 && |b| > 0 && a[0] == b[0] {
      assert a == [a[0]] + a[1..] && b == [b[0]] + b[1..];
      UidsDiffer(a[1..], b[1..]);
      DifferAfter([a[0]], a[1..] + "/", b[1..] + "/");
      assert x == [a[0]] + (a[1..] + "/") && y == [b[0]] + (b[1..] + "/");
    } else {
      assert x[0] != y[0];
    }
  }

  lemma RootTexts(uid: string, start: string)
    requires AccountUid(uid) && start == "accounting/accounts/" + (uid + "/")
    ensures RootsOf(uid).txns == start + "txns" && RootsOf(uid).balances == start + "balance"
  {
  }

  /** Line items and hourly balances of an account as they stand in the store. */
  lemma KeysInFull(uid: string, i: Item, h: int)
    requires AccountUid(uid) && Encodable(i) && KeyableHour(h)
    ensures ItemKey(RootsOf(uid).txns, i) ==
      "accounting/accounts/" + uid + "/txns/" + (IsoTime(i.stamp) + "/" + i.uid + "/" + Encode(i.info))
    ensures HourKey(RootsOf(uid).balances, h) == "accounting/accounts/" + uid + "/balance/" + HourText(h)
  {
    var start := "accounting/accounts/" + uid;
    assert start + "/txns" + "/" == start + "/txns/" && start + "/balance" + "/" == start + "/balance/";
  }

  predicate AllDiffer(r: Roots, o: Roots) {
    Differ(r.txns, o.txns) && Differ(r.txns, o.balances) && Differ(r.balances, o.txns) && Differ(r.balances, o.balances)
  }

  lemma AllDifferAfter(a: string, b: string)
    requires Differ(a, b)
    ensures AllDiffer(Roots(a + "txns", a + "balance"), Roots(b + "txns", b + "balance"))
  {
    DifferExtended(a, b, "txns", "txns");
    DifferExtended(a, b, "txns", "balance");
    DifferExtended(a, b, "balance", "txns");
    DifferExtended(a, b, "balance", "balance");
  }

  /** No root of an account starts with a root of another. */
  lemma RootsAreApart(uid: string, other: string)
    requires AccountUid(uid) && AccountUid(other) && uid != other
    ensures AllDiffer(RootsOf(uid), RootsOf(other))
  {
    var start := "accounting/accounts/";
    UidsDiffer(uid, other);
    DifferAfter(start, uid + "/", other + "/");
    AllDifferAfter(start + (uid + "/"), start + (other + "/"));
    RootTexts(uid, start + (uid + "/"));
    RootTexts(other, start + (other + "/"));
  }

  // What is set under neither root of an account leaves what the store shows of it as it was.
  lemma SetElsewhere(objects: Objects, last: map<string, Update>, roots: Roots, v: View, k: string, o: StoredObject)
    requires Shows(objects, last, roots, v) && !(roots.txns <= k) && !(roots.balances <= k)
    ensures Shows(objects[k := o], last, roots, v)
  {
    assert objects[k := o].Keys == objects.Keys + {k};
    FileElsewhere(objects.Keys, roots.txns, ItemName(roots.txns), Decode, v.items, k);
    FileMapElsewhere(objects, roots.balances, HourName(roots.balances), HourFromKey, AsObject(), v.stored, k, o);
  }

  /** Every other account is shown as it was before, whatever it remembers. */
  ghost predicate OthersKept(before: Objects, after: Objects, uid: string) {
    forall other: string, last: map<string, Update>, v: View ::
      AccountUid(other) && other != uid && Shows(before, last, RootsOf(other), v) ==>
      Shows(after, last, RootsOf(other), v)
  }

  lemma KeptTwice(before: Objects, between: Objects, after: Objects, uid: string)
    requires OthersKept(before, between, uid) && OthersKept(between, after, uid)
    ensures OthersKept(before, after, uid)
  {
  }

  /** Writing a line item of an account changes nothing of any other account. */
  lemma WriteKeepsOthers(objects: Objects, uid: string, i: Item, o: StoredObject)
    requires AccountUid(uid) && Encodable(i)
    ensures OthersKept(objects, objects[ItemKey(RootsOf(uid).txns, i) := o], uid)
  {
    var k := ItemKey(RootsOf(uid).txns, i);
    forall other: string, last: map<string, Update>, v: View |
      AccountUid(other) && other != uid && Shows(objects, last, RootsOf(other), v)
      ensures Shows(objects[k := o], last, RootsOf(other), v)
    {
      RootsAreApart(uid, other);
      UnderOneRoot(RootsOf(uid).txns, RootsOf(other).txns, ToKey(i));
      UnderOneRoot(RootsOf(uid).txns, RootsOf(other).balances, ToKey(i));
      SetElsewhere(objects, last, RootsOf(other), v, k, o);
    }
  }

  /** Nor does storing an hourly balance. */
  lemma StoreKeepsOthers(objects: Objects, uid: string, h: int, o: StoredObject)
    requires AccountUid(uid) && KeyableHour(h)
    ensures OthersKept(objects, objects[HourKey(RootsOf(uid).balances, h) := o], uid)
  {
    var k := HourKey(RootsOf(uid).balances, h);
    forall other: string, last: map<string, Update>, v: View |
      AccountUid(other) && other != uid && Shows(objects, last, RootsOf(other), v)
      ensures Shows(objects[k := o], last, RootsOf(other), v)
    {
      RootsAreApart(uid, other);
      UnderOneRoot(RootsOf(uid).balances, RootsOf(other).txns, HourText(h));
      UnderOneRoot(RootsOf(uid).balances, RootsOf(other).balances, HourText(h));
      SetElsewhere(objects, last, RootsOf(other), v, k, o);
    }
  }

  // ------------------------------------------------------------ lists of keys

  // The list holds the names of these things, each once.
  ghost predicate Named<X>(list: seq<string>, name: X -> string, read: string -> Option<X>, xs: set<X>) {
    && Distinct(list)
    && (forall k :: k in list ==> read(k).Some? && read(k).value in xs && name(read(k).value) == k)
    && (forall x :: x in xs ==> name(x) in list && read(name(x)) == Some(x))
  }

  // The list holds the keys that start with the prefix, each once.
  ghost predicate Found(list: seq<string>, keys: set<string>, prefix: string) {
    Distinct(list) && forall k :: k in list <==> k in keys && prefix <= k
  }

  /** The keys found under a prefix name the things whose names start with it. */
  lemma FoundAreNamed<X>(
    keys: set<string>, root: string, name: X -> string, read: string -> Option<X>, filed: set<X>,
    prefix: string, list: seq<string>, xs: set<X>)
    requires Filed(keys, root, name, read, filed) && Found(list, keys, prefix) && root <= prefix
    requires forall x :: x in xs <==> x in filed && prefix <= name(x)
    ensures Named(list, name, read, xs)
  {
    forall k | k in list ensures root <= k {
      assert root <= prefix <= k;
    }
  }

  // ------------------------------------------------------------ prefixes of line-item keys

  /** `_transactions_key()` and a day: the prefix of that day's line items. */
  function DayPrefix(txns: string, day: int): string
    requires 1 <= day
  {
    txns + "/" + IsoDate(Civil(day))
  }

  lemma IsoDateInjective(d: Date, e: Date)
    requires ValidDate(d) && ValidDate(e) && d.year <= 9999 && e.year <= 9999 && IsoDate(d) == IsoDate(e)
    ensures d == e
  {
    ParsePrintedDate(d);
    ParsePrintedDate(e);
  }

  lemma KeyStartsWithDate(i: Item)
    requires Encodable(i)
    ensures |ToKey(i)| >= 10 && ToKey(i)[..10] == IsoDate(Civil(OrdinalOf(i.stamp)))
  {
    var date := IsoDate(Civil(OrdinalOf(i.stamp)));
    assert |date| == 10 by { ParsePrintedDate(Civil(OrdinalOf(i.stamp))); }
    assert IsoTime(i.stamp)[..10] == date;
  }

  lemma PrefixOf(a: string, b: string)
    ensures |b| >= |a| ==> (a <= b <==> b[..|a|] == a)
  {
  }

  /** A day's prefix selects exactly the line items stamped on that day. */
  lemma DayPrefixSelectsItems(txns: string, day: int, i: Item)
    requires 1 <= day && Civil(day).year <= 9999 && Encodable(i)
    ensures DayPrefix(txns, day) <= ItemKey(txns, i) <==> OrdinalOf(i.stamp) == day
  {
    var d, e := Civil(day), Civil(OrdinalOf(i.stamp));
    PrefixAfter(txns, IsoDate(d), ToKey(i));
    KeyStartsWithDate(i);
    ParsePrintedDate(d);
    PrefixOf(IsoDate(d), ToKey(i));
    if IsoDate(d) == IsoDate(e) {
      IsoDateInjective(d, e);
      CivilInjective(day, OrdinalOf(i.stamp));
    }
  }

  function OnDay(items: set<Item>, day: int): set<Item> {
    set i | i in items && OrdinalOf(i.stamp) == day
  }

  lemma DayItemsNamed(keys: set<string>, txns: string, items: set<Item>, day: int, list: seq<string>)
    requires ShowsItems(keys, txns, items) && 1 <= day && Civil(day).year <= 9999
    requires Found(list, keys, DayPrefix(txns, day))
    ensures Named(list, ItemName(txns), Decode, OnDay(items, day))
  {
    forall i ensures i in OnDay(items, day) <==> i in items && DayPrefix(txns, day) <= ItemName(txns)(i) {
      if i in items {
        DayPrefixSelectsItems(txns, day, i);
      }
    }
    assert DayPrefix(txns, day) == txns + ("/" + IsoDate(Civil(day)));
    FoundAreNamed(keys, txns, ItemName(txns), Decode, items, DayPrefix(txns, day), list, OnDay(items, day));
  }

  lemma AllItemsNamed(keys: set<string>, txns: string, items: set<Item>, list: seq<string>)
    requires ShowsItems(keys, txns, items) && Found(list, keys, txns)
    ensures Named(list, ItemName(txns), Decode, items)
  {
    FoundAreNamed(keys, txns, ItemName(txns), Decode, items, txns, list, items);
  }

  // ------------------------------------------------------------ prefixes of the keys of hourly balances

  lemma HoursNamed(objects: Objects, start: string, stored: map<int, Balance>, prefix: string, list: seq<string>,
                   hours: set<int>)
    requires ShowsStored(objects, start, stored) && Found(list, objects.Keys, prefix) && start <= prefix
    requires forall h :: h in hours <==> h in stored && KeyableHour(h) && prefix <= HourKey(start, h)
    ensures Named(list, HourName(start), HourFromKey, hours) && forall h :: h in hours ==> KeyableHour(h)
  {
    forall h ensures h in hours <==> h in stored.Keys && prefix <= HourName(start)(h) {
      if h in stored {
        assert KeyableHour(h) && HourName(start)(h) == HourKey(start, h);
      }
    }
    FoundAreNamed(objects.Keys, start, HourName(start), HourFromKey, stored.Keys, prefix, list, hours);
  }

  lemma PrefixOfDay(start: string, stored: map<int, Balance>, n: int)
    requires PrefixableDay(n) && forall h :: h in stored ==> KeyableHour(h)
    ensures start <= DayKey(start, n)
    ensures forall h :: h in DayHours(stored.Keys, n) <==>
      h in stored && KeyableHour(h) && DayKey(start, n) <= HourKey(start, h)
  {
    assert DayKey(start, n) == start + ("/" + DayText(n));
    forall h | h in stored ensures h / 24 == n <==> DayKey(start, n) <= HourKey(start, h) {
      DayPrefixSelects(start, n, h);
    }
  }

  lemma PrefixOfMonth(start: string, stored: map<int, Balance>, n: int)
    requires PrefixableDay(n) && forall h :: h in stored ==> KeyableHour(h)
    ensures start <= MonthKey(start, n)
    ensures forall h :: h in MonthHours(stored.Keys, n) <==>
      h in stored && KeyableHour(h) && MonthKey(start, n) <= HourKey(start, h)
  {
    assert MonthKey(start, n) == start + ("/" + MonthText(n));
    forall h | h in stored ensures SameMonth(Civil(h / 24), Civil(n)) <==> MonthKey(start, n) <= HourKey(start, h) {
      MonthPrefixSelects(start, n, h);
    }
  }
}
