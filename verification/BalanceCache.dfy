/**
 The balance of an account as a cache over its history. No running total is kept: a balance is the newest
 stored hourly balance, or one remembered in memory, plus the line items stamped since. This module says
 what a query computes on an account's line items, stored hourly balances and memory, and when that is
 the balance that replaying the whole history would give.
 */
module BalanceCache {
  import opened BalanceKeys
  import opened BalanceSearch
  import opened Balances
  import opened Calendar
  import opened LineItemKeys
  import opened Sums
  import opened Wrappers

  // What an account remembers about an hour: the balance at the top of the hour, and a later balance.
  datatype Update = Update(hourly: Balance, time: Time, balance: Balance)

  // Hourly balances and updates are filed under the number of the hour.
  datatype View = View(items: set<Item>, stored: map<int, Balance>, updates: map<int, Update>)

  // The first hour of the calendar, where the search puts a balance of zero when it finds none.
  const GENESIS := 24

  // ------------------------------------------------------------ totals

  function EffectOn(side: Side): Item -> int {
    (i: Item) => if i.info.WellFormed() then Effect(side, i.info) else 0
  }

  ghost function SumOn(side: Side, items: set<Item>): int {
    SumSet(items, EffectOn(side))
  }

  ghost function SumOf(items: set<Item>): Balance {
    Balance(SumOn(Funds, items), SumOn(Liabilities, items), SumOn(Receivables, items))
  }

  lemma SumOnSide(items: set<Item>, side: Side)
    ensures SumOf(items).On(side) == SumOn(side, items)
  {
  }

  function Upto(items: set<Item>, t: Time): set<Item> {
    set i | i in items && i.stamp <= t
  }

  function Window(items: set<Item>, start: Time, end: Time): set<Item> {
    set i | i in items && start < i.stamp <= end
  }

  /** The balance at `t`: every line item stamped at or before `t`, added up. */
  ghost function ReplayAt(items: set<Item>, t: Time): Balance {
    SumOf(Upto(items, t))
  }

  lemma PlusOnSide(a: Balance, b: Balance, side: Side)
    ensures a.Plus(b).On(side) == a.On(side) + b.On(side)
  {
  }

  /** Replaying on from an earlier balance is the same as replaying from the start. */
  lemma ReplayResumes(items: set<Item>, start: Time, end: Time)
    requires start <= end
    ensures ReplayAt(items, start).Plus(SumOf(Window(items, start, end))) == ReplayAt(items, end)
  {
    assert Upto(items, end) == Upto(items, start) + Window(items, start, end);
    forall side
      ensures SumOn(side, Upto(items, end)) == SumOn(side, Upto(items, start)) + SumOn(side, Window(items, start, end))
    {
      SumSetUnion(Upto(items, start), Window(items, start, end), EffectOn(side));
    }
  }

  predicate Distinct<X(==)>(list: seq<X>) {
    forall i, j :: 0 <= i < j < |list| ==> list[i] != list[j]
  }

  // The list holds each line item of the set once.
  ghost predicate Lists(list: seq<Item>, items: set<Item>) {
    Distinct(list) && forall x :: x in items <==> x in list
  }

  predicate AllWellFormed(list: seq<Item>) {
    forall i :: 0 <= i < |list| ==> list[i].info.WellFormed()
  }

  function Infos(list: seq<Item>): (infos: seq<Info>)
    requires AllWellFormed(list)
    ensures |infos| == |list|
  {
    if |list| == 0 then [] else Infos(list[..|list| - 1]) + [list[|list| - 1].info]
  }

  lemma ListsShorter(rest: seq<Item>, x: Item, items: set<Item>)
    requires Lists(rest + [x], items)
    ensures x in items && Lists(rest, items - {x})
  {
    var list := rest + [x];
    assert list[|rest|] == x;
    forall i | 0 <= i < |rest| ensures list[i] == rest[i] && rest[i] != x {
    }
    forall y ensures y in items - {x} <==> y in rest {
      assert y in items <==> y in list;
    }
  }

  lemma {:induction false} ListedEffects(list: seq<Item>, items: set<Item>, side: Side)
    requires Lists(list, items) && AllWellFormed(list)
    ensures Effects(side, Infos(list)) == SumOn(side, items)
    decreases |list|
  {
    if |list| == 0 {
      assert items == {};
    } else {
      var rest, x := list[..|list| - 1], list[|list| - 1];
      assert list == rest + [x];
      ListsShorter(rest, x, items);
      ListedEffects(rest, items - {x}, side);
      SumSetRemove(items, EffectOn(side), x);
      assert Infos(list)[..|rest|] == Infos(rest);
    }
  }

  /** The order in which line items are added up plays no part. */
  lemma ReplayIsSum(list: seq<Item>, items: set<Item>)
    requires Lists(list, items) && AllWellFormed(list)
    ensures Replay(ZERO, Infos(list)) == SumOf(items)
  {
    assert BalanceOf(Infos(list)) == SumOf(items) by {
      ListedEffects(list, items, Funds);
      ListedEffects(list, items, Liabilities);
      ListedEffects(list, items, Receivables);
    }
    BalanceIsReplay(Infos(list));
  }

  // ------------------------------------------------------------ what a query computes

  // The days a search goes through, once an end on midnight has given up its last day.
  function EndDay(end: Time): int {
    if end % DAY == 0 then OrdinalOf(end) - 1 else OrdinalOf(end)
  }

  predicate DayByDay(start: Time, end: Time) {
    EndDay(end) - OrdinalOf(start) < 7
  }

  // An end on midnight is itself left out of a day-by-day search.
  predicate Skipped(i: Item, start: Time, end: Time) {
    DayByDay(start, end) && end % DAY == 0 && start < i.stamp == end
  }

  /** The line items that `_get_transactions_between` returns. */
  function Between(items: set<Item>, start: Time, end: Time): set<Item> {
    set i | i in items && start < i.stamp <= end && !Skipped(i, start, end)
  }

  /** The search returns the line items of the window exactly when none of them is stamped on a midnight
      that ends a day-by-day search. */
  lemma BetweenIsWindowIff(items: set<Item>, start: Time, end: Time)
    ensures Between(items, start, end) == Window(items, start, end) <==>
      !(start < end && end % DAY == 0 && end / DAY - 1 - start / DAY < 7 && exists i :: i in items && i.stamp == end)
  {
    if i :| i in items && i.stamp == end && start < end && DayByDay(start, end) && end % DAY == 0 {
      assert i in Window(items, start, end) && i !in Between(items, start, end);
    } else {
      forall i ensures i in Between(items, start, end) <==> i in Window(items, start, end) {
      }
    }
  }

  /** A line item on midnight of the second day is missed by a search that ends there and begins in the hour
      before. */
  lemma MidnightItemIsMissed(i: Item)
    requires i.stamp == 2 * DAY
    ensures i in Window({i}, 2 * DAY - HOUR, 2 * DAY) && Between({i}, 2 * DAY - HOUR, 2 * DAY) == {}
  {
  }

  // A time at which a balance can be asked for.
  predicate QueryTime(now: Time) {
    KeyableHour(HourOf(now)) && QueryDay(OrdinalOf(now), MONTHS_BACK)
  }

  /** `_find_last_balance_key`: the hour whose stored balance the query starts from. */
  ghost function LastHour(v: View, now: Time): int
    requires QueryTime(now)
  {
    match SearchHour(v.stored.Keys, OrdinalOf(now), MONTHS_BACK)
    case Some(h) => h
    case None => GENESIS
  }

  ghost function AfterSearch(v: View, now: Time): View
    requires QueryTime(now)
  {
    match SearchHour(v.stored.Keys, OrdinalOf(now), MONTHS_BACK)
    case Some(_) => v
    case None => v.(stored := v.stored[GENESIS := ZERO])
  }

  lemma SearchStaysInStore(hours: set<int>, n: int, months: nat)
    requires QueryDay(n, months)
    ensures SearchHour(hours, n, months).Some? ==> SearchHour(hours, n, months).value in hours
  {
    if DayHours(hours, n) == {} && DayHours(hours, n - 1) == {} {
      SearchMonthsStaysInStore(hours, n - 1, months);
    }
  }

  lemma {:induction false} SearchMonthsStaysInStore(hours: set<int>, n: int, months: nat)
    requires Searchable(n, months)
    ensures SearchMonths(hours, n, months).Some? ==> SearchMonths(hours, n, months).value in hours
    decreases months
  {
    if MonthHours(hours, n) == {} && months > 0 {
      SearchablePrefixable(n, months);
      SearchMonthsStaysInStore(hours, MonthBefore(n), months - 1);
    }
  }

  lemma LastHourIsStored(v: View, now: Time)
    requires QueryTime(now)
    ensures LastHour(v, now) in AfterSearch(v, now).stored
  {
    SearchStaysInStore(v.stored.Keys, OrdinalOf(now), MONTHS_BACK);
  }

  // The balance at the top of the hour, built from the last stored one.
  ghost function Rebuilt(v: View, now: Time): Balance
    requires QueryTime(now)
  {
    LastHourIsStored(v, now);
    var last := LastHour(v, now);
    AfterSearch(v, now).stored[last].Plus(SumOf(Between(v.items, last * HOUR, HourOf(now) * HOUR)))
  }

  /** `_get_hourly_balance`. */
  ghost function HourlyBalance(v: View, now: Time): Balance
    requires QueryTime(now)
  {
    var h := HourOf(now);
    if h in v.updates then v.updates[h].hourly
    else if h in v.stored then v.stored[h]
    else Rebuilt(v, now)
  }

  ghost function AfterHourly(v: View, now: Time): View
    requires QueryTime(now)
  {
    var h, b := HourOf(now), HourlyBalance(v, now);
    if h in v.updates then v
    else
      var w := if h in v.stored then v else AfterSearch(v, now);
      w.(stored := w.stored[h := b], updates := w.updates[h := Update(b, h * HOUR, b)])
  }

  // The query has a balance kept for its own hour, or the search finds one of no later hour.
  ghost predicate Timely(v: View, now: Time)
    requires QueryTime(now)
  {
    HourOf(now) in v.updates || HourOf(now) in v.stored || LastHour(v, now) <= HourOf(now)
  }

  // What a query goes on from: what is remembered of the hour, or the balance at its top when nothing is
  // remembered or when what is remembered is not before `now`.
  ghost function Base(v: View, now: Time): Update
    requires QueryTime(now)
  {
    var h := HourOf(now);
    if h in v.updates && v.updates[h].time < now then v.updates[h]
    else Update(HourlyBalance(v, now), h * HOUR, HourlyBalance(v, now))
  }

  /** `balance`. */
  ghost function BalanceNow(v: View, now: Time): Balance
    requires QueryTime(now)
  {
    Base(v, now).balance.Plus(SumOf(Between(v.items, Base(v, now).time, now)))
  }

  ghost function AfterBalance(v: View, now: Time): View
    requires QueryTime(now)
  {
    var w := AfterHourly(v, now);
    w.(updates := w.updates[HourOf(now) := Update(Base(v, now).hourly, now, BalanceNow(v, now))])
  }

  // ------------------------------------------------------------ every cached balance is a replay

  // Line items are never stamped on the hour.
  predicate OffTheHour(items: set<Item>) {
    forall i :: i in items ==> Stampable(i.stamp) && i.stamp % HOUR != 0
  }

  ghost predicate StoredIsReplay(v: View, latest: Time) {
    forall h :: h in v.stored ==>
      KeyableHour(h) && h * HOUR <= latest && v.stored[h] == ReplayAt(v.items, h * HOUR)
  }

  ghost predicate UpdatesAreReplays(v: View, latest: Time) {
    forall h :: h in v.updates ==>
      var u := v.updates[h];
      && KeyableHour(h)
      && h * HOUR <= u.time <= latest
      && u.hourly == ReplayAt(v.items, h * HOUR)
      && u.balance == ReplayAt(v.items, u.time)
  }

  // Nothing later than `latest` has been asked for, and everything kept is what a replay gives.
  ghost predicate Coherent(v: View, latest: Time) {
    OffTheHour(v.items) && StoredIsReplay(v, latest) && UpdatesAreReplays(v, latest)
  }

  lemma MidnightIsOnTheHour(t: Time)
    ensures t % DAY == 0 ==> t % HOUR == 0
  {
    if t % DAY == 0 {
      Quotient(t, HOUR, 24 * (t / DAY), 0);
    }
  }

  lemma OnTheHour(h: int)
    ensures HourOf(h * HOUR) == h && (h * HOUR) % HOUR == 0 && OrdinalOf(h * HOUR) == h / 24
  {
  }

  lemma BetweenIsWindow(items: set<Item>, start: Time, end: Time)
    requires OffTheHour(items)
    ensures Between(items, start, end) == Window(items, start, end)
  {
    forall i | i in items ensures i.stamp % DAY != 0 { MidnightIsOnTheHour(i.stamp); }
    BetweenIsWindowIff(items, start, end);
  }

  lemma ResumesBetween(items: set<Item>, start: Time, end: Time, b: Balance)
    requires OffTheHour(items) && start <= end && b == ReplayAt(items, start)
    ensures b.Plus(SumOf(Between(items, start, end))) == ReplayAt(items, end)
  {
    BetweenIsWindow(items, start, end);
    ReplayResumes(items, start, end);
  }

  lemma NothingAtGenesis(items: set<Item>)
    requires OffTheHour(items)
    ensures ReplayAt(items, GENESIS * HOUR) == ZERO
  {
    forall i | i in items ensures i.stamp > GENESIS * HOUR {
      OnTheHour(GENESIS);
    }
    assert Upto(items, GENESIS * HOUR) == {};
  }

  /** When query hours never decrease, the search cannot find a later hour than the one asked for. */
  lemma LaterHoursAreTimely(v: View, latest: Time, now: Time)
    requires Coherent(v, latest) && QueryTime(now) && HourOf(latest) <= HourOf(now)
    ensures Timely(v, now)
  {
    SearchStaysInStore(v.stored.Keys, OrdinalOf(now), MONTHS_BACK);
    var last := LastHour(v, now);
    HourWithinDay(latest);
    StepUp(HOUR, HourOf(latest), last);
  }

  function Max(a: Time, b: Time): Time {
    if a < b then b else a
  }

  lemma CoherentLater(v: View, latest: Time, later: Time)
    requires Coherent(v, latest) && latest <= later
    ensures Coherent(v, later)
  {
  }

  lemma StoreKeepsCoherent(v: View, latest: Time, h: int, b: Balance)
    requires Coherent(v, latest) && KeyableHour(h) && h * HOUR <= latest && b == ReplayAt(v.items, h * HOUR)
    ensures Coherent(v.(stored := v.stored[h := b]), latest)
  {
  }

  lemma RememberKeepsCoherent(v: View, latest: Time, h: int, u: Update)
    requires Coherent(v, latest) && KeyableHour(h) && h * HOUR <= u.time <= latest
    requires u.hourly == ReplayAt(v.items, h * HOUR) && u.balance == ReplayAt(v.items, u.time)
    ensures Coherent(v.(updates := v.updates[h := u]), latest)
  {
  }

  lemma SearchKeepsCoherent(v: View, latest: Time, now: Time)
    requires Coherent(v, latest) && QueryTime(now)
    ensures Coherent(AfterSearch(v, now), Max(latest, now))
    ensures LastHour(v, now) in AfterSearch(v, now).stored
  {
    LastHourIsStored(v, now);
    CoherentLater(v, latest, Max(latest, now));
    NothingAtGenesis(v.items);
    HourWithinDay(now);
    StepUp(HOUR, GENESIS, HourOf(now));
    if SearchHour(v.stored.Keys, OrdinalOf(now), MONTHS_BACK).None? {
      StoreKeepsCoherent(v, Max(latest, now), GENESIS, ZERO);
    }
  }

  lemma RebuiltIsReplay(v: View, latest: Time, now: Time)
    requires Coherent(v, latest) && QueryTime(now) && LastHour(v, now) <= HourOf(now)
    ensures Rebuilt(v, now) == ReplayAt(v.items, HourOf(now) * HOUR)
  {
    SearchKeepsCoherent(v, latest, now);
    var last, w := LastHour(v, now), AfterSearch(v, now);
    StoredAt(w, Max(latest, now), last);
    StepUp(HOUR, last, HourOf(now));
    ResumesBetween(v.items, last * HOUR, HourOf(now) * HOUR, w.stored[last]);
  }

  lemma StoredAt(v: View, latest: Time, h: int)
    requires Coherent(v, latest) && h in v.stored
    ensures v.stored[h] == ReplayAt(v.items, h * HOUR)
  {
  }

  lemma HourlyIsReplay(v: View, latest: Time, now: Time)
    requires Coherent(v, latest) && QueryTime(now) && Timely(v, now)
    ensures HourlyBalance(v, now) == ReplayAt(v.items, HourOf(now) * HOUR)
  {
    if HourOf(now) !in v.updates && HourOf(now) !in v.stored {
      RebuiltIsReplay(v, latest, now);
    }
  }

  lemma HourlyKeepsCoherent(v: View, latest: Time, now: Time)
    requires Coherent(v, latest) && QueryTime(now) && Timely(v, now)
    ensures Coherent(AfterHourly(v, now), Max(latest, now))
  {
    var h, b, later := HourOf(now), HourlyBalance(v, now), Max(latest, now);
    HourlyIsReplay(v, latest, now);
    HourWithinDay(now);
    CoherentLater(v, latest, later);
    if h !in v.updates {
      SearchKeepsCoherent(v, latest, now);
      var w := if h in v.stored then v else AfterSearch(v, now);
      StoreKeepsCoherent(w, later, h, b);
      RememberKeepsCoherent(w.(stored := w.stored[h := b]), later, h, Update(b, h * HOUR, b));
    }
  }

  lemma BaseIsReplay(v: View, latest: Time, now: Time)
    requires Coherent(v, latest) && QueryTime(now) && Timely(v, now)
    ensures Base(v, now).hourly == ReplayAt(v.items, HourOf(now) * HOUR)
    ensures Base(v, now).balance == ReplayAt(v.items, Base(v, now).time)
    ensures HourOf(now) * HOUR <= Base(v, now).time <= now
  {
    HourlyIsReplay(v, latest, now);
    HourWithinDay(now);
  }

  /** Whatever is stored or remembered, a query gives the balance of the whole history. */
  lemma QueryIsReplay(v: View, latest: Time, now: Time)
    requires Coherent(v, latest) && QueryTime(now) && Timely(v, now)
    ensures BalanceNow(v, now) == ReplayAt(v.items, now)
  {
    BaseIsReplay(v, latest, now);
    ResumesBetween(v.items, Base(v, now).time, now, Base(v, now).balance);
  }

  /** And it leaves behind only balances of the whole history. */
  lemma QueryKeepsCoherent(v: View, latest: Time, now: Time)
    requires Coherent(v, latest) && QueryTime(now) && Timely(v, now)
    ensures Coherent(AfterBalance(v, now), Max(latest, now))
  {
    HourlyKeepsCoherent(v, latest, now);
    BaseIsReplay(v, latest, now);
    QueryIsReplay(v, latest, now);
    ItemsUntouched(v, now);
    RememberKeepsCoherent(AfterHourly(v, now), Max(latest, now), HourOf(now),
                          Update(Base(v, now).hourly, now, BalanceNow(v, now)));
  }

  lemma ItemsUntouched(v: View, now: Time)
    requires QueryTime(now)
    ensures AfterHourly(v, now).items == v.items
  {
  }

  // A store that has grown by some hours and is otherwise as it was.
  predicate GrownBy(before: map<int, Balance>, after: map<int, Balance>, hours: set<int>) {
    && (forall k :: k in after ==> k in before || k in hours)
    && (forall k :: k in before ==> k in after && after[k] == before[k])
  }

  lemma SearchGrows(v: View, latest: Time, now: Time)
    requires Coherent(v, latest) && QueryTime(now)
    ensures GrownBy(v.stored, AfterSearch(v, now).stored, {GENESIS})
  {
    NothingAtGenesis(v.items);
    if GENESIS in v.stored { StoredAt(v, latest, GENESIS); }
  }

  lemma HourlyGrows(v: View, latest: Time, now: Time)
    requires Coherent(v, latest) && QueryTime(now)
    ensures GrownBy(v.stored, AfterHourly(v, now).stored, {GENESIS, HourOf(now)})
    ensures HourOf(now) !in v.updates ==> HourOf(now) in AfterHourly(v, now).stored
  {
    SearchGrows(v, latest, now);
  }

  /** The answer is remembered for its hour, and the balance at the top of the hour is kept in the store; but for
      that and the balance of zero at the beginning the store is as it was. */
  lemma QueryLeavesBehind(v: View, latest: Time, now: Time)
    requires Coherent(v, latest) && QueryTime(now) && Timely(v, now)
    ensures var h, w := HourOf(now), AfterBalance(v, now);
      && h in w.updates && w.updates[h] == Update(ReplayAt(v.items, h * HOUR), now, ReplayAt(v.items, now))
      && w.updates == v.updates[h := w.updates[h]]
      && (h !in v.updates ==> h in w.stored)
      && GrownBy(v.stored, w.stored, {GENESIS, h})
  {
    QueryIsReplay(v, latest, now);
    BaseIsReplay(v, latest, now);
    HourlyGrows(v, latest, now);
    UpdatesChange(v, now, AfterBalance(v, now).updates[HourOf(now)]);
  }

  lemma UpdatesChange(v: View, now: Time, u: Update)
    requires QueryTime(now)
    ensures AfterHourly(v, now).updates[HourOf(now) := u] == v.updates[HourOf(now) := u]
  {
  }

  // ------------------------------------------------------------ queries that find a later hour

  // The line items that stand between the hour asked for and the later hour found.
  ghost function Overtaken(v: View, now: Time): set<Item>
    requires QueryTime(now)
  {
    Window(v.items, HourOf(now) * HOUR, LastHour(v, now) * HOUR)
  }

  // From a later hour there is nothing to add: its balance is passed off as that of the hour asked for.
  lemma RebuiltFromLater(v: View, latest: Time, now: Time)
    requires Coherent(v, latest) && QueryTime(now) && HourOf(now) < LastHour(v, now)
    ensures Rebuilt(v, now) == ReplayAt(v.items, HourOf(now) * HOUR).Plus(SumOf(Overtaken(v, now)))
  {
    SearchKeepsCoherent(v, latest, now);
    var h, last, w := HourOf(now), LastHour(v, now), AfterSearch(v, now);
    StoredAt(w, Max(latest, now), last);
    StepUp(HOUR, h, last);
    assert Between(v.items, last * HOUR, h * HOUR) == {};
    ReplayResumes(v.items, h * HOUR, last * HOUR);
  }

  lemma RebuiltOnSide(v: View, latest: Time, now: Time, side: Side)
    requires Coherent(v, latest) && QueryTime(now) && HourOf(now) < LastHour(v, now)
    ensures Rebuilt(v, now).On(side) == ReplayAt(v.items, HourOf(now) * HOUR).On(side) + SumOn(side, Overtaken(v, now))
  {
    RebuiltFromLater(v, latest, now);
    PlusOnSide(ReplayAt(v.items, HourOf(now) * HOUR), SumOf(Overtaken(v, now)), side);
    SumOnSide(Overtaken(v, now), side);
  }

  lemma BalanceOnSide(v: View, latest: Time, now: Time, side: Side)
    requires Coherent(v, latest) && QueryTime(now) && !Timely(v, now)
    ensures BalanceNow(v, now).On(side) == ReplayAt(v.items, now).On(side) + SumOn(side, Overtaken(v, now))
  {
    var top := HourOf(now) * HOUR;
    RebuiltOnSide(v, latest, now, side);
    HourWithinDay(now);
    BetweenIsWindow(v.items, top, now);
    ReplayResumes(v.items, top, now);
    PlusOnSide(Rebuilt(v, now), SumOf(Window(v.items, top, now)), side);
    PlusOnSide(ReplayAt(v.items, top), SumOf(Window(v.items, top, now)), side);
  }

  /** Without any assumption on the order of queries: a figure is that of the whole history exactly when the
      search finds no later hour than the one asked for, or the line items between the two come to nothing.
      They are otherwise counted twice. */
  lemma QueryIsReplayIff(v: View, latest: Time, now: Time, side: Side)
    requires Coherent(v, latest) && QueryTime(now)
    ensures BalanceNow(v, now).On(side) == ReplayAt(v.items, now).On(side) <==>
      Timely(v, now) || SumOn(side, Overtaken(v, now)) == 0
  {
    if Timely(v, now) {
      QueryIsReplay(v, latest, now);
    } else {
      BalanceOnSide(v, latest, now, side);
    }
  }

  // ------------------------------------------------------------ writing

  lemma LaterItemsDoNotCount(items: set<Item>, i: Item, t: Time)
    requires t < i.stamp
    ensures ReplayAt(items + {i}, t) == ReplayAt(items, t)
  {
    assert Upto(items + {i}, t) == Upto(items, t);
  }

  predicate MayWrite(i: Item, latest: Time) {
    Stampable(i.stamp) && i.stamp % HOUR != 0 && latest < i.stamp
  }

  /** A line item written before anyone has asked for a balance at its stamp makes nothing stale. */
  lemma WriteKeepsCoherent(v: View, latest: Time, i: Item)
    requires Coherent(v, latest) && MayWrite(i, latest)
    ensures Coherent(v.(items := v.items + {i}), latest)
  {
    forall t | t <= latest ensures ReplayAt(v.items + {i}, t) == ReplayAt(v.items, t) {
      LaterItemsDoNotCount(v.items, i, t);
    }
  }

  /** A line item written late is counted exactly when it is stamped after the balance that the query goes
      on from, or when it would not change the figure. */
  lemma LateWriteIsSeenIff(v: View, latest: Time, i: Item, now: Time, side: Side)
    requires Coherent(v, latest) && QueryTime(now) && Timely(v, now)
    requires i !in v.items && OffTheHour({i}) && i.stamp <= now
    ensures var w := v.(items := v.items + {i});
      BalanceNow(w, now).On(side) == ReplayAt(w.items, now).On(side) <==>
      (StartsFrom(v, now) < i.stamp || EffectOn(side)(i) == 0)
  {
    var w := v.(items := v.items + {i});
    var effect := EffectOn(side)(i);
    var found, due := BalanceNow(v, now).On(side), ReplayAt(v.items, now).On(side);
    assert found == due by { QueryIsReplay(v, latest, now); }
    assert ReplayAt(w.items, now).On(side) == due + effect by { ReplayGains(v.items, i, now, side); }
    assert BalanceNow(w, now).On(side) == found + if StartsFrom(v, now) < i.stamp then effect else 0 by {
      BalanceGains(v, latest, i, now, side);
    }
  }

  lemma NothingIsCoherent(latest: Time)
    ensures Coherent(View({}, map[], map[]), latest)
  {
  }

  lemma FirstAnswerIsKept(now: Time)
    requires QueryTime(now)
    ensures var v := AfterBalance(View({}, map[], map[]), now);
      v.items == {} && Coherent(v, now) && HourOf(now) in v.updates && v.updates[HourOf(now)].time == now
  {
    var empty := View({}, map[], map[]);
    NothingIsCoherent(now);
    LaterHoursAreTimely(empty, now, now);
    QueryKeepsCoherent(empty, now, now);
    ItemsUntouched(empty, now);
  }

  /** A new account is asked for its balance; then a line item stamped before is written. Later balances of
      that hour do not count it. */
  lemma LateItemIsMissed(now: Time, later: Time, i: Item, side: Side)
    requires QueryTime(now) && QueryTime(later) && now < later && HourOf(now) == HourOf(later)
    requires OffTheHour({i}) && i.stamp <= now && EffectOn(side)(i) != 0
    ensures var v := AfterBalance(View({}, map[], map[]), now);
      BalanceNow(v.(items := v.items + {i}), later).On(side) != ReplayAt(v.items + {i}, later).On(side)
  {
    FirstAnswerIsKept(now);
    var v := AfterBalance(View({}, map[], map[]), now);
    assert StartsFrom(v, later) == now;
    LateWriteIsSeenIff(v, now, i, later, side);
  }

  lemma SomeDay() returns (n: int)
    ensures QueryDay(n, MONTHS_BACK) && Civil(n).year == 2019
  {
    var d := Date(2019, 3, 21);
    n := Ordinal(d);
    CivilOfOrdinal(d);
    CivilOfOrdinal(PreviousDate(d));
    assert n - 1 == Ordinal(PreviousDate(d));
  }

  // Half past ten, a second before and a minute later.
  lemma HalfPastTen(n: int, now: Time)
    requires now == n * DAY + 10 * HOUR + 30 * MINUTE
    ensures HourOf(now) == HourOf(now + MINUTE) == 24 * n + 10 && (now - SECOND) % HOUR != 0
    ensures OrdinalOf(now) == OrdinalOf(now + MINUTE) == OrdinalOf(now - SECOND) == n
  {
    Quotient(now, HOUR, 24 * n + 10, 30 * MINUTE);
    Quotient(now + MINUTE, HOUR, 24 * n + 10, 31 * MINUTE);
    Quotient(now - SECOND, HOUR, 24 * n + 10, 30 * MINUTE - SECOND);
    Quotient(now, DAY, n, 10 * HOUR + 30 * MINUTE);
    Quotient(now + MINUTE, DAY, n, 10 * HOUR + 31 * MINUTE);
    Quotient(now - SECOND, DAY, n, 10 * HOUR + 30 * MINUTE - SECOND);
  }

  /** For instance a credit stamped a second before half past ten and written just after someone has asked. */
  lemma LateCreditIsMissed(value: int) returns (now: Time)
    requires 0 < value <= MAX_TRANSACTION
    ensures QueryTime(now) && QueryTime(now + MINUTE)
    ensures var i := Item(now - SECOND, "", TransactionInfo(Credit, value, None));
      var v := AfterBalance(View({}, map[], map[]), now);
      BalanceNow(v.(items := v.items + {i}), now + MINUTE).On(Funds) != ReplayAt(v.items + {i}, now + MINUTE).On(Funds)
  {
    var n := SomeDay();
    now := n * DAY + 10 * HOUR + 30 * MINUTE;
    HalfPastTen(n, now);
    LateItemIsMissed(now, now + MINUTE, Item(now - SECOND, "", TransactionInfo(Credit, value, None)), Funds);
  }

  // The time of the kept balance that a query goes on from.
  ghost function StartsFrom(v: View, now: Time): Time
    requires QueryTime(now)
  {
    var h := HourOf(now);
    if h in v.updates && v.updates[h].time < now then v.updates[h].time
    else if h in v.updates || h in v.stored then h * HOUR
    else LastHour(v, now) * HOUR
  }

  lemma ReplayGains(items: set<Item>, i: Item, t: Time, side: Side)
    requires i !in items && i.stamp <= t
    ensures ReplayAt(items + {i}, t).On(side) == ReplayAt(items, t).On(side) + EffectOn(side)(i)
  {
    assert Upto(items + {i}, t) == Upto(items, t) + {i};
    SumSetInsert(Upto(items, t), EffectOn(side), i);
    SumOnSide(Upto(items, t), side);
    SumOnSide(Upto(items, t) + {i}, side);
  }

  lemma SumBetweenGains(items: set<Item>, i: Item, start: Time, end: Time, side: Side)
    requires i !in items && OffTheHour({i})
    ensures SumOf(Between(items + {i}, start, end)).On(side) ==
      SumOf(Between(items, start, end)).On(side) + if start < i.stamp <= end then EffectOn(side)(i) else 0
  {
    assert i in {i};
    MidnightIsOnTheHour(i.stamp);
    if start < i.stamp <= end {
      assert Between(items + {i}, start, end) == Between(items, start, end) + {i};
      SumSetInsert(Between(items, start, end), EffectOn(side), i);
      SumOnSide(Between(items, start, end), side);
      SumOnSide(Between(items, start, end) + {i}, side);
    } else {
      assert Between(items + {i}, start, end) == Between(items, start, end);
    }
  }

  lemma HourlyGains(v: View, latest: Time, i: Item, now: Time, side: Side)
    requires Coherent(v, latest) && QueryTime(now) && i !in v.items && OffTheHour({i})
    ensures var w, h := v.(items := v.items + {i}), HourOf(now);
      HourlyBalance(w, now).On(side) == HourlyBalance(v, now).On(side) +
      if h !in v.updates && h !in v.stored && LastHour(v, now) * HOUR < i.stamp <= h * HOUR
      then EffectOn(side)(i) else 0
  {
    var w, h, last := v.(items := v.items + {i}), HourOf(now), LastHour(v, now);
    if h !in v.updates && h !in v.stored {
      LastHourIsStored(v, now);
      var b := AfterSearch(v, now).stored[last];
      SumBetweenGains(v.items, i, last * HOUR, h * HOUR, side);
      PlusOnSide(b, SumOf(Between(v.items, last * HOUR, h * HOUR)), side);
      PlusOnSide(b, SumOf(Between(w.items, last * HOUR, h * HOUR)), side);
    }
  }

  lemma BalanceGains(v: View, latest: Time, i: Item, now: Time, side: Side)
    requires Coherent(v, latest) && QueryTime(now) && Timely(v, now)
    requires i !in v.items && OffTheHour({i}) && i.stamp <= now
    ensures var w := v.(items := v.items + {i});
      BalanceNow(w, now).On(side) == BalanceNow(v, now).On(side) +
      if StartsFrom(v, now) < i.stamp then EffectOn(side)(i) else 0
  {
    var w := v.(items := v.items + {i});
    HourlyGains(v, latest, i, now, side);
    HourWithinDay(now);
    SearchKeepsCoherent(v, latest, now);
    var start := Base(v, now).time;
    SumBetweenGains(v.items, i, start, now, side);
    PlusOnSide(Base(v, now).balance, SumOf(Between(v.items, start, now)), side);
    PlusOnSide(Base(w, now).balance, SumOf(Between(w.items, start, now)), side);
  }
}
