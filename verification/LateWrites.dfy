/**
 Whole runs of an account in which line items may be written late, after somebody has asked for a balance at
 or after their stamp. Beside every balance that is stored or remembered, the line items it lacks are kept:
 those that were written after it and stamped no later. Every answer lacks exactly the line items that the
 kept balance it goes on from lacks.
 */
module LateWrites {
  import opened BalanceCache
  import opened BalanceKeys
  import opened BalanceRuns
  import opened BalanceSearch
  import opened Balances
  import opened Calendar
  import opened LineItemKeys
  import opened Sums

  // The line items that the two balances of an update lack.
  datatype UpdateGap = UpdateGap(hourly: set<Item>, balance: set<Item>)

  // The line items that the balances of a view lack, filed under the same hours.
  datatype Gaps = Gaps(stored: map<int, set<Item>>, updates: map<int, UpdateGap>)

  function StoredGap(g: Gaps, h: int): set<Item> {
    if h in g.stored then g.stored[h] else {}
  }

  function RememberedGap(g: Gaps, h: int): UpdateGap {
    if h in g.updates then g.updates[h] else UpdateGap({}, {})
  }

  // ------------------------------------------------------------ what a query passes on

  ghost function HourlyGap(v: View, g: Gaps, now: Time): set<Item>
    requires QueryTime(now)
  {
    var h := HourOf(now);
    if h in v.updates then RememberedGap(g, h).hourly
    else if h in v.stored then StoredGap(g, h)
    else
      match SearchHour(v.stored.Keys, OrdinalOf(now), MONTHS_BACK)
      case Some(last) => StoredGap(g, last)
      case None => {}
  }

  /** The line items that the answer of a query lacks. */
  ghost function Missed(v: View, g: Gaps, now: Time): set<Item>
    requires QueryTime(now)
  {
    var h := HourOf(now);
    if h in v.updates && v.updates[h].time < now then RememberedGap(g, h).balance else HourlyGap(v, g, now)
  }

  ghost function AfterSearchGaps(v: View, g: Gaps, now: Time): map<int, set<Item>>
    requires QueryTime(now)
  {
    match SearchHour(v.stored.Keys, OrdinalOf(now), MONTHS_BACK)
    case Some(_) => g.stored
    case None => g.stored[GENESIS := {}]
  }

  ghost function StoredGaps(v: View, g: Gaps, now: Time): map<int, set<Item>>
    requires QueryTime(now)
  {
    var h := HourOf(now);
    if h in v.updates then g.stored
    else (if h in v.stored then g.stored else AfterSearchGaps(v, g, now))[h := HourlyGap(v, g, now)]
  }

  ghost function AfterQuery(v: View, g: Gaps, now: Time): Gaps
    requires QueryTime(now)
  {
    Gaps(StoredGaps(v, g, now), g.updates[HourOf(now) := UpdateGap(HourlyGap(v, g, now), Missed(v, g, now))])
  }

  // A line item written now is lacking in a balance for time `t` that is kept already.
  function Widened(gap: set<Item>, i: Item, t: Time): set<Item> {
    if i.stamp <= t then gap + {i} else gap
  }

  function StoredWidened(stored: map<int, set<Item>>, i: Item): map<int, set<Item>> {
    map h | h in stored :: Widened(stored[h], i, h * HOUR)
  }

  function UpdatesWidened(updates: map<int, Update>, gaps: map<int, UpdateGap>, i: Item): map<int, UpdateGap> {
    map h | h in gaps && h in updates ::
      UpdateGap(Widened(gaps[h].hourly, i, h * HOUR), Widened(gaps[h].balance, i, updates[h].time))
  }

  // ------------------------------------------------------------ balances with gaps

  /** The balance of the line items stamped at or before `t`, but for those it lacks. */
  ghost predicate Lacks(items: set<Item>, t: Time, b: Balance, gap: set<Item>) {
    gap <= Upto(items, t) && b == SumOf(Upto(items, t) - gap)
  }

  ghost predicate StoredLacks(items: set<Item>, stored: map<int, Balance>, gaps: map<int, set<Item>>) {
    gaps.Keys == stored.Keys &&
    forall h :: h in stored ==> KeyableHour(h) && Lacks(items, h * HOUR, stored[h], gaps[h])
  }

  ghost predicate UpdatesLack(items: set<Item>, updates: map<int, Update>, gaps: map<int, UpdateGap>) {
    gaps.Keys == updates.Keys &&
    forall h :: h in updates ==>
      && KeyableHour(h) && h * HOUR <= updates[h].time
      && Lacks(items, h * HOUR, updates[h].hourly, gaps[h].hourly)
      && Lacks(items, updates[h].time, updates[h].balance, gaps[h].balance)
  }

  ghost predicate Accounted(v: View, g: Gaps) {
    OffTheHour(v.items) && StoredLacks(v.items, v.stored, g.stored) && UpdatesLack(v.items, v.updates, g.updates)
  }

  // Going on from a balance passes on what it lacks and nothing else.
  lemma ResumesLacking(items: set<Item>, start: Time, end: Time, b: Balance, gap: set<Item>)
    requires OffTheHour(items) && start <= end && Lacks(items, start, b, gap)
    ensures Lacks(items, end, b.Plus(SumOf(Between(items, start, end))), gap)
  {
    BetweenIsWindow(items, start, end);
    var known, window := Upto(items, start) - gap, Window(items, start, end);
    assert Upto(items, end) - gap == known + window;
    forall side ensures SumOn(side, known + window) == SumOn(side, known) + SumOn(side, window) {
      SumSetUnion(known, window, EffectOn(side));
    }
  }

  lemma NothingLacksAtGenesis(items: set<Item>)
    requires OffTheHour(items)
    ensures Lacks(items, GENESIS * HOUR, ZERO, {})
  {
    NothingAtGenesis(items);
    assert Upto(items, GENESIS * HOUR) - {} == Upto(items, GENESIS * HOUR);
  }

  lemma RebuiltLacks(v: View, g: Gaps, now: Time)
    requires Accounted(v, g) && QueryTime(now) && LastHour(v, now) <= HourOf(now)
    requires HourOf(now) !in v.updates && HourOf(now) !in v.stored
    ensures Lacks(v.items, HourOf(now) * HOUR, Rebuilt(v, now), HourlyGap(v, g, now))
  {
    SearchStaysInStore(v.stored.Keys, OrdinalOf(now), MONTHS_BACK);
    LastHourIsStored(v, now);
    NothingLacksAtGenesis(v.items);
    var last := LastHour(v, now);
    StepUp(HOUR, last, HourOf(now));
    ResumesLacking(v.items, last * HOUR, HourOf(now) * HOUR, AfterSearch(v, now).stored[last], HourlyGap(v, g, now));
  }

  lemma HourlyLacks(v: View, g: Gaps, now: Time)
    requires Accounted(v, g) && QueryTime(now) && Timely(v, now)
    ensures Lacks(v.items, HourOf(now) * HOUR, HourlyBalance(v, now), HourlyGap(v, g, now))
  {
    if HourOf(now) !in v.updates && HourOf(now) !in v.stored {
      RebuiltLacks(v, g, now);
    }
  }

  lemma BaseLacks(v: View, g: Gaps, now: Time)
    requires Accounted(v, g) && QueryTime(now) && Timely(v, now)
    ensures Lacks(v.items, HourOf(now) * HOUR, Base(v, now).hourly, HourlyGap(v, g, now))
    ensures Lacks(v.items, Base(v, now).time, Base(v, now).balance, Missed(v, g, now))
    ensures HourOf(now) * HOUR <= Base(v, now).time <= now
  {
    HourlyLacks(v, g, now);
    HourWithinDay(now);
  }

  /** An answer is the sum of the line items stamped by then, each counted once, but for those it lacks. */
  lemma AnswerLacks(v: View, g: Gaps, now: Time)
    requires Accounted(v, g) && QueryTime(now) && Timely(v, now)
    ensures Lacks(v.items, now, BalanceNow(v, now), Missed(v, g, now))
  {
    BaseLacks(v, g, now);
    ResumesLacking(v.items, Base(v, now).time, now, Base(v, now).balance, Missed(v, g, now));
  }

  lemma StoreOneMore(items: set<Item>, stored: map<int, Balance>, gaps: map<int, set<Item>>,
                     h: int, b: Balance, gap: set<Item>)
    requires StoredLacks(items, stored, gaps) && KeyableHour(h) && Lacks(items, h * HOUR, b, gap)
    ensures StoredLacks(items, stored[h := b], gaps[h := gap])
  {
  }

  lemma RememberOneMore(items: set<Item>, updates: map<int, Update>, gaps: map<int, UpdateGap>,
                        h: int, u: Update, gap: UpdateGap)
    requires UpdatesLack(items, updates, gaps) && KeyableHour(h) && h * HOUR <= u.time
    requires Lacks(items, h * HOUR, u.hourly, gap.hourly) && Lacks(items, u.time, u.balance, gap.balance)
    ensures UpdatesLack(items, updates[h := u], gaps[h := gap])
  {
  }

  lemma SearchStaysAccounted(v: View, g: Gaps, now: Time)
    requires Accounted(v, g) && QueryTime(now)
    ensures StoredLacks(v.items, AfterSearch(v, now).stored, AfterSearchGaps(v, g, now))
  {
    NothingLacksAtGenesis(v.items);
    if SearchHour(v.stored.Keys, OrdinalOf(now), MONTHS_BACK).None? {
      StoreOneMore(v.items, v.stored, g.stored, GENESIS, ZERO, {});
    }
  }

  lemma StoredStaysAccounted(v: View, g: Gaps, now: Time)
    requires Accounted(v, g) && QueryTime(now) && Timely(v, now)
    ensures StoredLacks(v.items, AfterHourly(v, now).stored, StoredGaps(v, g, now))
  {
    var h := HourOf(now);
    if h !in v.updates {
      HourlyLacks(v, g, now);
      SearchStaysAccounted(v, g, now);
      StoreOneMore(v.items, if h in v.stored then v.stored else AfterSearch(v, now).stored,
                   if h in v.stored then g.stored else AfterSearchGaps(v, g, now),
                   h, HourlyBalance(v, now), HourlyGap(v, g, now));
    }
  }

  lemma HourlyLeavesUpdates(v: View, now: Time, u: Update)
    requires QueryTime(now)
    ensures AfterHourly(v, now).updates[HourOf(now) := u] == v.updates[HourOf(now) := u]
    ensures AfterHourly(v, now).items == v.items
  {
  }

  lemma QueryStaysAccounted(v: View, g: Gaps, now: Time)
    requires Accounted(v, g) && QueryTime(now) && Timely(v, now)
    ensures AfterBalance(v, now).items == v.items && Accounted(AfterBalance(v, now), AfterQuery(v, g, now))
  {
    var u := Update(Base(v, now).hourly, now, BalanceNow(v, now));
    StoredStaysAccounted(v, g, now);
    HourlyLeavesUpdates(v, now, u);
    BaseLacks(v, g, now);
    AnswerLacks(v, g, now);
    RememberOneMore(v.items, v.updates, g.updates, HourOf(now), u, UpdateGap(HourlyGap(v, g, now), Missed(v, g, now)));
  }

  lemma WidenedLacks(items: set<Item>, i: Item, t: Time, b: Balance, gap: set<Item>)
    requires i !in items && Lacks(items, t, b, gap)
    ensures Lacks(items + {i}, t, b, Widened(gap, i, t))
  {
    assert Upto(items + {i}, t) - Widened(gap, i, t) == Upto(items, t) - gap;
  }

  lemma StoredWidens(items: set<Item>, stored: map<int, Balance>, gaps: map<int, set<Item>>, i: Item)
    requires StoredLacks(items, stored, gaps) && i !in items
    ensures StoredLacks(items + {i}, stored, StoredWidened(gaps, i))
  {
    forall h | h in stored ensures Lacks(items + {i}, h * HOUR, stored[h], StoredWidened(gaps, i)[h]) {
      WidenedLacks(items, i, h * HOUR, stored[h], gaps[h]);
    }
  }

  lemma UpdatesWiden(items: set<Item>, updates: map<int, Update>, gaps: map<int, UpdateGap>, i: Item)
    requires UpdatesLack(items, updates, gaps) && i !in items
    ensures UpdatesLack(items + {i}, updates, UpdatesWidened(updates, gaps, i))
  {
    var wider := UpdatesWidened(updates, gaps, i);
    forall h | h in updates
      ensures Lacks(items + {i}, h * HOUR, updates[h].hourly, wider[h].hourly)
      ensures Lacks(items + {i}, updates[h].time, updates[h].balance, wider[h].balance)
    {
      WidenedLacks(items, i, h * HOUR, updates[h].hourly, gaps[h].hourly);
      WidenedLacks(items, i, updates[h].time, updates[h].balance, gaps[h].balance);
    }
  }

  lemma WriteStaysAccounted(v: View, g: Gaps, i: Item)
    requires Accounted(v, g) && OffTheHour({i}) && i !in v.items
    ensures Accounted(v.(items := v.items + {i}),
                      Gaps(StoredWidened(g.stored, i), UpdatesWidened(v.updates, g.updates, i)))
  {
    assert i in {i};
    StoredWidens(v.items, v.stored, g.stored, i);
    UpdatesWiden(v.items, v.updates, g.updates, i);
  }

  // ------------------------------------------------------------ runs

  // A world of any number of readers, and what is lacking in the store and in each reader's memory.
  datatype Tracked = Tracked(w: World, stored: map<int, set<Item>>, memories: map<Reader, map<int, UpdateGap>>)

  function MemoryGaps(t: Tracked, reader: Reader): map<int, UpdateGap> {
    if reader in t.memories then t.memories[reader] else map[]
  }

  function GapsOf(t: Tracked, reader: Reader): Gaps {
    Gaps(t.stored, MemoryGaps(t, reader))
  }

  ghost predicate AllAccounted(t: Tracked) {
    t.memories.Keys == t.w.memories.Keys && forall reader :: Accounted(Seen(t.w, reader), GapsOf(t, reader))
  }

  // Line items may be written at any time.
  ghost predicate Allowed(t: Tracked, e: Event) {
    match e
    case Query(reader, now) => QueryTime(now) && Timely(Seen(t.w, reader), now)
    case Write(item) => OffTheHour({item}) && item !in t.w.items
    case Reload(_) => true
  }

  // A query by `reader` leaves `v` and the gaps `g` behind.
  function Answered(t: Tracked, reader: Reader, v: View, g: Gaps, now: Time): Tracked {
    Tracked(Absorb(t.w, reader, v, now), g.stored, t.memories[reader := g.updates])
  }

  ghost function Next(t: Tracked, e: Event): Tracked
    requires Allowed(t, e)
  {
    match e
    case Query(reader, now) =>
      var v, g := Seen(t.w, reader), GapsOf(t, reader);
      Answered(t, reader, AfterBalance(v, now), AfterQuery(v, g, now), now)
    case Write(item) =>
      Tracked(t.w.(items := t.w.items + {item}), StoredWidened(t.stored, item),
              map r | r in t.memories :: UpdatesWidened(Memory(t.w, r), MemoryGaps(t, r), item))
    case Reload(reader) =>
      Tracked(t.w.(memories := t.w.memories[reader := map[]]), t.stored, t.memories[reader := map[]])
  }

  // ------------------------------------------------------------ every step keeps the accounts

  lemma AnsweredKeepsAccounts(t: Tracked, asker: Reader, v: View, g: Gaps, now: Time)
    requires AllAccounted(t) && Accounted(v, g) && v.items == t.w.items
    ensures AllAccounted(Answered(t, asker, v, g, now))
  {
    var t' := Answered(t, asker, v, g, now);
    forall r ensures Accounted(Seen(t'.w, r), GapsOf(t', r)) {
      assert Accounted(Seen(t.w, r), GapsOf(t, r));
      if r == asker {
        assert Seen(t'.w, r) == v && GapsOf(t', r) == g;
      } else {
        assert Seen(t'.w, r) == Seen(t.w, r).(stored := v.stored);
        assert GapsOf(t', r) == GapsOf(t, r).(stored := g.stored);
      }
    }
  }

  lemma QueryKeepsAccounts(t: Tracked, asker: Reader, now: Time)
    requires AllAccounted(t) && Allowed(t, Query(asker, now))
    ensures AllAccounted(Next(t, Query(asker, now)))
  {
    var v, g := Seen(t.w, asker), GapsOf(t, asker);
    assert Accounted(v, g);
    QueryStaysAccounted(v, g, now);
    AnsweredKeepsAccounts(t, asker, AfterBalance(v, now), AfterQuery(v, g, now), now);
  }

  lemma WriteKeepsAccounts(t: Tracked, i: Item)
    requires AllAccounted(t) && Allowed(t, Write(i))
    ensures AllAccounted(Next(t, Write(i)))
  {
    var t' := Next(t, Write(i));
    forall r ensures Accounted(Seen(t'.w, r), GapsOf(t', r)) {
      var v, g := Seen(t.w, r), GapsOf(t, r);
      assert Accounted(v, g);
      WriteStaysAccounted(v, g, i);
      assert Seen(t'.w, r) == v.(items := v.items + {i});
      assert GapsOf(t', r) == Gaps(StoredWidened(g.stored, i), UpdatesWidened(v.updates, g.updates, i));
    }
  }

  lemma ReloadKeepsAccounts(t: Tracked, other: Reader)
    requires AllAccounted(t)
    ensures AllAccounted(Next(t, Reload(other)))
  {
    var t' := Next(t, Reload(other));
    forall r ensures Accounted(Seen(t'.w, r), GapsOf(t', r)) {
      assert Accounted(Seen(t.w, r), GapsOf(t, r));
    }
  }

  lemma StepKeepsAccounts(t: Tracked, e: Event)
    requires AllAccounted(t) && Allowed(t, e)
    ensures AllAccounted(Next(t, e))
  {
    match e
    case Query(reader, now) => QueryKeepsAccounts(t, reader, now);
    case Write(item) => WriteKeepsAccounts(t, item);
    case Reload(reader) => ReloadKeepsAccounts(t, reader);
  }

  ghost predicate Possible(t: Tracked, events: seq<Event>)
    decreases |events|, 0
  {
    |events| == 0 ||
    var rest := events[..|events| - 1];
    Possible(t, rest) && Allowed(RunOn(t, rest), events[|events| - 1])
  }

  ghost function RunOn(t: Tracked, events: seq<Event>): Tracked
    requires Possible(t, events)
    decreases |events|, 1
  {
    if |events| == 0 then t else Next(RunOn(t, events[..|events| - 1]), events[|events| - 1])
  }

  lemma {:induction false} RunKeepsAccounts(t: Tracked, events: seq<Event>)
    requires AllAccounted(t) && Possible(t, events)
    ensures AllAccounted(RunOn(t, events))
    decreases |events|
  {
    if |events| > 0 {
      RunKeepsAccounts(t, events[..|events| - 1]);
      StepKeepsAccounts(RunOn(t, events[..|events| - 1]), events[|events| - 1]);
    }
  }

  // A new account.
  function Empty(start: Time): Tracked {
    Tracked(World({}, map[], map[], start), map[], map[])
  }

  lemma EmptyIsAccounted(start: Time)
    ensures AllAccounted(Empty(start))
  {
  }

  ghost function Answer(t: Tracked, reader: Reader, now: Time): Balance
    requires QueryTime(now)
  {
    BalanceNow(Seen(t.w, reader), now)
  }

  ghost function MissedBy(t: Tracked, reader: Reader, now: Time): set<Item>
    requires QueryTime(now)
  {
    Missed(Seen(t.w, reader), GapsOf(t, reader), now)
  }

  lemma AnswerOnSide(t: Tracked, reader: Reader, now: Time, side: Side)
    requires AllAccounted(t) && Allowed(t, Query(reader, now))
    ensures Lacks(t.w.items, now, Answer(t, reader, now), MissedBy(t, reader, now))
    ensures Answer(t, reader, now).On(side) + SumOn(side, MissedBy(t, reader, now)) == ReplayAt(t.w.items, now).On(side)
  {
    assert Accounted(Seen(t.w, reader), GapsOf(t, reader));
    AnswerLacks(Seen(t.w, reader), GapsOf(t, reader), now);
    LackingOnSide(t.w.items, now, Answer(t, reader, now), MissedBy(t, reader, now), side);
  }

  lemma LackingOnSide(items: set<Item>, t: Time, b: Balance, gap: set<Item>, side: Side)
    requires Lacks(items, t, b, gap)
    ensures b.On(side) + SumOn(side, gap) == ReplayAt(items, t).On(side)
  {
    SumSetUnion(Upto(items, t) - gap, gap, EffectOn(side));
    assert Upto(items, t) == (Upto(items, t) - gap) + gap;
    SumOnSide(Upto(items, t), side);
    SumOnSide(Upto(items, t) - gap, side);
  }

  /** From an empty account on, in every run, with any number of line items written late: an answer is the sum
      of the line items stamped by then, each counted once, but for those that the kept balance it goes on
      from lacks; a figure is that of the whole history exactly when those come to nothing there. */
  lemma AnswersLackExactly(start: Time, events: seq<Event>, reader: Reader, now: Time, side: Side)
    requires Possible(Empty(start), events) && Allowed(RunOn(Empty(start), events), Query(reader, now))
    ensures var t := RunOn(Empty(start), events);
      Lacks(t.w.items, now, Answer(t, reader, now), MissedBy(t, reader, now))
    ensures var t := RunOn(Empty(start), events);
      Answer(t, reader, now).On(side) == ReplayAt(t.w.items, now).On(side) <==>
      SumOn(side, MissedBy(t, reader, now)) == 0
  {
    EmptyIsAccounted(start);
    RunKeepsAccounts(Empty(start), events);
    AnswerOnSide(RunOn(Empty(start), events), reader, now, side);
  }
}
