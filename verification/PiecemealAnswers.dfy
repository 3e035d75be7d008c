/**
 What `balance` answers while line items are being written: a query reads the clock, recalls what its account
 remembers or has the balance at the top of the hour rebuilt, and lists the line items since then piece by
 piece. Writers stamp, check and write between any two of these steps. Beside every balance that is being
 added up or remembered, the line items it misses are kept: those that were written after the times up to
 their stamp had been listed.
 */
module PiecemealAnswers {
  import LateWrites
  import SafeTimes
  import opened BalanceCache
  import opened Balances
  import opened Calendar
  import opened LineItemKeys
  import opened Sums
  import opened TimedWrites
  import opened Wrappers

  // What an account remembers of an hour: the balance at its top, and the last answer.
  datatype Kept = Kept(hourly: Balance, time: Time, balance: Balance, missed: set<Item>)

  // How far a query for the balance at `now` has got.
  datatype Asker =
    | Quiet
    | Wanting(now: Time)      // the balance at the top of the hour
    | Listing(now: Time, hourly: Balance, upto: Time, balance: Balance, missed: set<Item>)

  // An account loaded by a process.
  datatype Loaded = Loaded(asker: Asker, memory: map<int, Kept>)

  datatype State = State(w: World, accounts: map<Pid, Loaded>)

  datatype Event =
    | Inner(s: Step)                // time passes, somebody writes, or a balance is searched for
    | Ask(p: Pid)
    | StoreHourly(p: Pid)
    | List(p: Pid, upto: Time)
    | Answer(p: Pid)
    | Reload(p: Pid)

  function AccountOf(st: State, p: Pid): Loaded {
    if p in st.accounts then st.accounts[p] else Loaded(Quiet, map[])
  }

  function With(st: State, p: Pid, a: Loaded): State {
    st.(accounts := st.accounts[p := a])
  }

  predicate Allowed(st: State, e: Event) {
    match e
    case Inner(s) => Enabled(st.w, s) && !s.ReadClock? && !s.Store?
    case Ask(p) => AccountOf(st, p).asker.Quiet? && ReaderOf(st.w, p).Resting?
    case StoreHourly(p) => AccountOf(st, p).asker.Wanting? && Enabled(st.w, Store(p))
    case List(p, upto) =>
      var a := AccountOf(st, p).asker;
      a.Listing? && a.upto <= upto <= a.now
    case Answer(p) =>
      var a := AccountOf(st, p).asker;
      a.Listing? && a.upto == a.now
    case Reload(p) => AccountOf(st, p).asker.Quiet?
  }

  // ------------------------------------------------------------ the steps

  // A remembered answer for now, or for later, is not gone on from.
  function Recalled(k: Kept, now: Time): Asker {
    if k.time < now then Listing(now, k.hourly, k.time, k.balance, k.missed)
    else Listing(now, k.hourly, HourOf(now) * HOUR, k.hourly, {})
  }

  ghost function AfterAsk(st: State, p: Pid): State
    requires Allowed(st, Ask(p))
  {
    var a, now := AccountOf(st, p), st.w.clock;
    if HourOf(now) in a.memory then With(st, p, a.(asker := Recalled(a.memory[HourOf(now)], now)))
    else With(st, p, a.(asker := Wanting(now))).(w := Do(st.w, ReadClock(p)))
  }

  function AfterStoreHourly(st: State, p: Pid): State
    requires Allowed(st, StoreHourly(p))
  {
    var a, b := AccountOf(st, p), ReaderOf(st.w, p).balance;
    var now, top := a.asker.now, HourOf(a.asker.now) * HOUR;
    With(st, p, Loaded(Listing(now, b, top, b, {}), a.memory[HourOf(now) := Kept(b, top, b, {})]))
      .(w := AfterStore(st.w, p))
  }

  ghost function AfterList(st: State, p: Pid, upto: Time): State
    requires Allowed(st, List(p, upto))
  {
    var a := AccountOf(st, p);
    var l := a.asker;
    With(st, p, a.(asker := l.(upto := upto, balance := l.balance.Plus(SumOf(Window(st.w.items, l.upto, upto))))))
  }

  function AfterAnswer(st: State, p: Pid): State
    requires Allowed(st, Answer(p))
  {
    var a := AccountOf(st, p);
    var l := a.asker;
    With(st, p, Loaded(Quiet, a.memory[HourOf(l.now) := Kept(l.hourly, l.now, l.balance, l.missed)]))
  }

  // A line item that is written is missed by what has listed the times up to its stamp.
  function AskerWidened(a: Asker, i: Item): Asker {
    match a
    case Listing(_, _, upto, _, missed) => a.(missed := LateWrites.Widened(missed, i, upto))
    case _ => a
  }

  function KeptWidened(k: Kept, i: Item): Kept {
    k.(missed := LateWrites.Widened(k.missed, i, k.time))
  }

  function Widened(a: Loaded, i: Item): Loaded {
    Loaded(AskerWidened(a.asker, i), map h | h in a.memory :: KeptWidened(a.memory[h], i))
  }

  function Written(w: World, s: Step): Item
    requires Enabled(w, s) && s.Put?
  {
    Item(WriterOf(w, s.p).stamp, s.uid, s.info)
  }

  ghost function AfterInner(st: State, s: Step): State
    requires Allowed(st, Inner(s))
  {
    var w' := Do(st.w, s);
    if s.Put? && Written(st.w, s) !in st.w.items then
      State(w', map p | p in st.accounts :: Widened(st.accounts[p], Written(st.w, s)))
    else st.(w := w')
  }

  ghost function Next(st: State, e: Event): State
    requires Allowed(st, e)
  {
    match e
    case Inner(s) => AfterInner(st, s)
    case Ask(p) => AfterAsk(st, p)
    case StoreHourly(p) => AfterStoreHourly(st, p)
    case List(p, upto) => AfterList(st, p, upto)
    case Answer(p) => AfterAnswer(st, p)
    case Reload(p) => With(st, p, Loaded(Quiet, map[]))
  }

  ghost predicate PossibleRun(st: State, events: seq<Event>)
    decreases |events|, 0
  {
    |events| == 0 ||
    var rest := events[..|events| - 1];
    PossibleRun(st, rest) && Allowed(After(st, rest), events[|events| - 1])
  }

  ghost function After(st: State, events: seq<Event>): State
    requires PossibleRun(st, events)
    decreases |events|, 1
  {
    if |events| == 0 then st else Next(After(st, events[..|events| - 1]), events[|events| - 1])
  }

  // Storing does no harm when the line items between the hour read and the hour found come to nothing.
  ghost predicate DoesNoHarm(st: State, e: Event)
    requires Allowed(st, e)
  {
    e.StoreHourly? ==> Harmless(st.w, Store(e.p))
  }

  ghost predicate AllDoNoHarm(st: State, events: seq<Event>)
    requires PossibleRun(st, events)
  {
    |events| == 0 ||
    var rest := events[..|events| - 1];
    AllDoNoHarm(st, rest) && DoesNoHarm(After(st, rest), events[|events| - 1])
  }

  // ------------------------------------------------------------ the invariant

  /** The balance at time `t` of an hour, but for line items of that same hour. */
  ghost predicate Counts(items: set<Item>, hour: int, t: Time, b: Balance, missed: set<Item>) {
    && LateWrites.Lacks(items, t, b, missed)
    && hour * HOUR <= t
    && forall i :: i in missed ==> hour * HOUR < i.stamp
  }

  ghost predicate KeptFine(items: set<Item>, hour: int, k: Kept) {
    k.hourly == ReplayAt(items, hour * HOUR) && Counts(items, hour, k.time, k.balance, k.missed)
  }

  ghost predicate AskerFine(w: World, p: Pid, a: Asker) {
    match a
    case Quiet => true
    case Wanting(now) =>
      now <= w.clock && !ReaderOf(w, p).Resting? && ReaderOf(w, p).hour == HourOf(now)
    case Listing(now, hourly, upto, balance, missed) =>
      && upto <= now <= w.clock
      && hourly == ReplayAt(w.items, HourOf(now) * HOUR)
      && Counts(w.items, HourOf(now), upto, balance, missed)
  }

  ghost predicate AccountFine(w: World, p: Pid, a: Loaded) {
    && AskerFine(w, p, a.asker)
    && forall h :: h in a.memory ==> h <= HourOf(w.clock) && KeptFine(w.items, h, a.memory[h])
  }

  ghost predicate AllFine(st: State) {
    Fine(st.w) && forall p :: AccountFine(st.w, p, AccountOf(st, p))
  }

  // ------------------------------------------------------------ every step keeps it

  lemma ReplayCounts(items: set<Item>, hour: int, b: Balance)
    requires b == ReplayAt(items, hour * HOUR)
    ensures Counts(items, hour, hour * HOUR, b, {})
  {
    assert Upto(items, hour * HOUR) - {} == Upto(items, hour * HOUR);
  }

  // Going on from a balance passes on what it misses and nothing else.
  lemma CountsOn(items: set<Item>, hour: int, start: Time, end: Time, b: Balance, missed: set<Item>)
    requires start <= end && Counts(items, hour, start, b, missed)
    ensures Counts(items, hour, end, b.Plus(SumOf(Window(items, start, end))), missed)
  {
    var known, window := Upto(items, start) - missed, Window(items, start, end);
    assert Upto(items, end) - missed == known + window;
    SumsTogether(known, window);
  }

  lemma SumsTogether(one: set<Item>, two: set<Item>)
    requires one !! two
    ensures SumOf(one).Plus(SumOf(two)) == SumOf(one + two)
  {
    forall side ensures SumOf(one).Plus(SumOf(two)).On(side) == SumOf(one + two).On(side) {
      SumSetUnion(one, two, EffectOn(side));
      PlusOnSide(SumOf(one), SumOf(two), side);
      SumOnSide(one, side);
      SumOnSide(two, side);
      SumOnSide(one + two, side);
    }
    SameOnEverySide(SumOf(one).Plus(SumOf(two)), SumOf(one + two));
  }

  // A line item of the current hour is missed in that hour and counted in none before it.
  lemma WriteCounts(items: set<Item>, i: Item, hour: int, t: Time, b: Balance, missed: set<Item>)
    requires i !in items && hour * HOUR < i.stamp && Counts(items, hour, t, b, missed)
    ensures Counts(items + {i}, hour, t, b, LateWrites.Widened(missed, i, t))
  {
    LateWrites.WidenedLacks(items, i, t, b, missed);
  }

  lemma WriteKeepsAsker(w: World, w': World, p: Pid, a: Asker, i: Item)
    requires AskerFine(w, p, a) && i !in w.items && HourOf(w.clock) * HOUR < i.stamp
    requires w'.items == w.items + {i} && w'.clock == w.clock && w'.readers == w.readers
    ensures AskerFine(w', p, AskerWidened(a, i))
  {
    if a.Listing? {
      HourMonotone(a.now, w.clock);
      TopsMonotone(HourOf(a.now), HourOf(w.clock));
      LaterItemsDoNotCount(w.items, i, HourOf(a.now) * HOUR);
      WriteCounts(w.items, i, HourOf(a.now), a.upto, a.balance, a.missed);
    }
  }

  lemma WriteKeepsKept(w: World, i: Item, hour: int, k: Kept)
    requires KeptFine(w.items, hour, k) && hour <= HourOf(w.clock)
    requires i !in w.items && HourOf(w.clock) * HOUR < i.stamp
    ensures KeptFine(w.items + {i}, hour, KeptWidened(k, i))
  {
    TopsMonotone(hour, HourOf(w.clock));
    LaterItemsDoNotCount(w.items, i, hour * HOUR);
    WriteCounts(w.items, i, hour, k.time, k.balance, k.missed);
  }

  lemma WriteKeepsAccount(w: World, w': World, p: Pid, a: Loaded, i: Item)
    requires AccountFine(w, p, a) && i !in w.items && HourOf(w.clock) * HOUR < i.stamp
    requires w'.items == w.items + {i} && w'.clock == w.clock && w'.readers == w.readers
    ensures AccountFine(w', p, Widened(a, i))
  {
    WriteKeepsAsker(w, w', p, a.asker, i);
    forall h | h in a.memory ensures KeptFine(w'.items, h, KeptWidened(a.memory[h], i)) {
      WriteKeepsKept(w, i, h, a.memory[h]);
    }
  }

  // Everything else leaves the line items alone.
  lemma OthersKeepAccount(w: World, w': World, p: Pid, a: Loaded)
    requires AccountFine(w, p, a) && w'.items == w.items && w.clock <= w'.clock
    requires a.asker.Wanting? ==> !ReaderOf(w', p).Resting? && ReaderOf(w', p).hour == ReaderOf(w, p).hour
    ensures AccountFine(w', p, a)
  {
    HourMonotone(w.clock, w'.clock);
  }

  lemma InnerLeavesReaders(w: World, s: Step, p: Pid)
    requires Enabled(w, s) && !s.ReadClock? && !s.Store? && !ReaderOf(w, p).Resting?
    ensures !ReaderOf(Do(w, s), p).Resting? && ReaderOf(Do(w, s), p).hour == ReaderOf(w, p).hour
  {
  }

  lemma PutKeepsFine(st: State, s: Step)
    requires AllFine(st) && Allowed(st, Inner(s)) && s.Put?
    ensures AllFine(AfterInner(st, s))
  {
    var i := Written(st.w, s);
    StepKeeps(st.w, s);
    assert WriterFine(st.w, s.p);
    NoLateWrites(st.w, s.p, s.uid, s.info);
    StampAfterTop(i.stamp);
    var st' := AfterInner(st, s);
    if i in st.w.items {
      assert st'.w.items == st.w.items;
    }
    forall p ensures AccountFine(st'.w, p, AccountOf(st', p)) {
      assert AccountFine(st.w, p, AccountOf(st, p));
      if i in st.w.items {
        OthersKeepAccount(st.w, st'.w, p, AccountOf(st, p));
      } else {
        WriteKeepsAccount(st.w, st'.w, p, AccountOf(st, p), i);
      }
    }
  }

  lemma InnerKeepsFine(st: State, s: Step)
    requires AllFine(st) && Allowed(st, Inner(s)) && !s.Put?
    ensures AllFine(AfterInner(st, s))
  {
    var st' := AfterInner(st, s);
    StepKeeps(st.w, s);
    forall p ensures AccountFine(st'.w, p, AccountOf(st', p)) {
      assert AccountFine(st.w, p, AccountOf(st, p));
      if AccountOf(st, p).asker.Wanting? { InnerLeavesReaders(st.w, s, p); }
      OthersKeepAccount(st.w, st'.w, p, AccountOf(st, p));
    }
  }

  // One account changes.
  lemma AccountKeepsFine(st: State, w': World, p: Pid, a: Loaded)
    requires AllFine(st) && Fine(w') && w'.items == st.w.items && w'.clock == st.w.clock
    requires forall q :: q != p ==> ReaderOf(w', q) == ReaderOf(st.w, q)
    requires AccountFine(w', p, a)
    ensures AllFine(With(st, p, a).(w := w'))
  {
    var st' := With(st, p, a).(w := w');
    forall q ensures AccountFine(st'.w, q, AccountOf(st', q)) {
      assert AccountFine(st.w, q, AccountOf(st, q));
      if q != p {
        OthersKeepAccount(st.w, w', q, AccountOf(st, q));
      }
    }
  }

  lemma AskKeepsFine(st: State, p: Pid)
    requires AllFine(st) && Allowed(st, Ask(p))
    ensures AllFine(AfterAsk(st, p))
  {
    var a, now := AccountOf(st, p), st.w.clock;
    assert AccountFine(st.w, p, a);
    HourWithinDay(now);
    if HourOf(now) in a.memory {
      var k := a.memory[HourOf(now)];
      assert KeptFine(st.w.items, HourOf(now), k);
      ReplayCounts(st.w.items, HourOf(now), k.hourly);
      AccountKeepsFine(st, st.w, p, a.(asker := Recalled(k, now)));
    } else {
      var w' := Do(st.w, ReadClock(p));
      StepKeeps(st.w, ReadClock(p));
      AccountKeepsFine(st, w', p, a.(asker := Wanting(now)));
    }
  }

  lemma StoreKeepsFine(st: State, p: Pid)
    requires AllFine(st) && Allowed(st, StoreHourly(p)) && Harmless(st.w, Store(p))
    ensures AllFine(AfterStoreHourly(st, p))
  {
    var a, b, w' := AccountOf(st, p), ReaderOf(st.w, p).balance, AfterStore(st.w, p);
    assert AccountFine(st.w, p, a);
    var now := a.asker.now;
    StoreKeeps(st.w, p);
    assert w'.stored[HourOf(now)] == b && StoredFine(w');
    ReplayCounts(w'.items, HourOf(now), b);
    HourMonotone(now, w'.clock);
    HourWithinDay(now);
    AccountKeepsFine(st, w', p, AccountOf(AfterStoreHourly(st, p), p));
  }

  lemma ListKeepsFine(st: State, p: Pid, upto: Time)
    requires AllFine(st) && Allowed(st, List(p, upto))
    ensures AllFine(AfterList(st, p, upto))
  {
    var a := AccountOf(st, p);
    assert AccountFine(st.w, p, a);
    CountsOn(st.w.items, HourOf(a.asker.now), a.asker.upto, upto, a.asker.balance, a.asker.missed);
    AccountKeepsFine(st, st.w, p, AccountOf(AfterList(st, p, upto), p));
  }

  lemma AnswerKeepsFine(st: State, p: Pid)
    requires AllFine(st) && Allowed(st, Answer(p))
    ensures AllFine(AfterAnswer(st, p))
  {
    var a := AccountOf(st, p);
    assert AccountFine(st.w, p, a);
    HourMonotone(a.asker.now, st.w.clock);
    AccountKeepsFine(st, st.w, p, AccountOf(AfterAnswer(st, p), p));
  }

  lemma EventKeepsFine(st: State, e: Event)
    requires AllFine(st) && Allowed(st, e) && DoesNoHarm(st, e)
    ensures AllFine(Next(st, e))
  {
    match e
    case Inner(s) => if s.Put? { PutKeepsFine(st, s); } else { InnerKeepsFine(st, s); }
    case Ask(p) => AskKeepsFine(st, p);
    case StoreHourly(p) => StoreKeepsFine(st, p);
    case List(p, upto) => ListKeepsFine(st, p, upto);
    case Answer(p) => AnswerKeepsFine(st, p);
    case Reload(p) => AccountKeepsFine(st, st.w, p, Loaded(Quiet, map[]));
  }

  lemma {:induction false} RunKeepsFine(st: State, events: seq<Event>)
    requires AllFine(st) && PossibleRun(st, events) && AllDoNoHarm(st, events)
    ensures AllFine(After(st, events))
    decreases |events|
  {
    if |events| > 0 {
      RunKeepsFine(st, events[..|events| - 1]);
      EventKeepsFine(After(st, events[..|events| - 1]), events[|events| - 1]);
    }
  }

  // A new account.
  predicate Begin(st: State) {
    Start(st.w) && st.accounts == map[]
  }

  /** In every interleaving of writers and piecemeal queries in which no store does harm: an answer counts every
      line item stamped by then once, but for some of its own hour, those that were written after the query,
      or the one whose answer it goes on from, had listed the times up to their stamp. No line item of an
      earlier hour is ever missed. A figure is that of the whole history exactly when those missed come to
      nothing there. */
  lemma AnswersMissOnlyThisHour(st: State, events: seq<Event>, p: Pid, side: Side)
    requires Begin(st) && PossibleRun(st, events) && AllDoNoHarm(st, events) && Allowed(After(st, events), Answer(p))
    ensures var items, a := After(st, events).w.items, AccountOf(After(st, events), p).asker;
      && LateWrites.Lacks(items, a.now, a.balance, a.missed)
      && (forall i :: i in a.missed ==> HourOf(a.now) * HOUR < i.stamp <= a.now)
      && (a.balance.On(side) == ReplayAt(items, a.now).On(side) <==> SumOn(side, a.missed) == 0)
  {
    StartIsFine(st.w);
    RunKeepsFine(st, events);
    var st' := After(st, events);
    var a := AccountOf(st', p).asker;
    assert AccountFine(st'.w, p, AccountOf(st', p));
    LateWrites.LackingOnSide(st'.w.items, a.now, a.balance, a.missed, side);
  }

  /** In the next hour nothing of this hour is missed any more. */
  lemma EarlierHoursAreCounted(st: State, events: seq<Event>, p: Pid, i: Item)
    requires Begin(st) && PossibleRun(st, events) && AllDoNoHarm(st, events) && Allowed(After(st, events), Answer(p))
    requires i in After(st, events).w.items && HourOf(i.stamp) < HourOf(AccountOf(After(st, events), p).asker.now)
    ensures i !in AccountOf(After(st, events), p).asker.missed
  {
    AnswersMissOnlyThisHour(st, events, p, Funds);
    var hour := HourOf(AccountOf(After(st, events), p).asker.now);
    HourWithinDay(i.stamp);
    TopsMonotone(HourOf(i.stamp) + 1, hour);
  }

  // ------------------------------------------------------------ going on from the last answer

  /** The next query of the hour goes on from the last answer, and so misses what that missed. */
  lemma NextQueryGoesOn(st: State, p: Pid, clock: Time)
    requires Allowed(st, Answer(p)) && ReaderOf(st.w, p).Resting? && st.w.clock <= clock
    requires HourOf(clock) == HourOf(AccountOf(st, p).asker.now) && AccountOf(st, p).asker.now < clock
    ensures var last, st1 := AccountOf(st, p).asker, AfterAnswer(st, p);
      && Allowed(st1, Inner(Tick(clock)))
      && Allowed(AfterInner(st1, Tick(clock)), Ask(p))
      && AccountOf(AfterAsk(AfterInner(st1, Tick(clock)), p), p).asker ==
           Listing(clock, last.hourly, last.now, last.balance, last.missed)
  {
  }

  // A query that remembers nothing searches for a balance.
  lemma UndisturbedSearch(st: State, p: Pid, found: int) returns (events: seq<Event>)
    requires AllFine(st) && AccountOf(st, p).asker.Quiet? && ReaderOf(st.w, p).Resting? && found in st.w.stored
    ensures PossibleRun(st, events)
    ensures var st' := After(st, events);
      && st'.w.items == st.w.items && AccountOf(st', p).asker == Wanting(st.w.clock)
      && ReaderOf(st'.w, p) == Adding(HourOf(st.w.clock), found * HOUR, ReplayAt(st.w.items, found * HOUR))
  {
    events := [];
    ExtendRun(st, events, Reload(p)); events := events + [Reload(p)];
    ExtendRun(st, events, Ask(p)); events := events + [Ask(p)];
    ExtendRun(st, events, Inner(Search(p, found))); events := events + [Inner(Search(p, found))];
  }

  // It has the balance at the top of the hour stored.
  lemma UndisturbedHourly(st: State, p: Pid, found: int) returns (events: seq<Event>)
    requires AllFine(st) && AccountOf(st, p).asker.Quiet? && ReaderOf(st.w, p).Resting? && found in st.w.stored
    ensures PossibleRun(st, events)
    ensures var h, st' := HourOf(st.w.clock), After(st, events);
      && st'.w.items == st.w.items
      && AccountOf(st', p).asker ==
           Listing(st.w.clock, ReplayAt(st.w.items, h * HOUR), h * HOUR, ReplayAt(st.w.items, h * HOUR), {})
  {
    var h := HourOf(st.w.clock);
    TopsMonotone(found, h);
    events := UndisturbedSearch(st, p, found);
    ExtendRun(st, events, Inner(Add(p, h * HOUR))); events := events + [Inner(Add(p, h * HOUR))];
    ReplayResumes(st.w.items, found * HOUR, h * HOUR);
    ExtendRun(st, events, StoreHourly(p)); events := events + [StoreHourly(p)];
  }

  /** The first query after a reload, when nobody disturbs it, answers the balance of the whole history and
      misses nothing. */
  lemma UndisturbedAnswer(st: State, p: Pid, found: int) returns (events: seq<Event>)
    requires AllFine(st) && AccountOf(st, p).asker.Quiet? && ReaderOf(st.w, p).Resting? && found in st.w.stored
    ensures PossibleRun(st, events) && Allowed(After(st, events), Answer(p))
    ensures var a := AccountOf(After(st, events), p).asker;
      a.now == st.w.clock && a.balance == ReplayAt(st.w.items, st.w.clock) && a.missed == {}
  {
    var h := HourOf(st.w.clock);
    events := UndisturbedHourly(st, p, found);
    HourWithinDay(st.w.clock);
    ExtendRun(st, events, List(p, st.w.clock));
    ReplayResumes(st.w.items, h * HOUR, st.w.clock);
    events := events + [List(p, st.w.clock)];
  }

  lemma ExtendRun(st: State, events: seq<Event>, e: Event)
    requires PossibleRun(st, events) && Allowed(After(st, events), e)
    ensures PossibleRun(st, events + [e]) && After(st, events + [e]) == Next(After(st, events), e)
  {
    assert (events + [e])[..|events|] == events;
  }

  // ------------------------------------------------------------ a credit that is missed

  ghost predicate Reachable(st: State, st': State) {
    exists events :: PossibleRun(st, events) && AllDoNoHarm(st, events) && After(st, events) == st'
  }

  lemma ReachableAtOnce(st: State)
    ensures Reachable(st, st)
  {
    assert PossibleRun(st, []) && AllDoNoHarm(st, []) && After(st, []) == st;
  }

  lemma ReachableNext(st: State, st': State, e: Event)
    requires Reachable(st, st') && Allowed(st', e) && DoesNoHarm(st', e)
    ensures Reachable(st, Next(st', e))
  {
    var events :| PossibleRun(st, events) && AllDoNoHarm(st, events) && After(st, events) == st';
    assert (events + [e])[..|events|] == events;
    assert PossibleRun(st, events + [e]) && AllDoNoHarm(st, events + [e]) && After(st, events + [e]) == Next(st', e);
  }

  // A credit is stamped, and a second passes.
  lemma CreditIsStamped(st: State, t: Time) returns (st': State)
    requires Begin(st) && st.w.clock <= t && !SafeTimes.Unsafe(t)
    ensures Reachable(st, st')
    ensures st' == st.(w := st.w.(clock := t + SECOND, writers := map[1 := Checked(t, t)]))
  {
    ReachableAtOnce(st);
    ReachableNext(st, st, Inner(Tick(t)));
    var st1 := AfterInner(st, Tick(t));
    ReachableNext(st, st1, Inner(StampOnce(1)));
    var st2 := AfterInner(st1, StampOnce(1));
    ReachableNext(st, st2, Inner(Tick(t + SECOND)));
    st' := AfterInner(st2, Tick(t + SECOND));
  }

  // A query finds no balance.
  lemma QueryBegins(st: State, st0: State, hour: int) returns (st': State)
    requires Reachable(st, st0) && st0.accounts == map[] && st0.w.readers == map[] && HourOf(st0.w.clock) == hour
    ensures Reachable(st, st') && st'.accounts == map[0 := Loaded(Wanting(st0.w.clock), map[])]
    ensures st'.w.items == st0.w.items && st'.w.writers == st0.w.writers && st'.w.clock == st0.w.clock
    ensures ReaderOf(st'.w, 0) == Adding(hour, GENESIS * HOUR, ZERO)
  {
    ReachableNext(st, st0, Ask(0));
    var st1 := AfterAsk(st0, 0);
    ReachableNext(st, st1, Inner(StoreZero(0)));
    var st2 := AfterInner(st1, StoreZero(0));
    ReachableNext(st, st2, Inner(Search(0, GENESIS)));
    st' := AfterInner(st2, Search(0, GENESIS));
  }

  lemma NothingListed(items: set<Item>, start: Time, end: Time)
    requires items == {}
    ensures ZERO.Plus(SumOf(Window(items, start, end))) == ZERO
  {
    assert Window(items, start, end) == {};
  }

  // It lists no line items up to the top of the hour.
  lemma QueryAdds(st: State, st0: State, start: Time, hour: int, top: Time, now: Time) returns (st': State)
    requires Reachable(st, st0) && st0.accounts == map[0 := Loaded(Wanting(now), map[])] && st0.w.items == {}
    requires ReaderOf(st0.w, 0) == Adding(hour, start, ZERO) && start <= top == hour * HOUR
    ensures Reachable(st, st') && st'.accounts == st0.accounts
    ensures st'.w.items == {} && st'.w.writers == st0.w.writers && st'.w.clock == st0.w.clock
    ensures ReaderOf(st'.w, 0) == Adding(hour, top, ZERO)
  {
    NothingListed(st0.w.items, start, top);
    ReachableNext(st, st0, Inner(Add(0, top)));
    st' := AfterInner(st0, Add(0, top));
  }

  // It stores the balance at the top of the hour.
  lemma QueryStores(st: State, st0: State, hour: int, top: Time, now: Time) returns (st': State)
    requires Reachable(st, st0) && AccountOf(st0, 0).asker == Wanting(now) && st0.w.items == {}
    requires ReaderOf(st0.w, 0) == Adding(hour, top, ZERO) && top == hour * HOUR && HourOf(now) == hour
    ensures Reachable(st, st') && AccountOf(st', 0).asker == Listing(now, ZERO, top, ZERO, {})
    ensures st'.w.items == {} && st'.w.writers == st0.w.writers && st'.w.clock == st0.w.clock
  {
    assert TimedWrites.Overtaken(st0.w, 0) == {};
    ReachableNext(st, st0, StoreHourly(0));
    st' := AfterStoreHourly(st0, 0);
  }

  // And it lists none up to now.
  lemma QueryLists(st: State, st0: State, top: Time, now: Time) returns (st': State)
    requires Reachable(st, st0) && AccountOf(st0, 0).asker == Listing(now, ZERO, top, ZERO, {}) && top <= now
    requires st0.w.items == {}
    ensures Reachable(st, st') && st'.w == st0.w && AccountOf(st', 0).asker == Listing(now, ZERO, now, ZERO, {})
  {
    NothingListed(st0.w.items, top, now);
    ReachableNext(st, st0, List(0, now));
    st' := AfterList(st0, 0, now);
  }

  lemma CreditIsWritten(st: State, st0: State, i: Item, now: Time) returns (st': State)
    requires Reachable(st, st0) && i.uid == "" && i.info.WellFormed() && now == i.stamp + SECOND == st0.w.clock
    requires st0.w.writers == map[1 := Checked(i.stamp, i.stamp)] && st0.w.items == {}
    requires AccountOf(st0, 0).asker == Listing(now, ZERO, now, ZERO, {})
    ensures Reachable(st, st') && st'.w.items == {i}
    ensures AccountOf(st', 0).asker == Listing(now, ZERO, now, ZERO, {i})
  {
    ReachableNext(st, st0, Inner(Put(1, "", i.info)));
    st' := AfterInner(st0, Put(1, "", i.info));
    assert Written(st0.w, Put(1, "", i.info)) == i;
    assert {} + {i} == {i};
  }

  // Half past an hour that begins after the clock, and a second later.
  lemma CreditTime(clock: Time, hour: int, t: Time)
    requires GENESIS * HOUR <= clock && hour == HourOf(clock) + 1 && t == hour * HOUR + 30 * MINUTE
    ensures clock <= t && !SafeTimes.Unsafe(t) && HourOf(t + SECOND) == hour && GENESIS * HOUR <= hour * HOUR <= t
  {
    HourWithinDay(clock);
    Quotient(t, HOUR, hour, 30 * MINUTE);
    Quotient(t + SECOND, HOUR, hour, 30 * MINUTE + SECOND);
    SafeTimes.SafeIff(t);
  }

  lemma CreditIsOvertaken(st: State, i: Item, hour: int, top: Time, now: Time) returns (st': State)
    requires Begin(st) && st.w.clock <= i.stamp && !SafeTimes.Unsafe(i.stamp) && i.uid == "" && i.info.WellFormed()
    requires now == i.stamp + SECOND && HourOf(now) == hour && top == hour * HOUR && GENESIS * HOUR <= top <= now
    ensures Reachable(st, st') && st'.w.items == {i}
    ensures AccountOf(st', 0).asker == Listing(now, ZERO, now, ZERO, {i})
  {
    st' := CreditIsStamped(st, i.stamp);
    st' := QueryBegins(st, st', hour);
    st' := QueryAdds(st, st', GENESIS * HOUR, hour, top, now);
    st' := QueryStores(st, st', hour, top, now);
    st' := QueryLists(st, st', top, now);
    st' := CreditIsWritten(st, st', i, now);
  }

  /** However promptly it is written, a credit stamped before a query and written after the query has listed
      the times up to its stamp is not in the answer. */
  lemma PromptCreditIsMissed(st: State, value: int) returns (st': State)
    requires Begin(st) && 0 <= value <= MAX_TRANSACTION
    ensures Reachable(st, st') && Allowed(st', Answer(0))
    ensures var a := AccountOf(st', 0).asker;
      a.balance == ZERO && ReplayAt(st'.w.items, a.now).balance == value
  {
    var hour := HourOf(st.w.clock) + 1;
    var t := hour * HOUR + 30 * MINUTE;
    CreditTime(st.w.clock, hour, t);
    var i := Item(t, "", TransactionInfo(Credit, value, None));
    st' := CreditIsOvertaken(st, i, hour, hour * HOUR, t + SECOND);
    CreditAlone(i);
    assert Upto({i}, t + SECOND) == {i};
  }
}
