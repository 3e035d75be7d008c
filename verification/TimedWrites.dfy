/**
 The protocol that keeps stored balances from going stale, as a transition system: any number of debits and
 credits stamp, check the clock again and write, while any number of queries read the clock, find a stored
 balance, list line items piece by piece and store hourly balances, each of these in a step of its own.
 Clocks agree; a write lands less than two seconds after the last reading of the clock.
 */
module TimedWrites {
  import opened BalanceCache
  import opened BalanceSearch
  import opened Balances
  import opened Calendar
  import opened LineItemKeys
  import opened SafeTimes
  import opened Sums
  import opened Wrappers

  type Pid = nat

  // How far a debit or credit has got: stamped, and checked against the clock once more.
  datatype Writer = Idle | Stamped(stamp: Time) | Checked(stamp: Time, last: Time)

  // A query has read the clock and wants the balance at the top of that hour; then it has found a stored
  // balance and added up the line items up to some time.
  datatype Reader = Resting | Asked(hour: int) | Adding(hour: int, upto: Time, balance: Balance)

  datatype World = World(
    clock: Time,
    items: set<Item>,
    stored: map<int, Balance>,
    writers: map<Pid, Writer>,
    readers: map<Pid, Reader>)

  datatype Step =
    | Tick(clock: Time)                              // time passes
    | Stamp(p: Pid)                                  // the first reading of the clock
    | StampOnce(p: Pid)                              // `_credit_refund` reads the clock only once
    | Check(p: Pid)                                  // the second reading
    | Put(p: Pid, uid: string, info: Info)           // the line item enters the store
    | ReadClock(p: Pid)                              // a query begins
    | StoreZero(p: Pid)                              // it finds no balance and stores one of zero
    | Search(p: Pid, found: int)                     // or reads the balance stored for some hour
    | Add(p: Pid, upto: Time)                        // lists the line items up to some time
    | Store(p: Pid)                                  // and stores the balance at the top of the hour

  function WriterOf(w: World, p: Pid): Writer {
    if p in w.writers then w.writers[p] else Idle
  }

  function ReaderOf(w: World, p: Pid): Reader {
    if p in w.readers then w.readers[p] else Resting
  }

  const PROMPT := 2_000_000 // 2 * SECOND

  predicate Enabled(w: World, s: Step) {
    match s
    case Tick(clock) => w.clock <= clock
    case Stamp(p) => WriterOf(w, p).Idle? && !Unsafe(w.clock)
    case StampOnce(p) => WriterOf(w, p).Idle? && !Unsafe(w.clock)
    case Check(p) => WriterOf(w, p).Stamped? && !Unsafe(w.clock) && w.clock <= WriterOf(w, p).stamp + MAX_GAP
    case Put(p, uid, info) => WriterOf(w, p).Checked? && w.clock < WriterOf(w, p).last + PROMPT
    case ReadClock(p) => ReaderOf(w, p).Resting?
    case StoreZero(p) => ReaderOf(w, p).Asked?
    case Search(p, h) => ReaderOf(w, p).Asked? && h in w.stored
    case Add(p, upto) =>
      var r := ReaderOf(w, p);
      r.Adding? && r.upto <= upto <= r.hour * HOUR
    case Store(p) =>
      var r := ReaderOf(w, p);
      r.Adding? && r.hour * HOUR <= r.upto
  }

  // The second reading is in another hour of the day: start again.
  function AfterCheck(w: World, p: Pid): World
    requires Enabled(w, Check(p))
  {
    var stamp := WriterOf(w, p).stamp;
    w.(writers := w.writers[p := if SameHourOfDay(stamp, w.clock) then Checked(stamp, w.clock) else Idle])
  }

  function AfterPut(w: World, p: Pid, uid: string, info: Info): World
    requires Enabled(w, Put(p, uid, info))
  {
    w.(items := w.items + {Item(WriterOf(w, p).stamp, uid, info)}, writers := w.writers[p := Idle])
  }

  ghost function AfterAdd(w: World, p: Pid, upto: Time): World
    requires Enabled(w, Add(p, upto))
  {
    var r := ReaderOf(w, p);
    w.(readers := w.readers[p := Adding(r.hour, upto, r.balance.Plus(SumOf(Window(w.items, r.upto, upto))))])
  }

  function AfterStore(w: World, p: Pid): World
    requires Enabled(w, Store(p))
  {
    var r := ReaderOf(w, p);
    w.(stored := w.stored[r.hour := r.balance], readers := w.readers[p := Resting])
  }

  ghost function Do(w: World, s: Step): World
    requires Enabled(w, s)
  {
    match s
    case Tick(clock) => w.(clock := clock)
    case Stamp(p) => w.(writers := w.writers[p := Stamped(w.clock)])
    case StampOnce(p) => w.(writers := w.writers[p := Checked(w.clock, w.clock)])
    case Check(p) => AfterCheck(w, p)
    case Put(p, uid, info) => AfterPut(w, p, uid, info)
    case ReadClock(p) => w.(readers := w.readers[p := Asked(HourOf(w.clock))])
    case StoreZero(p) => w.(stored := w.stored[GENESIS := ZERO])
    case Search(p, h) => w.(readers := w.readers[p := Adding(ReaderOf(w, p).hour, h * HOUR, w.stored[h])])
    case Add(p, upto) => AfterAdd(w, p, upto)
    case Store(p) => AfterStore(w, p)
  }

  ghost predicate Possible(w: World, steps: seq<Step>)
    decreases |steps|, 0
  {
    |steps| == 0 ||
    var rest := steps[..|steps| - 1];
    Possible(w, rest) && Enabled(Run(w, rest), steps[|steps| - 1])
  }

  ghost function Run(w: World, steps: seq<Step>): World
    requires Possible(w, steps)
    decreases |steps|, 1
  {
    if |steps| == 0 then w else Do(Run(w, steps[..|steps| - 1]), steps[|steps| - 1])
  }

  // A new account.
  predicate Start(w: World) {
    GENESIS * HOUR <= w.clock && w.items == {} && w.stored == map[] && w.writers == map[] && w.readers == map[]
  }

  // ------------------------------------------------------------ the invariant

  predicate WriterFine(w: World, p: Pid) {
    match WriterOf(w, p)
    case Idle => true
    case Stamped(stamp) => !Unsafe(stamp) && GENESIS * HOUR <= stamp <= w.clock
    case Checked(stamp, last) =>
      !Unsafe(stamp) && !Unsafe(last) && GENESIS * HOUR <= stamp && HourOf(stamp) == HourOf(last) && last <= w.clock
  }

  ghost predicate ReaderFine(w: World, p: Pid) {
    match ReaderOf(w, p)
    case Resting => true
    case Asked(hour) => hour <= HourOf(w.clock)
    case Adding(hour, upto, balance) =>
      hour <= HourOf(w.clock) && upto <= HourOf(w.clock) * HOUR && balance == ReplayAt(w.items, upto)
  }

  ghost predicate StoredFine(w: World) {
    forall h :: h in w.stored ==> h <= HourOf(w.clock) && w.stored[h] == ReplayAt(w.items, h * HOUR)
  }

  predicate ItemsFine(w: World) {
    forall i :: i in w.items ==> GENESIS * HOUR < i.stamp && !Unsafe(i.stamp)
  }

  ghost predicate Fine(w: World) {
    && GENESIS * HOUR <= w.clock
    && ItemsFine(w)
    && StoredFine(w)
    && (forall p :: WriterFine(w, p))
    && (forall p :: ReaderFine(w, p))
  }

  lemma HourMonotone(a: Time, b: Time)
    requires a <= b
    ensures HourOf(a) <= HourOf(b)
  {
  }

  lemma TopsMonotone(h: int, k: int)
    requires h <= k
    ensures h * HOUR <= k * HOUR
  {
    StepUp(HOUR, h, k);
  }

  /** A write that lands less than two seconds after a safe reading is still in the hour of that reading. */
  lemma PromptIsSameHour(last: Time, now: Time)
    requires !Unsafe(last) && last <= now < last + PROMPT
    ensures HourOf(now) == HourOf(last)
  {
    SafeIff(last);
    HourWithinDay(last);
    HourWithinDay(now);
  }

  lemma StampAfterTop(stamp: Time)
    requires !Unsafe(stamp)
    ensures HourOf(stamp) * HOUR < stamp
  {
    SafeIff(stamp);
    HourWithinDay(stamp);
  }

  /** No line item enters the store at or after the top of an hour that its stamp is not after. */
  lemma NoLateWrites(w: World, p: Pid, uid: string, info: Info)
    requires Fine(w) && Enabled(w, Put(p, uid, info))
    ensures HourOf(WriterOf(w, p).stamp) == HourOf(w.clock)
    ensures forall h: int :: WriterOf(w, p).stamp <= h * HOUR ==> w.clock < h * HOUR
  {
    assert WriterFine(w, p);
    var stamp, last := WriterOf(w, p).stamp, WriterOf(w, p).last;
    PromptIsSameHour(last, w.clock);
    StampAfterTop(stamp);
    HourWithinDay(w.clock);
    forall h: int | stamp <= h * HOUR ensures w.clock < h * HOUR {
      StepUp(HOUR, h, HourOf(w.clock) + 1);
    }
  }

  // ------------------------------------------------------------ every step keeps it

  lemma TickKeeps(w: World, clock: Time)
    requires Fine(w) && w.clock <= clock
    ensures Fine(w.(clock := clock))
  {
    var w' := w.(clock := clock);
    HourMonotone(w.clock, clock);
    TopsMonotone(HourOf(w.clock), HourOf(clock));
    forall p ensures WriterFine(w', p) && ReaderFine(w', p) {
      assert WriterFine(w, p) && ReaderFine(w, p);
    }
  }

  lemma WriterKeeps(w: World, p: Pid, next: Writer)
    requires Fine(w) && WriterFine(w.(writers := w.writers[p := next]), p)
    ensures Fine(w.(writers := w.writers[p := next]))
  {
    var w' := w.(writers := w.writers[p := next]);
    forall q ensures WriterFine(w', q) && ReaderFine(w', q) {
      assert WriterFine(w, q) && ReaderFine(w, q);
    }
  }

  lemma ReaderKeeps(w: World, p: Pid, next: Reader)
    requires Fine(w) && ReaderFine(w.(readers := w.readers[p := next]), p)
    ensures Fine(w.(readers := w.readers[p := next]))
  {
    var w' := w.(readers := w.readers[p := next]);
    forall q ensures WriterFine(w', q) && ReaderFine(w', q) {
      assert WriterFine(w, q) && ReaderFine(w, q);
    }
  }

  lemma StoredKeeps(w: World, h: int, b: Balance)
    requires Fine(w) && h <= HourOf(w.clock) && b == ReplayAt(w.items, h * HOUR)
    ensures Fine(w.(stored := w.stored[h := b]))
  {
    var w' := w.(stored := w.stored[h := b]);
    forall q ensures WriterFine(w', q) && ReaderFine(w', q) {
      assert WriterFine(w, q) && ReaderFine(w, q);
    }
  }

  lemma CheckKeeps(w: World, p: Pid)
    requires Fine(w) && Enabled(w, Check(p))
    ensures Fine(AfterCheck(w, p))
  {
    assert WriterFine(w, p);
    var stamp := WriterOf(w, p).stamp;
    if SameHourOfDay(stamp, w.clock) {
      SameHour(stamp, w.clock);
      WriterKeeps(w, p, Checked(stamp, w.clock));
    } else {
      WriterKeeps(w, p, Idle);
    }
  }

  lemma ItemKeeps(w: World, i: Item)
    requires Fine(w) && GENESIS * HOUR < i.stamp && !Unsafe(i.stamp) && HourOf(w.clock) * HOUR < i.stamp
    ensures Fine(w.(items := w.items + {i}))
  {
    var w' := w.(items := w.items + {i});
    forall t | t <= HourOf(w.clock) * HOUR ensures ReplayAt(w'.items, t) == ReplayAt(w.items, t) {
      LaterItemsDoNotCount(w.items, i, t);
    }
    forall h | h in w.stored ensures w.stored[h] == ReplayAt(w'.items, h * HOUR) {
      TopsMonotone(h, HourOf(w.clock));
    }
    forall q ensures WriterFine(w', q) && ReaderFine(w', q) {
      assert WriterFine(w, q) && ReaderFine(w, q);
    }
  }

  lemma PutKeeps(w: World, p: Pid, uid: string, info: Info)
    requires Fine(w) && Enabled(w, Put(p, uid, info))
    ensures Fine(AfterPut(w, p, uid, info))
  {
    assert WriterFine(w, p);
    var i := Item(WriterOf(w, p).stamp, uid, info);
    NoLateWrites(w, p, uid, info);
    StampAfterTop(i.stamp);
    HourMonotone(GENESIS * HOUR, i.stamp);
    TopsMonotone(GENESIS, HourOf(i.stamp));
    ItemKeeps(w, i);
    WriterKeeps(w.(items := w.items + {i}), p, Idle);
  }

  lemma AddKeeps(w: World, p: Pid, upto: Time)
    requires Fine(w) && Enabled(w, Add(p, upto))
    ensures Fine(AfterAdd(w, p, upto))
  {
    assert ReaderFine(w, p);
    var r := ReaderOf(w, p);
    ReplayResumes(w.items, r.upto, upto);
    TopsMonotone(r.hour, HourOf(w.clock));
    ReaderKeeps(w, p, Adding(r.hour, upto, r.balance.Plus(SumOf(Window(w.items, r.upto, upto)))));
  }

  lemma NothingBefore(w: World)
    requires ItemsFine(w)
    ensures ReplayAt(w.items, GENESIS * HOUR) == ZERO
  {
    assert Upto(w.items, GENESIS * HOUR) == {};
  }

  lemma StoreZeroKeeps(w: World, p: Pid)
    requires Fine(w) && Enabled(w, StoreZero(p))
    ensures Fine(Do(w, StoreZero(p)))
  {
    HourMonotone(GENESIS * HOUR, w.clock);
    NothingBefore(w);
    StoredKeeps(w, GENESIS, ZERO);
  }

  lemma SearchKeeps(w: World, p: Pid, h: int)
    requires Fine(w) && Enabled(w, Search(p, h))
    ensures Fine(Do(w, Search(p, h)))
  {
    assert ReaderFine(w, p);
    TopsMonotone(h, HourOf(w.clock));
    ReaderKeeps(w, p, Adding(ReaderOf(w, p).hour, h * HOUR, w.stored[h]));
  }

  // What a query is about to store for its hour, it has for a later one when it found a later one.
  ghost function Overtaken(w: World, p: Pid): set<Item>
    requires Enabled(w, Store(p))
  {
    Window(w.items, ReaderOf(w, p).hour * HOUR, ReaderOf(w, p).upto)
  }

  // Storing does no harm when the line items between the hour read and the hour found come to nothing.
  ghost predicate Harmless(w: World, s: Step)
    requires Enabled(w, s)
  {
    s.Store? ==> forall side :: SumOn(side, Overtaken(w, s.p)) == 0
  }

  /** While all that is stored is right, a query stores the right figure exactly when the line items between
      the hour it read off the clock and a later hour whose balance it found come to nothing. */
  lemma StoreIsReplayIff(w: World, p: Pid, side: Side)
    requires Fine(w) && Enabled(w, Store(p))
    ensures var h := ReaderOf(w, p).hour;
      AfterStore(w, p).stored[h].On(side) == ReplayAt(w.items, h * HOUR).On(side) <==> SumOn(side, Overtaken(w, p)) == 0
  {
    assert ReaderFine(w, p);
    var r := ReaderOf(w, p);
    ReplayResumes(w.items, r.hour * HOUR, r.upto);
    PlusOnSide(ReplayAt(w.items, r.hour * HOUR), SumOf(Overtaken(w, p)), side);
    SumOnSide(Overtaken(w, p), side);
  }

  lemma StoreKeeps(w: World, p: Pid)
    requires Fine(w) && Enabled(w, Store(p)) && Harmless(w, Store(p))
    ensures Fine(AfterStore(w, p))
  {
    assert ReaderFine(w, p);
    var r := ReaderOf(w, p);
    forall side ensures r.balance.On(side) == ReplayAt(w.items, r.hour * HOUR).On(side) {
      StoreIsReplayIff(w, p, side);
    }
    SameOnEverySide(r.balance, ReplayAt(w.items, r.hour * HOUR));
    StoredKeeps(w, r.hour, r.balance);
    ReaderKeeps(w.(stored := w.stored[r.hour := r.balance]), p, Resting);
  }

  lemma StepKeeps(w: World, s: Step)
    requires Fine(w) && Enabled(w, s) && Harmless(w, s)
    ensures Fine(Do(w, s))
  {
    match s
    case Tick(clock) => TickKeeps(w, clock);
    case Stamp(p) => WriterKeeps(w, p, Stamped(w.clock));
    case StampOnce(p) => WriterKeeps(w, p, Checked(w.clock, w.clock));
    case Check(p) => CheckKeeps(w, p);
    case Put(p, uid, info) => PutKeeps(w, p, uid, info);
    case ReadClock(p) => ReaderKeeps(w, p, Asked(HourOf(w.clock)));
    case StoreZero(p) => StoreZeroKeeps(w, p);
    case Search(p, h) => SearchKeeps(w, p, h);
    case Add(p, upto) => AddKeeps(w, p, upto);
    case Store(p) => StoreKeeps(w, p);
  }

  ghost predicate AllHarmless(w: World, steps: seq<Step>)
    requires Possible(w, steps)
  {
    |steps| == 0 ||
    var rest := steps[..|steps| - 1];
    AllHarmless(w, rest) && Harmless(Run(w, rest), steps[|steps| - 1])
  }

  lemma {:induction false} RunKeeps(w: World, steps: seq<Step>)
    requires Fine(w) && Possible(w, steps) && AllHarmless(w, steps)
    ensures Fine(Run(w, steps))
    decreases |steps|
  {
    if |steps| > 0 {
      RunKeeps(w, steps[..|steps| - 1]);
      StepKeeps(Run(w, steps[..|steps| - 1]), steps[|steps| - 1]);
    }
  }

  lemma StartIsFine(w: World)
    requires Start(w)
    ensures Fine(w)
  {
    forall p ensures WriterFine(w, p) && ReaderFine(w, p) {
    }
  }

  // ------------------------------------------------------------ when stored balances are replays

  ghost predicate AllReplays(w: World) {
    forall h :: h in w.stored ==> w.stored[h] == ReplayAt(w.items, h * HOUR)
  }

  // At every point of the run.
  ghost predicate AlwaysReplays(w: World, steps: seq<Step>)
    requires Possible(w, steps)
  {
    AllReplays(Run(w, steps)) && (|steps| > 0 ==> AlwaysReplays(w, steps[..|steps| - 1]))
  }

  /** In every interleaving, every stored hourly balance is at all times what replaying the history gives,
      exactly when no query stores for the hour it read a balance it found for a later one, with line items
      between the two that come to something. */
  lemma {:induction false} StoredBalancesAreReplaysIff(w: World, steps: seq<Step>)
    requires Start(w) && Possible(w, steps)
    ensures AlwaysReplays(w, steps) <==> AllHarmless(w, steps)
    decreases |steps|
  {
    if |steps| > 0 {
      var rest, s := steps[..|steps| - 1], steps[|steps| - 1];
      StoredBalancesAreReplaysIff(w, rest);
      if AllHarmless(w, rest) {
        StartIsFine(w);
        RunKeeps(w, rest);
        LastStepIff(Run(w, rest), s);
      }
    }
  }

  lemma LastStepIff(w: World, s: Step)
    requires Fine(w) && Enabled(w, s)
    ensures AllReplays(Do(w, s)) <==> Harmless(w, s)
  {
    if Harmless(w, s) {
      StepKeeps(w, s);
    } else {
      var side :| SumOn(side, Overtaken(w, s.p)) != 0;
      StoreIsReplayIff(w, s.p, side);
      assert ReaderOf(w, s.p).hour in AfterStore(w, s.p).stored;
    }
  }

  /** What a query could check: that the hour found is not after the hour read. */
  predicate Timely(w: World, s: Step)
    requires Enabled(w, s)
  {
    s.Search? ==> s.found <= ReaderOf(w, s.p).hour
  }

  ghost predicate AllTimely(w: World, steps: seq<Step>)
    requires Possible(w, steps)
  {
    |steps| == 0 ||
    var rest := steps[..|steps| - 1];
    AllTimely(w, rest) && Timely(Run(w, rest), steps[|steps| - 1])
  }

  ghost predicate NoneOvertaken(w: World) {
    forall p :: ReaderOf(w, p).Adding? ==> ReaderOf(w, p).upto <= ReaderOf(w, p).hour * HOUR
  }

  lemma StepKeepsNoneOvertaken(w: World, s: Step)
    requires NoneOvertaken(w) && Enabled(w, s) && Timely(w, s)
    ensures NoneOvertaken(Do(w, s)) && Harmless(w, s)
  {
    if s.Search? {
      TopsMonotone(s.found, ReaderOf(w, s.p).hour);
    }
    if s.Store? {
      assert Overtaken(w, s.p) == {};
    }
    forall p | ReaderOf(Do(w, s), p).Adding?
      ensures ReaderOf(Do(w, s), p).upto <= ReaderOf(Do(w, s), p).hour * HOUR
    {
      assert ReaderOf(w, p).Adding? ==> ReaderOf(w, p).upto <= ReaderOf(w, p).hour * HOUR;
    }
  }

  lemma {:induction false} TimelyIsHarmless(w: World, steps: seq<Step>)
    requires Start(w) && Possible(w, steps) && AllTimely(w, steps)
    ensures AllHarmless(w, steps) && NoneOvertaken(Run(w, steps))
    decreases |steps|
  {
    if |steps| > 0 {
      TimelyIsHarmless(w, steps[..|steps| - 1]);
      StepKeepsNoneOvertaken(Run(w, steps[..|steps| - 1]), steps[|steps| - 1]);
    }
  }

  /** As long as no query finds a later hour than the one it read, every stored hourly balance is what
      replaying the history gives. */
  lemma StoredBalancesAreReplays(w: World, steps: seq<Step>, h: int)
    requires Start(w) && Possible(w, steps) && AllTimely(w, steps) && h in Run(w, steps).stored
    ensures Run(w, steps).stored[h] == ReplayAt(Run(w, steps).items, h * HOUR)
  {
    TimelyIsHarmless(w, steps);
    StoredBalancesAreReplaysIff(w, steps);
  }

  // ------------------------------------------------------------ for ever

  lemma StepKeepsStored(w: World, s: Step, h: int)
    requires Fine(w) && Enabled(w, s) && Harmless(w, s) && h in w.stored
    ensures h in Do(w, s).stored && Do(w, s).stored[h] == w.stored[h]
  {
    match s
    case StoreZero(_) => NothingBefore(w);
    case Store(p) =>
      StoreKeeps(w, p);
      assert AfterStore(w, p).items == w.items;
    case _ =>
  }

  lemma {:induction false} PossiblePrefix(w: World, steps: seq<Step>, k: nat)
    requires Possible(w, steps) && k <= |steps|
    ensures Possible(w, steps[..k])
    decreases |steps|
  {
    if k == |steps| {
      assert steps[..k] == steps;
    } else {
      assert steps[..|steps| - 1][..k] == steps[..k];
      PossiblePrefix(w, steps[..|steps| - 1], k);
    }
  }

  lemma {:induction false} StoredStays(w: World, steps: seq<Step>, k: nat, h: int)
    requires Fine(w) && Possible(w, steps) && AllHarmless(w, steps) && k <= |steps| && Possible(w, steps[..k])
    requires h in Run(w, steps[..k]).stored
    ensures h in Run(w, steps).stored && Run(w, steps).stored[h] == Run(w, steps[..k]).stored[h]
    decreases |steps|
  {
    if k == |steps| {
      assert steps[..k] == steps;
    } else {
      var rest := steps[..|steps| - 1];
      assert rest[..k] == steps[..k];
      StoredStays(w, rest, k, h);
      RunKeeps(w, rest);
      StepKeepsStored(Run(w, rest), steps[|steps| - 1], h);
    }
  }

  /** In a run in which every store is harmless, the balance of an hour, once stored, never changes, however
      many queries store it again: it was right when it was first stored, and no later write makes it wrong. */
  lemma StoredBalancesStand(w: World, steps: seq<Step>, k: nat)
    requires Start(w) && Possible(w, steps) && AllHarmless(w, steps) && k <= |steps|
    ensures Possible(w, steps[..k])
    ensures forall h :: h in Run(w, steps[..k]).stored ==>
      && h in Run(w, steps).stored && Run(w, steps).stored[h] == Run(w, steps[..k]).stored[h]
      && Run(w, steps[..k]).stored[h] == ReplayAt(Run(w, steps).items, h * HOUR)
  {
    PossiblePrefix(w, steps, k);
    StartIsFine(w);
    RunKeeps(w, steps);
    forall h | h in Run(w, steps[..k]).stored
      ensures h in Run(w, steps).stored && Run(w, steps).stored[h] == Run(w, steps[..k]).stored[h]
    {
      StoredStays(w, steps, k, h);
    }
  }

  // ------------------------------------------------------------ undisturbed

  lemma Extend(w: World, steps: seq<Step>, s: Step)
    requires Possible(w, steps) && Enabled(Run(w, steps), s)
    ensures Possible(w, steps + [s]) && Run(w, steps + [s]) == Do(Run(w, steps), s)
  {
    assert (steps + [s])[..|steps|] == steps;
  }

  // A debit or credit is stamped and checked in the same hour.
  lemma UndisturbedCheck(w: World, p: Pid, checked: Time) returns (steps: seq<Step>)
    requires WriterOf(w, p).Idle? && !Unsafe(w.clock) && !Unsafe(checked)
    requires w.clock <= checked && HourOf(checked) == HourOf(w.clock)
    ensures steps == [Stamp(p)] + [Tick(checked)] + [Check(p)] && Possible(w, steps)
    ensures Run(w, steps) == w.(clock := checked, writers := w.writers[p := Checked(w.clock, checked)])
  {
    HourWithinDay(w.clock);
    HourWithinDay(checked);
    steps := [Stamp(p)];
    Extend(w, [], Stamp(p));
    assert [] + steps == steps;
    Extend(w, steps, Tick(checked));
    steps := steps + [Tick(checked)];
    Extend(w, steps, Check(p));
    steps := steps + [Check(p)];
    var done := Checked(w.clock, checked);
    assert w.writers[p := Stamped(w.clock)][p := done] == w.writers[p := done];
  }

  /** A debit or credit that is checked within the hour and written less than two seconds later is in the store,
      under the time at which it began. */
  lemma UndisturbedWrite(w: World, p: Pid, checked: Time, written: Time, uid: string, info: Info)
    returns (steps: seq<Step>)
    requires WriterOf(w, p).Idle? && !Unsafe(w.clock) && !Unsafe(checked)
    requires w.clock <= checked <= written < checked + 2_000_000 && HourOf(checked) == HourOf(w.clock)
    ensures steps == [Stamp(p)] + [Tick(checked)] + [Check(p)] + [Tick(written)] + [Put(p, uid, info)]
    ensures Possible(w, steps) && WriterOf(Run(w, steps), p).Idle?
    ensures Run(w, steps).items == w.items + {Item(w.clock, uid, info)}
  {
    steps := UndisturbedCheck(w, p, checked);
    Extend(w, steps, Tick(written));
    steps := steps + [Tick(written)];
    Extend(w, steps, Put(p, uid, info));
    steps := steps + [Put(p, uid, info)];
  }

  /** A debit or credit starts again exactly when the hour of the day has changed since it was stamped. */
  lemma CheckStartsAgainIff(w: World, p: Pid)
    requires Enabled(w, Check(p))
    ensures WriterOf(AfterCheck(w, p), p).Idle? <==>
      WriterOf(w, p).stamp / HOUR % 24 != w.clock / HOUR % 24
    ensures !WriterOf(AfterCheck(w, p), p).Idle? ==>
      WriterOf(AfterCheck(w, p), p) == Checked(WriterOf(w, p).stamp, w.clock)
  {
  }

  /** A query that nobody disturbs stores, for the hour it began in, the balance of the history. */
  lemma UndisturbedQuery(w: World, p: Pid, found: int)
    requires Fine(w) && ReaderOf(w, p).Resting? && found in w.stored
    ensures var h := HourOf(w.clock);
      var steps := [ReadClock(p)] + [Search(p, found)] + [Add(p, h * HOUR)] + [Store(p)];
      && Possible(w, steps)
      && Run(w, steps).stored == w.stored[h := ReplayAt(w.items, h * HOUR)] && Run(w, steps).items == w.items
  {
    var h := HourOf(w.clock);
    TopsMonotone(found, h);
    Extend(w, [], ReadClock(p));
    assert [] + [ReadClock(p)] == [ReadClock(p)];
    Extend(w, [ReadClock(p)], Search(p, found));
    Extend(w, [ReadClock(p)] + [Search(p, found)], Add(p, h * HOUR));
    ReplayResumes(w.items, found * HOUR, h * HOUR);
    Extend(w, [ReadClock(p)] + [Search(p, found)] + [Add(p, h * HOUR)], Store(p));
  }

  // ------------------------------------------------------------ two queries that race

  ghost predicate Reachable(w: World, w': World) {
    exists steps :: Possible(w, steps) && Run(w, steps) == w'
  }

  lemma ReachableAtOnce(w: World)
    ensures Reachable(w, w)
  {
    assert Possible(w, []) && Run(w, []) == w;
  }

  lemma ReachableNext(w: World, w': World, s: Step)
    requires Reachable(w, w') && Enabled(w', s)
    ensures Reachable(w, Do(w', s))
  {
    var steps :| Possible(w, steps) && Run(w, steps) == w';
    assert (steps + [s])[..|steps|] == steps;
    assert Possible(w, steps + [s]) && Run(w, steps + [s]) == Do(w', s);
  }

  lemma CreditAlone(i: Item)
    requires i.info.WellFormed() && i.info.code == Credit
    ensures SumOf({i}).balance == i.info.value
  {
    SumSetRemove({i}, EffectOn(Funds), i);
    assert {i} - {i} == {};
  }

  // A credit is stamped and written at once.
  lemma CreditIsWritten(w: World, i: Item, t: Time) returns (w': World)
    requires Start(w) && w.clock <= t && !Unsafe(t) && i.info.WellFormed() && i.stamp == t && i.uid == ""
    ensures Reachable(w, w') && w'.clock == t && w'.items == {i} && w'.stored == map[] && w'.readers == map[]
  {
    ReachableAtOnce(w);
    ReachableNext(w, w, Tick(t));
    var w1 := w.(clock := t);
    ReachableNext(w, w1, StampOnce(0));
    var w2 := Do(w1, StampOnce(0));
    ReachableNext(w, w2, Put(0, "", i.info));
    w' := Do(w2, Put(0, "", i.info));
    assert w'.items == {i};
  }

  // A query reads the clock half a second before the hour.
  lemma OneReadsTheClock(w: World, w0: World, t: Time) returns (w': World)
    requires Reachable(w, w0) && w0.clock <= t && w0.readers == map[]
    ensures Reachable(w, w') && w' == w0.(clock := t, readers := map[0 := Asked(HourOf(t))])
  {
    ReachableNext(w, w0, Tick(t));
    var w1 := w0.(clock := t);
    ReachableNext(w, w1, ReadClock(0));
    w' := Do(w1, ReadClock(0));
  }

  // Another begins, and finds no balance, just after it.
  lemma AnotherBegins(w: World, w0: World, t: Time, hour: int) returns (w': World)
    requires Reachable(w, w0) && w0.clock <= t && w0.stored == map[] && w0.readers == map[0 := Asked(hour)]
    ensures Reachable(w, w') && w'.items == w0.items && w'.stored == map[GENESIS := ZERO]
    ensures w'.readers == map[0 := Asked(hour), 1 := Adding(HourOf(t), GENESIS * HOUR, ZERO)]
  {
    ReachableNext(w, w0, Tick(t));
    var w1 := w0.(clock := t);
    ReachableNext(w, w1, ReadClock(1));
    var w2 := Do(w1, ReadClock(1));
    ReachableNext(w, w2, StoreZero(1));
    var w3 := Do(w2, StoreZero(1));
    ReachableNext(w, w3, Search(1, GENESIS));
    w' := Do(w3, Search(1, GENESIS));
  }

  // What the search for a balance finds first: the newest hour of today.
  ghost predicate NewestOfDay(stored: map<int, Balance>, day: int, h: int) {
    DayHours(stored.Keys, day) != {} && h == MaxOf(DayHours(stored.Keys, day))
  }

  lemma LaterIsNewest(stored: map<int, Balance>, day: int, later: int)
    requires later in stored && later / 24 == day && forall h :: h in stored ==> h <= later
    ensures NewestOfDay(stored, day, later)
  {
    assert later in DayHours(stored.Keys, day);
  }

  // It goes through the line items and stores their balance for the new hour, now the newest.
  lemma AnotherEnds(w: World, w0: World, hour: int, later: int, start: Time, b: Balance, day: int)
    returns (w': World)
    requires Reachable(w, w0) && start <= later * HOUR && later / 24 == day
    requires ReaderOf(w0, 0) == Asked(hour) && ReaderOf(w0, 1) == Adding(later, start, b)
    requires forall h :: h in w0.stored ==> h <= later
    ensures Reachable(w, w') && w'.items == w0.items && ReaderOf(w', 0) == Asked(hour)
    ensures NewestOfDay(w'.stored, day, later)
    ensures w'.stored[later] == b.Plus(SumOf(Window(w0.items, start, later * HOUR)))
  {
    ReachableNext(w, w0, Add(1, later * HOUR));
    var w1 := AfterAdd(w0, 1, later * HOUR);
    assert ReaderOf(w1, 1) == Adding(later, later * HOUR, b.Plus(SumOf(Window(w0.items, start, later * HOUR))));
    ReachableNext(w, w1, Store(1));
    w' := AfterStore(w1, 1);
    LaterIsNewest(w'.stored, day, later);
  }

  // Then the first query finds that balance, the newest of its day, and stores it for the old hour.
  lemma OneGoesOn(w: World, w0: World, hour: int, later: int, day: int) returns (w': World)
    requires Reachable(w, w0) && ReaderOf(w0, 0) == Asked(hour) && hour * HOUR <= later * HOUR
    requires hour / 24 == day && NewestOfDay(w0.stored, day, later)
    ensures Reachable(w, w') && w'.items == w0.items && hour in w'.stored && w'.stored[hour] == w0.stored[later]
  {
    ReachableNext(w, w0, Search(0, later));
    var w1 := Do(w0, Search(0, later));
    ReachableNext(w, w1, Store(0));
    w' := Do(w1, Store(0));
  }

  // Half past the first hour of a day, half a second before the next, and just after it.
  lemma RaceTimes(clock: Time) returns (hour: int, later: int, stamp: Time, before: Time, after: Time)
    requires GENESIS * HOUR <= clock
    ensures clock <= stamp <= before <= after && !Unsafe(stamp) && HourOf(before) == hour && HourOf(after) == later
    ensures GENESIS < later && hour / 24 == later / 24
    ensures GENESIS * HOUR <= hour * HOUR < stamp <= later * HOUR
  {
    hour := 24 * (HourOf(clock) / 24 + 1);
    later := hour + 1;
    stamp, before, after := hour * HOUR + 30 * MINUTE, later * HOUR - 500_000, later * HOUR + 1;
    HourWithinDay(clock);
    HourMonotone(GENESIS * HOUR, clock);
    TopsMonotone(HourOf(clock) + 1, hour);
    TopsMonotone(GENESIS, hour);
    Quotient(stamp, HOUR, hour, 30 * MINUTE);
    SafeIff(stamp);
    Quotient(before, HOUR, hour, HOUR - 500_000);
    Quotient(after, HOUR, later, 1);
  }

  lemma RaceBalances(i: Item, start: Time, top: Time, later: Time)
    requires i.info.WellFormed() && i.info.code == Credit && start <= top < i.stamp <= later
    ensures ZERO.Plus(SumOf(Window({i}, start, later))).balance == i.info.value
    ensures ReplayAt({i}, top) == ZERO
  {
    assert Window({i}, start, later) == {i};
    CreditAlone(i);
    assert Upto({i}, top) == {};
  }

  // The other query from beginning to end.
  lemma AnotherQuery(w: World, w0: World, after: Time, hour: int, later: int, day: int) returns (w': World)
    requires Reachable(w, w0) && w0.clock <= after && HourOf(after) == later && GENESIS * HOUR <= later * HOUR
    requires w0.stored == map[] && w0.readers == map[0 := Asked(hour)]
    requires GENESIS < later && later / 24 == day
    ensures Reachable(w, w') && w'.items == w0.items && ReaderOf(w', 0) == Asked(hour)
    ensures NewestOfDay(w'.stored, day, later)
    ensures w'.stored[later] == ZERO.Plus(SumOf(Window(w0.items, GENESIS * HOUR, later * HOUR)))
  {
    var w1 := AnotherBegins(w, w0, after, hour);
    assert ReaderOf(w1, 0) == Asked(hour) && ReaderOf(w1, 1) == Adding(later, GENESIS * HOUR, ZERO);
    w' := AnotherEnds(w, w1, hour, later, GENESIS * HOUR, ZERO, day);
  }

  lemma Race(w: World, w0: World, hour: int, later: int, before: Time, after: Time, day: int)
    returns (w': World)
    requires Reachable(w, w0) && w0.clock <= before <= after && w0.stored == map[] && w0.readers == map[]
    requires HourOf(before) == hour && HourOf(after) == later && GENESIS < later
    requires hour / 24 == day && later / 24 == day
    requires GENESIS * HOUR <= later * HOUR && hour * HOUR <= later * HOUR
    ensures Reachable(w, w') && w'.items == w0.items && hour in w'.stored
    ensures w'.stored[hour] == ZERO.Plus(SumOf(Window(w0.items, GENESIS * HOUR, later * HOUR)))
  {
    var w1 := OneReadsTheClock(w, w0, before);
    var w2 := AnotherQuery(w, w1, after, hour, later, day);
    w' := OneGoesOn(w, w2, hour, later, day);
  }

  /** A query that reads the clock before the hour and searches after it can find the balance that another
      query has just stored for the next hour, and store it as that of its own: here a credit made during an
      hour is in the balance stored for the top of that hour. */
  lemma RacingQueriesStoreTheWrongBalance(w: World, value: int) returns (w': World, hour: int)
    requires Start(w) && 0 <= value <= MAX_TRANSACTION
    ensures Reachable(w, w') && hour in w'.stored
    ensures w'.stored[hour].balance == value && ReplayAt(w'.items, hour * HOUR) == ZERO
  {
    var later, stamp, before, after;
    hour, later, stamp, before, after := RaceTimes(w.clock);
    var i := Item(stamp, "", TransactionInfo(Credit, value, None));
    var w0 := CreditIsWritten(w, i, stamp);
    w' := Race(w, w0, hour, later, before, after, hour / 24);
    RaceBalances(i, GENESIS * HOUR, hour * HOUR, later * HOUR);
  }
}
