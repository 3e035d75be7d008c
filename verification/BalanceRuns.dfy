/**
 Whole runs of an account: any number of readers, each with a memory of its own, ask for balances over the
 same store while line items are written to it.
 */
module BalanceRuns {
  import opened BalanceCache
  import opened Balances
  import opened Calendar
  import opened LineItemKeys

  type Reader = nat

  // `latest` is the latest time at which a balance has been asked for.
  datatype World = World(
    items: set<Item>, stored: map<int, Balance>, memories: map<Reader, map<int, Update>>, latest: Time)

  // A reader that reloads the account forgets what it remembered.
  datatype Event = Query(reader: Reader, now: Time) | Write(item: Item) | Reload(reader: Reader)

  function Memory(w: World, reader: Reader): map<int, Update> {
    if reader in w.memories then w.memories[reader] else map[]
  }

  function Seen(w: World, reader: Reader): View {
    View(w.items, w.stored, Memory(w, reader))
  }

  // No query finds a later hour than the one it asks for, and a line item is in the store before any query
  // at or after its stamp.
  ghost predicate May(w: World, e: Event) {
    match e
    case Query(reader, now) => QueryTime(now) && Timely(Seen(w, reader), now)
    case Write(item) => item.info.WellFormed() && MayWrite(item, w.latest)
    case Reload(_) => true
  }

  // A query by `reader` leaves `v` behind.
  function Absorb(w: World, reader: Reader, v: View, now: Time): World {
    w.(stored := v.stored, memories := w.memories[reader := v.updates], latest := Max(w.latest, now))
  }

  ghost function After(w: World, e: Event): World
    requires May(w, e)
  {
    match e
    case Query(reader, now) => Absorb(w, reader, AfterBalance(Seen(w, reader), now), now)
    case Write(item) => w.(items := w.items + {item})
    case Reload(reader) => w.(memories := w.memories[reader := map[]])
  }

  /** A query leaves its reader what it kept, and to others what it stored. */
  lemma SeenAfterQuery(w: World, asker: Reader, now: Time, reader: Reader)
    requires May(w, Query(asker, now))
    ensures var v, kept := Seen(w, reader), AfterBalance(Seen(w, asker), now);
      Seen(After(w, Query(asker, now)), reader) == if reader == asker then kept else v.(stored := kept.stored)
  {
    ItemsUntouched(Seen(w, asker), now);
  }

  /** A reload leaves its reader nothing but the store, and others everything. */
  lemma SeenAfterReload(w: World, other: Reader, reader: Reader)
    ensures Seen(After(w, Reload(other)), reader) ==
      if reader == other then Seen(w, reader).(updates := map[]) else Seen(w, reader)
  {
  }

  ghost predicate Permitted(w: World, events: seq<Event>)
    decreases |events|, 0
  {
    |events| == 0 ||
    var rest := events[..|events| - 1];
    Permitted(w, rest) && May(Run(w, rest), events[|events| - 1])
  }

  ghost function Run(w: World, events: seq<Event>): World
    requires Permitted(w, events)
    decreases |events|, 1
  {
    if |events| == 0 then w else After(Run(w, events[..|events| - 1]), events[|events| - 1])
  }

  ghost predicate AllCoherent(w: World) {
    forall reader :: Coherent(Seen(w, reader), w.latest)
  }

  lemma AbsorbKeepsCoherent(w: World, asker: Reader, v: View, now: Time)
    requires AllCoherent(w) && Coherent(v, Max(w.latest, now)) && v.items == w.items
    ensures AllCoherent(Absorb(w, asker, v, now))
  {
    var w' := Absorb(w, asker, v, now);
    forall reader ensures Coherent(Seen(w', reader), w'.latest) {
      assert Coherent(Seen(w, reader), w.latest);
      if reader == asker {
        assert Seen(w', reader) == v;
      } else {
        assert Seen(w', reader) == Seen(w, reader).(stored := v.stored);
        BorrowStore(Seen(w, reader), w.latest, v, w'.latest);
      }
    }
  }

  lemma WriteKeepsAllCoherent(w: World, item: Item)
    requires AllCoherent(w) && MayWrite(item, w.latest)
    ensures AllCoherent(w.(items := w.items + {item}))
  {
    var w' := w.(items := w.items + {item});
    forall reader ensures Coherent(Seen(w', reader), w'.latest) {
      assert Coherent(Seen(w, reader), w.latest);
      WriteKeepsCoherent(Seen(w, reader), w.latest, item);
    }
  }

  lemma ReloadKeepsAllCoherent(w: World, other: Reader)
    requires AllCoherent(w)
    ensures AllCoherent(w.(memories := w.memories[other := map[]]))
  {
    var w' := w.(memories := w.memories[other := map[]]);
    forall reader ensures Coherent(Seen(w', reader), w'.latest) {
      assert Coherent(Seen(w, reader), w.latest);
    }
  }

  lemma StepKeepsCoherent(w: World, e: Event)
    requires AllCoherent(w) && May(w, e)
    ensures AllCoherent(After(w, e))
  {
    match e
    case Query(asker, now) =>
      var v := Seen(w, asker);
      assert Coherent(v, w.latest);
      QueryKeepsCoherent(v, w.latest, now);
      BalanceLeavesItems(v, now);
      AbsorbKeepsCoherent(w, asker, AfterBalance(v, now), now);
    case Write(item) => WriteKeepsAllCoherent(w, item);
    case Reload(other) => ReloadKeepsAllCoherent(w, other);
  }

  lemma BalanceLeavesItems(v: View, now: Time)
    requires QueryTime(now)
    ensures AfterBalance(v, now).items == v.items
  {
    ItemsUntouched(v, now);
  }

  lemma BorrowStore(v: View, latest: Time, other: View, later: Time)
    requires Coherent(v, latest) && Coherent(other, later) && latest <= later && v.items == other.items
    ensures Coherent(v.(stored := other.stored), later)
  {
  }

  /** Queries whose hours never decrease are among those allowed. */
  lemma LaterQueriesAreAllowed(w: World, events: seq<Event>, reader: Reader, now: Time)
    requires AllCoherent(w) && Permitted(w, events)
    requires QueryTime(now) && HourOf(Run(w, events).latest) <= HourOf(now)
    ensures May(Run(w, events), Query(reader, now))
  {
    RunKeepsCoherent(w, events);
    var w' := Run(w, events);
    assert Coherent(Seen(w', reader), w'.latest);
    LaterHoursAreTimely(Seen(w', reader), w'.latest, now);
  }

  lemma {:induction false} RunKeepsCoherent(w: World, events: seq<Event>)
    requires AllCoherent(w) && Permitted(w, events)
    ensures AllCoherent(Run(w, events))
    decreases |events|
  {
    if |events| > 0 {
      RunKeepsCoherent(w, events[..|events| - 1]);
      StepKeepsCoherent(Run(w, events[..|events| - 1]), events[|events| - 1]);
    }
  }

  /** In every run, every answer is the replay of all line items stamped by then. */
  lemma AnswersAreReplays(w: World, events: seq<Event>, reader: Reader, now: Time)
    requires AllCoherent(w) && Permitted(w, events) && May(Run(w, events), Query(reader, now))
    ensures var w' := Run(w, events);
      BalanceNow(Seen(w', reader), now) == ReplayAt(w'.items, now)
  {
    RunKeepsCoherent(w, events);
    var w' := Run(w, events);
    assert Coherent(Seen(w', reader), w'.latest);
    QueryIsReplay(Seen(w', reader), w'.latest, now);
  }

  /** In other words, every answer is the fold of `Balance.__add__` over those line items, in whatever order
      they are listed. */
  lemma AnswersAreFolds(w: World, events: seq<Event>, reader: Reader, now: Time, list: seq<Item>)
    requires AllCoherent(w) && Permitted(w, events) && May(Run(w, events), Query(reader, now))
    requires Lists(list, Upto(Run(w, events).items, now)) && AllWellFormed(list)
    ensures BalanceNow(Seen(Run(w, events), reader), now) == Replay(ZERO, Infos(list))
  {
    AnswersAreReplays(w, events, reader, now);
    ReplayIsSum(list, Upto(Run(w, events).items, now));
  }

  // ------------------------------------------------------------ answers stand for ever

  lemma StepKeepsReplay(w: World, e: Event, t: Time)
    requires May(w, e) && t <= w.latest
    ensures ReplayAt(After(w, e).items, t) == ReplayAt(w.items, t) && t <= After(w, e).latest
  {
    if e.Write? {
      LaterItemsDoNotCount(w.items, e.item, t);
    }
  }

  lemma {:induction false} RunKeepsReplay(w: World, events: seq<Event>, k: nat, t: Time)
    requires Permitted(w, events) && k <= |events| && Permitted(w, events[..k]) && t <= Run(w, events[..k]).latest
    ensures ReplayAt(Run(w, events).items, t) == ReplayAt(Run(w, events[..k]).items, t)
    ensures t <= Run(w, events).latest
    decreases |events|
  {
    if k == |events| {
      assert events[..k] == events;
    } else {
      var rest := events[..|events| - 1];
      assert rest[..k] == events[..k];
      RunKeepsReplay(w, rest, k, t);
      StepKeepsReplay(Run(w, rest), events[|events| - 1], t);
    }
  }

  lemma {:induction false} PermittedPrefix(w: World, events: seq<Event>, k: nat)
    requires Permitted(w, events) && k <= |events|
    ensures Permitted(w, events[..k])
    ensures k < |events| ==> May(Run(w, events[..k]), events[k])
    decreases |events|
  {
    if k == |events| {
      assert events[..k] == events;
    } else {
      var rest := events[..|events| - 1];
      assert rest[..k] == events[..k];
      if k < |rest| {
        PermittedPrefix(w, rest, k);
      }
    }
  }

  lemma AnswerIsReplay(w: World, events: seq<Event>, k: nat)
    requires AllCoherent(w) && Permitted(w, events) && k < |events| && events[k].Query?
    ensures Permitted(w, events[..k]) && May(Run(w, events[..k]), events[k])
    ensures var v, now := Seen(Run(w, events[..k]), events[k].reader), events[k].now;
      BalanceNow(v, now) == ReplayAt(Run(w, events[..k]).items, now)
  {
    PermittedPrefix(w, events, k);
    AnswersAreReplays(w, events[..k], events[k].reader, events[k].now);
  }

  lemma OneMoreEvent(w: World, events: seq<Event>, k: nat)
    requires Permitted(w, events) && k < |events|
    ensures Permitted(w, events[..k]) && May(Run(w, events[..k]), events[k])
    ensures Permitted(w, events[..k + 1]) && Run(w, events[..k + 1]) == After(Run(w, events[..k]), events[k])
  {
    PermittedPrefix(w, events, k);
    PermittedPrefix(w, events, k + 1);
    assert events[..k + 1][..k] == events[..k];
  }

  // What was replayed for a query is replayed for its time ever after.
  lemma ReplayStands(w: World, events: seq<Event>, k: nat)
    requires Permitted(w, events) && k < |events| && events[k].Query?
    ensures Permitted(w, events[..k])
    ensures ReplayAt(Run(w, events[..k]).items, events[k].now) == ReplayAt(Run(w, events).items, events[k].now)
  {
    OneMoreEvent(w, events, k);
    StepKeepsAnswer(Run(w, events[..k]), events[k]);
    RunKeepsReplay(w, events, k + 1, events[k].now);
  }

  /** From an empty account on, in every run: an answer once given is still what a replay gives for its time
      when the run is over, whatever was written, stored and forgotten in between. */
  lemma AnswersStand(start: Time, events: seq<Event>, k: nat)
    requires Permitted(World({}, map[], map[], start), events) && k < |events| && events[k].Query?
    ensures var w := World({}, map[], map[], start);
      && Permitted(w, events[..k])
      && QueryTime(events[k].now)
      && BalanceNow(Seen(Run(w, events[..k]), events[k].reader), events[k].now) ==
           ReplayAt(Run(w, events).items, events[k].now)
  {
    EmptyIsCoherent(start);
    AnswerIsReplay(World({}, map[], map[], start), events, k);
    ReplayStands(World({}, map[], map[], start), events, k);
  }

  lemma StepKeepsAnswer(w: World, e: Event)
    requires e.Query? && May(w, e)
    ensures After(w, e).items == w.items && e.now <= After(w, e).latest
  {
  }

  lemma EmptyIsCoherent(start: Time)
    ensures AllCoherent(World({}, map[], map[], start))
  {
  }
}
