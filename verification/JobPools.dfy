/**
 The pools that a compute service keeps its jobs in, as a transition system: any number of callers submit
 jobs and move them from pool to pool. A move takes the job out of one pool, which the store does
 atomically, and then stores it in the next; in between it is in the hands of the caller.
 */
module JobPools {
  import opened Wrappers

  type Uid = string
  type Pid = nat
  type Time = int

  datatype JobState = Pending | Submitting | Starting | Running | Error | Terminated | Completed

  // The key "compute/<state>/<uid>".
  datatype Key = Key(state: JobState, uid: Uid)

  // What is stored for a job: its UID, and when it entered each of the pools it has been in.
  datatype Job = Job(uid: Uid, times: map<JobState, Time>)

  // A job taken out of a pool and not yet stored in the next.
  datatype Flight = Flight(job: Job, uid: Uid, next: JobState)

  datatype Event = Entered(key: Key) | Left(key: Key, p: Pid)

  datatype World = World(
    pools: map<Key, Job>, flights: map<Pid, Flight>, lost: set<Uid>, submitted: set<Uid>, history: seq<Event>)

  datatype Step =
    | Submit(uid: Uid, time: Time)
    | Take(p: Pid, uid: Uid, start: JobState, next: JobState)
    | Put(p: Pid, time: Time)
    | PutFails(p: Pid)

  // A job is submitted under a fresh UID. Taking fails when the job is not in the pool: nothing happens.
  predicate Enabled(w: World, s: Step) {
    match s
    case Submit(uid, _) => uid !in w.submitted
    case Take(p, uid, start, next) => p !in w.flights && start != next && Key(start, uid) in w.pools
    case Put(p, _) => p in w.flights
    case PutFails(p) => p in w.flights
  }

  // The service's half of `submit_job`.
  function AfterSubmit(w: World, uid: Uid, time: Time): World {
    w.(pools := w.pools[Key(Pending, uid) := Job(uid, map[Pending := time])],
       lost := w.lost - {uid},
       submitted := w.submitted + {uid},
       history := w.history + [Entered(Key(Pending, uid))])
  }

  // The first half of `get_job`: `take_object_from_json`.
  function AfterTake(w: World, p: Pid, uid: Uid, start: JobState, next: JobState): World
    requires Enabled(w, Take(p, uid, start, next))
  {
    var key := Key(start, uid);
    w.(pools := w.pools - {key},
       flights := w.flights[p := Flight(w.pools[key], uid, next)],
       history := w.history + [Left(key, p)])
  }

  // The second half.
  function AfterPut(w: World, p: Pid, time: Time): World
    requires Enabled(w, Put(p, time))
  {
    var f := w.flights[p];
    var key := Key(f.next, f.uid);
    w.(pools := w.pools[key := f.job.(times := f.job.times[f.next := time])],
       flights := w.flights - {p},
       history := w.history + [Entered(key)])
  }

  // Any error of the second half is taken for a job that was not found.
  function AfterPutFails(w: World, p: Pid): World
    requires Enabled(w, PutFails(p))
  {
    w.(flights := w.flights - {p}, lost := w.lost + {w.flights[p].uid})
  }

  function Do(w: World, s: Step): World
    requires Enabled(w, s)
  {
    match s
    case Submit(uid, time) => AfterSubmit(w, uid, time)
    case Take(p, uid, start, next) => AfterTake(w, p, uid, start, next)
    case Put(p, time) => AfterPut(w, p, time)
    case PutFails(p) => AfterPutFails(w, p)
  }

  predicate Possible(w: World, steps: seq<Step>)
    decreases |steps|, 0
  {
    |steps| == 0 ||
    var rest := steps[..|steps| - 1];
    Possible(w, rest) && Enabled(Run(w, rest), steps[|steps| - 1])
  }

  function Run(w: World, steps: seq<Step>): World
    requires Possible(w, steps)
    decreases |steps|, 1
  {
    if |steps| == 0 then w else Do(Run(w, steps[..|steps| - 1]), steps[|steps| - 1])
  }

  const EMPTY := World(map[], map[], {}, {}, [])

  // ------------------------------------------------------------ one place for each job

  predicate InPool(w: World, uid: Uid) {
    exists key :: key in w.pools && key.uid == uid
  }

  predicate InFlight(w: World, uid: Uid) {
    exists p :: p in w.flights && w.flights[p].uid == uid
  }

  /** The job is in no more than one pool, in no more than one caller's hands, and not in two of a pool,
      a caller's hands and nowhere at once. */
  predicate OnePlace(w: World, uid: Uid) {
    && (forall k, l :: k in w.pools && l in w.pools && k.uid == uid && l.uid == uid ==> k == l)
    && (forall p, q ::
          p in w.flights && q in w.flights && w.flights[p].uid == uid && w.flights[q].uid == uid ==> p == q)
    && !(InPool(w, uid) && InFlight(w, uid))
    && (InPool(w, uid) || InFlight(w, uid) ==> uid !in w.lost)
  }

  // What is stored under a key is the job of that UID, and says when it entered that pool.
  predicate JobsMatchKeys(w: World) {
    && (forall k :: k in w.pools ==> w.pools[k].uid == k.uid && k.state in w.pools[k].times)
    && (forall p :: p in w.flights ==> w.flights[p].job.uid == w.flights[p].uid)
  }

  ghost predicate Somewhere(w: World) {
    forall uid :: uid in w.submitted <==> InPool(w, uid) || InFlight(w, uid) || uid in w.lost
  }

  ghost predicate Fine(w: World) {
    (forall uid :: OnePlace(w, uid)) && JobsMatchKeys(w) && Somewhere(w)
  }

  lemma InPoolBy(w: World, key: Key)
    requires key in w.pools
    ensures InPool(w, key.uid)
  {
  }

  lemma InFlightBy(w: World, p: Pid)
    requires p in w.flights
    ensures InFlight(w, w.flights[p].uid)
  {
  }

  // Steps leave alone the jobs they are not about.
  lemma OthersStayPut(w: World, w': World, uid: Uid)
    requires forall k: Key :: k.uid == uid ==> (k in w.pools <==> k in w'.pools)
    requires forall p :: p in w.flights && w.flights[p].uid == uid ==> p in w'.flights && w'.flights[p].uid == uid
    requires forall p :: p in w'.flights && w'.flights[p].uid == uid ==> p in w.flights && w.flights[p].uid == uid
    requires uid in w.lost <==> uid in w'.lost
    ensures InPool(w', uid) == InPool(w, uid) && InFlight(w', uid) == InFlight(w, uid)
    ensures OnePlace(w, uid) ==> OnePlace(w', uid)
  {
  }

  function Subject(w: World, s: Step): Uid
    requires Enabled(w, s)
  {
    match s
    case Submit(uid, _) => uid
    case Take(_, uid, _, _) => uid
    case Put(p, _) => w.flights[p].uid
    case PutFails(p) => w.flights[p].uid
  }

  lemma SubmitPlaces(w: World, uid: Uid, time: Time)
    requires Fine(w) && uid !in w.submitted
    ensures OnePlace(AfterSubmit(w, uid, time), uid) && InPool(AfterSubmit(w, uid, time), uid)
  {
    var w' := AfterSubmit(w, uid, time);
    assert !InPool(w, uid) && !InFlight(w, uid) && uid !in w.lost;
    InPoolBy(w', Key(Pending, uid));
  }

  lemma TakePlaces(w: World, p: Pid, uid: Uid, start: JobState, next: JobState)
    requires Fine(w) && Enabled(w, Take(p, uid, start, next))
    ensures OnePlace(AfterTake(w, p, uid, start, next), uid) && InFlight(AfterTake(w, p, uid, start, next), uid)
  {
    var w' := AfterTake(w, p, uid, start, next);
    assert OnePlace(w, uid);
    InPoolBy(w, Key(start, uid));
    InFlightBy(w', p);
  }

  lemma PutPlaces(w: World, p: Pid, time: Time)
    requires Fine(w) && p in w.flights
    ensures OnePlace(AfterPut(w, p, time), w.flights[p].uid) && InPool(AfterPut(w, p, time), w.flights[p].uid)
  {
    var f := w.flights[p];
    assert OnePlace(w, f.uid);
    InFlightBy(w, p);
    InPoolBy(AfterPut(w, p, time), Key(f.next, f.uid));
  }

  lemma FailPlaces(w: World, p: Pid)
    requires Fine(w) && p in w.flights
    ensures OnePlace(AfterPutFails(w, p), w.flights[p].uid)
  {
    assert OnePlace(w, w.flights[p].uid);
    InFlightBy(w, p);
  }

  lemma StepPlacesSubject(w: World, s: Step)
    requires Fine(w) && Enabled(w, s)
    ensures var uid := Subject(w, s);
      && OnePlace(Do(w, s), uid)
      && uid in Do(w, s).submitted
      && (InPool(Do(w, s), uid) || InFlight(Do(w, s), uid) || uid in Do(w, s).lost)
  {
    match s
    case Submit(uid, time) => SubmitPlaces(w, uid, time);
    case Take(p, uid, start, next) =>
      InPoolBy(w, Key(start, uid));
      TakePlaces(w, p, uid, start, next);
    case Put(p, time) =>
      InFlightBy(w, p);
      PutPlaces(w, p, time);
    case PutFails(p) =>
      InFlightBy(w, p);
      FailPlaces(w, p);
  }

  lemma StepLeavesOthers(w: World, s: Step, uid: Uid)
    requires Fine(w) && Enabled(w, s) && uid != Subject(w, s)
    ensures OnePlace(Do(w, s), uid)
    ensures uid in Do(w, s).submitted <==> uid in w.submitted
    ensures (InPool(Do(w, s), uid) || InFlight(Do(w, s), uid) || uid in Do(w, s).lost) <==>
      (InPool(w, uid) || InFlight(w, uid) || uid in w.lost)
  {
    OthersStayPut(w, Do(w, s), uid);
  }

  lemma StepKeepsJobs(w: World, s: Step)
    requires Fine(w) && Enabled(w, s)
    ensures JobsMatchKeys(Do(w, s))
  {
  }

  lemma StepKeeps(w: World, s: Step)
    requires Fine(w) && Enabled(w, s)
    ensures Fine(Do(w, s))
  {
    StepKeepsJobs(w, s);
    StepPlacesSubject(w, s);
    forall uid ensures OnePlace(Do(w, s), uid) {
      if uid != Subject(w, s) { StepLeavesOthers(w, s, uid); }
    }
    forall uid
      ensures uid in Do(w, s).submitted <==> InPool(Do(w, s), uid) || InFlight(Do(w, s), uid) || uid in Do(w, s).lost
    {
      if uid != Subject(w, s) { StepLeavesOthers(w, s, uid); }
    }
  }

  /** In every interleaving every job that was submitted is in exactly one pool, or in exactly one caller's
      hands, or lost to a failed store; and what a pool holds under a UID is that job. */
  lemma {:induction false} EveryJobHasOnePlace(steps: seq<Step>)
    requires Possible(EMPTY, steps)
    ensures Fine(Run(EMPTY, steps))
    decreases |steps|
  {
    if |steps| > 0 {
      EveryJobHasOnePlace(steps[..|steps| - 1]);
      StepKeeps(Run(EMPTY, steps[..|steps| - 1]), steps[|steps| - 1]);
    }
  }

  // ------------------------------------------------------------ every stay is ended by one caller

  // Whether the job is in the pool once these events have happened, if they can happen at all: it enters
  // only when it is out and leaves only when it is in.
  function Stays(history: seq<Event>, key: Key): Option<bool> {
    if |history| == 0 then Some(false)
    else
      var before, e := Stays(history[..|history| - 1], key), history[|history| - 1];
      if e.key != key then before
      else if e.Entered? then (if before == Some(false) then Some(true) else None)
      else if before == Some(true) then Some(false) else None
  }

  lemma StaysGrow(history: seq<Event>, e: Event, key: Key)
    ensures Stays(history + [e], key) ==
      if e.key != key then Stays(history, key)
      else if e.Entered? then (if Stays(history, key) == Some(false) then Some(true) else None)
      else if Stays(history, key) == Some(true) then Some(false) else None
  {
    assert (history + [e])[..|history|] == history;
  }

  lemma StepKeepsStays(w: World, s: Step, key: Key)
    requires Fine(w) && Enabled(w, s) && Stays(w.history, key) == Some(key in w.pools)
    ensures Stays(Do(w, s).history, key) == Some(key in Do(w, s).pools)
  {
    match s
    case Submit(uid, _) =>
      StaysGrow(w.history, Entered(Key(Pending, uid)), key);
      if key in w.pools { InPoolBy(w, key); }
    case Take(p, uid, start, _) => StaysGrow(w.history, Left(Key(start, uid), p), key);
    case Put(p, _) =>
      var f := w.flights[p];
      StaysGrow(w.history, Entered(Key(f.next, f.uid)), key);
      assert OnePlace(w, f.uid);
      InFlightBy(w, p);
      if key in w.pools { InPoolBy(w, key); }
    case PutFails(_) =>
  }

  /** In every interleaving the events of a pool alternate: a job enters, one caller takes it out, and only
      then can it enter again. */
  lemma {:induction false} StaysAlternate(steps: seq<Step>, key: Key)
    requires Possible(EMPTY, steps)
    ensures Stays(Run(EMPTY, steps).history, key) == Some(key in Run(EMPTY, steps).pools)
    decreases |steps|
  {
    if |steps| > 0 {
      var rest := steps[..|steps| - 1];
      StaysAlternate(rest, key);
      EveryJobHasOnePlace(rest);
      StepKeepsStays(Run(EMPTY, rest), steps[|steps| - 1], key);
    }
  }

  // ------------------------------------------------------------ submitting again

  /** Submitting a UID a second time leaves the job in one place exactly when it is still pending, or was
      lost: from any other pool, or from a caller's hands, it is then in two places. */
  lemma ResubmitKeepsOnePlaceIff(w: World, uid: Uid, time: Time)
    requires Fine(w)
    ensures OnePlace(AfterSubmit(w, uid, time), uid) <==>
      !InFlight(w, uid) && forall state :: state != Pending ==> Key(state, uid) !in w.pools
  {
    var w', key := AfterSubmit(w, uid, time), Key(Pending, uid);
    InPoolBy(w', key);
    if p :| p in w.flights && w.flights[p].uid == uid {
      InFlightBy(w', p);
    }
    if state :| state != Pending && Key(state, uid) in w.pools {
      assert Key(state, uid) in w'.pools && key in w'.pools;
    }
  }

  lemma Extend(steps: seq<Step>, s: Step)
    requires Possible(EMPTY, steps) && Enabled(Run(EMPTY, steps), s)
    ensures Possible(EMPTY, steps + [s]) && Run(EMPTY, steps + [s]) == Do(Run(EMPTY, steps), s)
  {
    assert (steps + [s])[..|steps|] == steps;
  }

  /** A job that is submitted, moved on, and submitted again is in two pools. */
  lemma ResubmittedJobIsInTwoPools(uid: Uid, time: Time) returns (steps: seq<Step>)
    ensures Possible(EMPTY, steps)
    ensures var w := AfterSubmit(Run(EMPTY, steps), uid, time);
      Key(Pending, uid) in w.pools && Key(Submitting, uid) in w.pools && !OnePlace(w, uid)
  {
    steps := [];
    Extend(steps, Submit(uid, time)); steps := steps + [Submit(uid, time)];
    Extend(steps, Take(0, uid, Pending, Submitting)); steps := steps + [Take(0, uid, Pending, Submitting)];
    Extend(steps, Put(0, time)); steps := steps + [Put(0, time)];
    var w := AfterSubmit(Run(EMPTY, steps), uid, time);
    assert Key(Pending, uid) in w.pools && Key(Submitting, uid) in w.pools;
  }

  // ------------------------------------------------------------ takes that are not atomic

  // Both production backends first read the object and then delete it, passing over an error of the delete.
  function AfterRead(w: World, p: Pid, uid: Uid, start: JobState, next: JobState): World
    requires Enabled(w, Take(p, uid, start, next))
  {
    w.(flights := w.flights[p := Flight(w.pools[Key(start, uid)], uid, next)])
  }

  function AfterDelete(w: World, p: Pid, uid: Uid, start: JobState): World {
    w.(pools := w.pools - {Key(start, uid)}, history := w.history + [Left(Key(start, uid), p)])
  }

  /** Undisturbed, reading and deleting is a take. */
  lemma ReadThenDeleteIsTake(w: World, p: Pid, uid: Uid, start: JobState, next: JobState)
    requires Enabled(w, Take(p, uid, start, next))
    ensures AfterDelete(AfterRead(w, p, uid, start, next), p, uid, start) == AfterTake(w, p, uid, start, next)
  {
  }

  // Two callers read the same job before either deletes it, and both store it.
  function Torn(w: World, p: Pid, q: Pid, uid: Uid, start: JobState, next: JobState, other: JobState, time: Time): World
    requires p != q && Enabled(w, Take(p, uid, start, next)) && Enabled(w, Take(q, uid, start, other))
  {
    var read := AfterRead(AfterRead(w, p, uid, start, next), q, uid, start, other);
    var deleted := AfterDelete(AfterDelete(read, p, uid, start), q, uid, start);
    AfterPut(AfterPut(deleted, p, time), q, time)
  }

  /** Then one stay has been ended by two callers, and the job is in one place exactly when both happen to
      move it to the same pool. */
  lemma TornTakesKeepOnePlaceIff(w: World, p: Pid, q: Pid, uid: Uid,
                                 start: JobState, next: JobState, other: JobState, time: Time)
    requires Fine(w) && Stays(w.history, Key(start, uid)) == Some(true)
    requires p != q && Enabled(w, Take(p, uid, start, next)) && Enabled(w, Take(q, uid, start, other))
    ensures OnePlace(Torn(w, p, q, uid, start, next, other, time), uid) <==> next == other
    ensures Stays(Torn(w, p, q, uid, start, next, other, time).history, Key(start, uid)).None?
  {
    var w' := Torn(w, p, q, uid, start, next, other, time);
    var key, one, two := Key(start, uid), Key(next, uid), Key(other, uid);
    assert OnePlace(w, uid);
    InPoolBy(w, key);
    assert one in w'.pools && two in w'.pools;
    TornHistory(w.history, key, one, two, p, q);
    assert w'.history == w.history + [Left(key, p)] + [Left(key, q)] + [Entered(one)] + [Entered(two)];
    if next == other {
      forall k, l | k in w'.pools && l in w'.pools && k.uid == uid && l.uid == uid ensures k == l {
        assert k != key && l != key;
      }
      forall r | r in w'.flights ensures w'.flights[r].uid != uid {
        assert r in w.flights;
        InFlightBy(w, r);
      }
    }
  }

  lemma TornHistory(history: seq<Event>, key: Key, one: Key, two: Key, p: Pid, q: Pid)
    requires Stays(history, key) == Some(true) && one != key && two != key
    ensures Stays(history + [Left(key, p)] + [Left(key, q)] + [Entered(one)] + [Entered(two)], key).None?
  {
    StaysGrow(history, Left(key, p), key);
    StaysGrow(history + [Left(key, p)], Left(key, q), key);
    StaysGrow(history + [Left(key, p)] + [Left(key, q)], Entered(one), key);
    StaysGrow(history + [Left(key, p)] + [Left(key, q)] + [Entered(one)], Entered(two), key);
  }

  // ------------------------------------------------------------ the service, one call at a time

  class JobStore {
    var pools: map<Key, Job>

    constructor ()
      ensures pools == map[]
    {
      pools := map[];
    }

    /** `submit_job` on the service. The job can be taken from the pending pool, every other job is where it
        was; under a fresh UID the job is in no other pool. */
    method SubmitJob(uid: Uid, time: Time, ghost w: World)
      requires w.pools == pools
      modifies this
      ensures Key(Pending, uid) in pools && pools[Key(Pending, uid)].uid == uid
      ensures pools[Key(Pending, uid)].times == map[Pending := time]
      ensures forall k :: k != Key(Pending, uid) ==>
        (k in pools <==> k in old(pools)) && (k in pools ==> pools[k] == old(pools)[k])
      ensures Fine(w) && Enabled(w, Submit(uid, time)) ==>
        pools == Do(w, Submit(uid, time)).pools && forall k :: k in pools && k.uid == uid ==> k.state == Pending
    {
      pools := pools[Key(Pending, uid) := Job(uid, map[Pending := time])];
      if Fine(w) && Enabled(w, Submit(uid, time)) {
        forall k | k in pools && k.uid == uid ensures k.state == Pending {
          if k in w.pools { InPoolBy(w, k); }
        }
      }
    }

    /** `get_job` on the service. The job is handed out when it is in the pool it is asked from and, if it is
        to be moved on, can be stored again; then it is the job asked for, in its new pool. An error is raised
        otherwise: with nothing moved when the job was not there, and with the job gone from every pool when
        it could not be stored again. */
    method GetJob(uid: Uid, start: JobState, next: Option<JobState>, time: Time, stored: bool,
                  ghost w: World, ghost p: Pid)
      returns (job: Option<Job>)
      requires w.pools == pools && Fine(w) && p !in w.flights
      modifies this
      ensures var moves := next.Some? && next != Some(start);
        job.Some? <==> Key(start, uid) in w.pools && (moves ==> stored)
      ensures job.Some? ==> job.value.uid == uid
      ensures job.Some? && next.Some? ==> Key(next.value, uid) in pools && pools[Key(next.value, uid)] == job.value
      ensures job.Some? ==>
        var times := w.pools[Key(start, uid)].times;
        job.value.times == if next.Some? && next != Some(start) then times[next.value := time] else times
      ensures next.None? || next == Some(start) || Key(start, uid) !in w.pools ==> pools == w.pools
      ensures next.Some? && next != Some(start) && Key(start, uid) in w.pools ==>
        var taken := Do(w, Take(p, uid, start, next.value));
        pools == if stored then Do(taken, Put(p, time)).pools else Do(taken, PutFails(p)).pools
      ensures next.Some? && next != Some(start) && !stored ==> Key(start, uid) in w.pools ==>
        forall k :: k in pools ==> k.uid != uid
    {
      var key := Key(start, uid);
      if key !in pools {
        return None;
      }
      var data := pools[key];
      if next.Some? && next.value != start {
        pools := pools - {key};
        OnlyPlace(w, key);
        if !stored {
          return None;
        }
        data := data.(times := data.times[next.value := time]);
        pools := pools[Key(next.value, uid) := data];
      }
      return Some(data);
    }
  }

  lemma OnlyPlace(w: World, key: Key)
    requires Fine(w) && key in w.pools
    ensures forall k :: k in w.pools && k.uid == key.uid ==> k == key
  {
    assert OnePlace(w, key.uid);
  }
}
