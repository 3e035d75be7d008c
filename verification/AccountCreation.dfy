/**
 How an account is created under a name, by any number of processes at once: check, lock, check again, write
 a marker, unlock, build, set the overdraft limit and bind the new account to the name. Every access to the
 store may fail, and a process may be held up between any two of them.
 */
module AccountCreation {
  import opened Balances
  import opened Calendar
  import opened Leases
  import opened Wrappers

  type Uid = nat

  // What is stored under the key of the name.
  datatype Binding = UnderConstruction | Account(uid: Uid)

  // A caller may ask for an overdraft limit.
  type Limit = Option<int>

  datatype Proc =
    | Out
    | Waiting(limit: Limit)                         // found nothing, now waits for the lock
    | Locked(limit: Limit, end: Time)
    | Found(limit: Limit, end: Time, b: Binding)    // found the name taken, under the lock
    | Vacant(limit: Limit, end: Time)               // found nothing again, under the lock
    | Unmarked(end: Time)                           // could not write the marker
    | Marked(limit: Limit, end: Time)               // wrote the marker
    | Building(limit: Limit)                        // let go of the lock
    | Built(limit: Limit, uid: Uid)
    | Limited(uid: Uid)                             // set the overdraft limit, if any was asked for
    | Failed                                        // the build failed, the marker is to be deleted
    | Joining(limit: Limit, b: Binding)             // loads what the name is bound to
    | Returned(uid: Uid)
    | Refused                                       // an error was raised

  // `given` are the accounts that callers have been given so far.
  datatype World = World(
    clock: Time, holder: Option<Holder>, binding: Option<Binding>, procs: map<Pid, Proc>,
    accounts: set<Uid>, given: set<Uid>)

  // The flags say whether the store did what it was asked to. An unlock may leave the key of the lock where it
  // is, and may raise what the store raises.
  datatype Step =
    | Tick(clock: Time)
    | Call(p: Pid, limit: Limit, read: bool)
    | Lock(p: Pid)
    | TimeOut(p: Pid)
    | CheckAgain(p: Pid, read: bool)
    | Mark(p: Pid, written: bool)
    | Unlock(p: Pid, freed: bool, raised: bool)
    | Build(p: Pid, uid: Uid, built: bool)
    | Delete(p: Pid, deleted: bool)
    | SetLimit(p: Pid, saved: bool)
    | Bind(p: Pid, written: bool)
    | Join(p: Pid, joined: bool)

  function ProcOf(w: World, p: Pid): Proc {
    if p in w.procs then w.procs[p] else Out
  }

  predicate Negative(limit: Limit) {
    limit.Some? && limit.value < 0
  }

  // Not under way with a call.
  predicate Idle(proc: Proc) {
    proc.Out? || proc.Returned? || proc.Refused?
  }

  predicate Enabled(w: World, s: Step) {
    match s
    case Tick(clock) => w.clock <= clock
    case Call(p, _, _) => Idle(ProcOf(w, p))
    case Lock(p) => ProcOf(w, p).Waiting? && Free(w.holder, w.clock)
    case TimeOut(p) => ProcOf(w, p).Waiting?
    case CheckAgain(p, _) => ProcOf(w, p).Locked?
    case Mark(p, _) => ProcOf(w, p).Vacant?
    case Unlock(p, _, raised) =>
      var proc := ProcOf(w, p);
      (proc.Found? || proc.Unmarked? || proc.Marked?) && (raised ==> w.holder == Some(Holder(p, proc.end)))
    case Build(p, uid, _) => ProcOf(w, p).Building? && uid !in w.accounts
    case Delete(p, _) => ProcOf(w, p).Failed?
    case SetLimit(p, _) => ProcOf(w, p).Built?
    case Bind(p, _) => ProcOf(w, p).Limited?
    case Join(p, joined) => ProcOf(w, p).Joining? && (joined ==> !Negative(ProcOf(w, p).limit))
  }

  function Put(w: World, p: Pid, proc: Proc): World {
    w.(procs := w.procs[p := proc])
  }

  // A caller is given an account.
  function Give(w: World, p: Pid, uid: Uid): World {
    Put(w, p, Returned(uid)).(given := w.given + {uid})
  }

  // A read that fails is taken for a name that is not there.
  function AfterCall(w: World, p: Pid, limit: Limit, read: bool): World {
    match w.binding
    case Some(b) => Put(w, p, if read then Joining(limit, b) else Waiting(limit))
    case None => Put(w, p, Waiting(limit))
  }

  function AfterCheckAgain(w: World, p: Pid, read: bool): World
    requires Enabled(w, CheckAgain(p, read))
  {
    var proc := ProcOf(w, p);
    match w.binding
    case Some(b) => Put(w, p, if read then Found(proc.limit, proc.end, b) else Vacant(proc.limit, proc.end))
    case None => Put(w, p, Vacant(proc.limit, proc.end))
  }

  function AfterMark(w: World, p: Pid, written: bool): World
    requires Enabled(w, Mark(p, written))
  {
    var proc := ProcOf(w, p);
    if written then Put(w, p, Marked(proc.limit, proc.end)).(binding := Some(UnderConstruction))
    else Put(w, p, Unmarked(proc.end))
  }

  // `unlock` raises an error when the store does, and when the lease has lapsed.
  predicate UnlockRaises(w: World, p: Pid, freed: bool, raised: bool)
    requires Enabled(w, Unlock(p, freed, raised))
  {
    raised || ProcOf(w, p).end < w.clock
  }

  function AfterUnlock(w: World, p: Pid, freed: bool, raised: bool): World
    requires Enabled(w, Unlock(p, freed, raised))
  {
    var proc := ProcOf(w, p);
    var next := match proc
      case Marked(limit, _) => Building(limit)
      case Found(limit, _, b) => Joining(limit, b)
      case _ => Refused;
    Put(if freed then w.(holder := LetGo(w.holder, p, proc.end)) else w, p,
        if UnlockRaises(w, p, freed, raised) then Refused else next)
  }

  function AfterBuild(w: World, p: Pid, uid: Uid, built: bool): World
    requires Enabled(w, Build(p, uid, built))
  {
    if built then Put(w, p, Built(ProcOf(w, p).limit, uid)).(accounts := w.accounts + {uid}) else Put(w, p, Failed)
  }

  // An error while deleting the marker is passed over.
  function AfterDelete(w: World, p: Pid, deleted: bool): World
    requires Enabled(w, Delete(p, deleted))
  {
    Put(w, p, Refused).(binding := if deleted then None else w.binding)
  }

  // `set_overdraft_limit` on an account without line items, whose limit is zero: a negative limit is refused,
  // and so is one the balance is beyond; a new limit has to be saved.
  predicate LimitRaises(limit: Limit, saved: bool) {
    limit.Some? && (limit.value < 0 || (limit.value != 0 && (ZERO.Available() < -limit.value || !saved)))
  }

  lemma LimitRaisesIff(limit: Limit, saved: bool)
    ensures LimitRaises(limit, saved) <==> limit.Some? && (limit.value < 0 || (0 < limit.value && !saved))
  {
  }

  function AfterSetLimit(w: World, p: Pid, saved: bool): World
    requires Enabled(w, SetLimit(p, saved))
  {
    var proc := ProcOf(w, p);
    Put(w, p, if LimitRaises(proc.limit, saved) then Refused else Limited(proc.uid))
  }

  function AfterBind(w: World, p: Pid, written: bool): World
    requires Enabled(w, Bind(p, written))
  {
    var uid := ProcOf(w, p).uid;
    if written then Give(w, p, uid).(binding := Some(Account(uid))) else Put(w, p, Refused)
  }

  // What a caller makes of a name that is taken: the account, once its group and limit are set, or an error.
  // There is always an error when there is only the marker, for no account is stored under the UID
  // "under_construction".
  function AfterJoin(w: World, p: Pid, joined: bool): World
    requires Enabled(w, Join(p, joined))
  {
    match ProcOf(w, p).b
    case UnderConstruction => Put(w, p, Refused)
    case Account(uid) => if joined then Give(w, p, uid) else Put(w, p, Refused)
  }

  function Do(w: World, s: Step): World
    requires Enabled(w, s)
  {
    match s
    case Tick(clock) => w.(clock := clock)
    case Call(p, limit, read) => AfterCall(w, p, limit, read)
    case Lock(p) =>
      Put(w, p, Locked(ProcOf(w, p).limit, w.clock + LEASE)).(holder := Some(Holder(p, w.clock + LEASE)))
    case TimeOut(p) => Put(w, p, Refused)
    case CheckAgain(p, read) => AfterCheckAgain(w, p, read)
    case Mark(p, written) => AfterMark(w, p, written)
    case Unlock(p, freed, raised) => AfterUnlock(w, p, freed, raised)
    case Build(p, uid, built) => AfterBuild(w, p, uid, built)
    case Delete(p, deleted) => AfterDelete(w, p, deleted)
    case SetLimit(p, saved) => AfterSetLimit(w, p, saved)
    case Bind(p, written) => AfterBind(w, p, written)
    case Join(p, joined) => AfterJoin(w, p, joined)
  }

  predicate Possible(w: World, steps: seq<Step>)
    decreases |steps|, 0
  {
    |steps| == 0 ||
    var rest := steps[..|steps| - 1];
    Possible(w, rest) && Enabled(Run(w, rest), steps[|steps| - 1])
  }

  function Run(w: World, steps: seq<Step>): World
    requires Possible(w, steps)
    decreases |steps|, 1
  {
    if |steps| == 0 then w else Do(Run(w, steps[..|steps| - 1]), steps[|steps| - 1])
  }

  predicate Start(w: World) {
    w.holder.None? && w.binding.None? && w.procs == map[] && w.given == {}
  }

  // ------------------------------------------------------------ who builds

  // A caller past the unlock that has not yet given up or finished.
  predicate IsBuilder(proc: Proc) {
    proc.Building? || proc.Built? || proc.Limited? || proc.Failed?
  }

  predicate HasLock(proc: Proc) {
    proc.Locked? || proc.Found? || proc.Vacant? || proc.Unmarked? || proc.Marked?
  }

  // A caller that found nothing under the lock and can still let go of it in time.
  predicate Ready(w: World, p: Pid) {
    (ProcOf(w, p).Vacant? || ProcOf(w, p).Marked?) && w.clock <= ProcOf(w, p).end
  }

  ghost predicate NoBuilder(w: World) {
    forall p :: !IsBuilder(ProcOf(w, p))
  }

  ghost predicate NoneReady(w: World) {
    forall p :: !Ready(w, p)
  }

  // Somebody is building, or somebody has been given an account.
  ghost predicate Claimed(w: World) {
    !NoBuilder(w) || w.given != {}
  }

  // One caller builds at a time, all callers are given one account, and none is built once there is one.
  ghost predicate OneAccount(w: World) {
    && (forall p, q :: IsBuilder(ProcOf(w, p)) && IsBuilder(ProcOf(w, q)) ==> p == q)
    && (forall a, b :: a in w.given && b in w.given ==> a == b)
    && (forall p :: IsBuilder(ProcOf(w, p)) ==> w.given == {})
  }

  // The second look at the name fails, although there is something and the lease has not lapsed.
  predicate Missed(w: World, s: Step)
    requires Enabled(w, s)
  {
    s.CheckAgain? && !s.read && w.binding.Some? && w.clock <= ProcOf(w, s.p).end
  }

  // It fails although somebody is building or has been given an account.
  ghost predicate Risky(w: World, s: Step)
    requires Enabled(w, s)
  {
    Missed(w, s) && Claimed(w)
  }

  ghost predicate NoneRisky(w: World, steps: seq<Step>)
    requires Possible(w, steps)
  {
    |steps| == 0 ||
    var rest := steps[..|steps| - 1];
    NoneRisky(w, rest) && !Risky(Run(w, rest), steps[|steps| - 1])
  }

  // ------------------------------------------------------------ the invariant

  predicate BindingGiven(w: World, b: Binding) {
    b.Account? ==> b.uid in w.given
  }

  ghost predicate ProcFine(w: World, p: Pid) {
    var proc := ProcOf(w, p);
    && (HasLock(proc) ==> Holds(w.holder, w.clock, p, proc.end))
    && (Ready(w, p) ==> !Claimed(w) && (proc.Marked? ==> w.binding == Some(UnderConstruction)))
    && (IsBuilder(proc) ==> w.binding == Some(UnderConstruction))
    && (proc.Found? || proc.Joining? ==> BindingGiven(w, proc.b))
  }

  ghost predicate Fine(w: World) {
    && OneAccount(w)
    && (forall p :: ProcFine(w, p))
    && (w.given != {} ==> w.binding.Some?)
    && (w.binding.Some? ==> BindingGiven(w, w.binding.value))
  }

  lemma OthersUnmoved(w: World, s: Step, q: Pid)
    requires Enabled(w, s) && (s.Tick? || s.p != q)
    ensures ProcOf(Do(w, s), q) == ProcOf(w, q)
  {
  }

  // Builders come from unlocks in time, and go by themselves.
  lemma NewBuilder(w: World, s: Step, q: Pid)
    requires Enabled(w, s) && IsBuilder(ProcOf(Do(w, s), q)) && !IsBuilder(ProcOf(w, q))
    ensures s.Unlock? && s.p == q && ProcOf(w, q).Marked? && Ready(w, q)
  {
    if s.Tick? || s.p != q {
      OthersUnmoved(w, s, q);
    }
  }

  lemma NewlyReady(w: World, s: Step, q: Pid)
    requires Enabled(w, s) && Ready(Do(w, s), q) && !Ready(w, q)
    ensures s.CheckAgain? && s.p == q && (w.binding.None? || Missed(w, s))
  {
    if s.Tick? || s.p != q {
      OthersUnmoved(w, s, q);
    }
  }

  // Only one caller is within its lease.
  lemma OneLease(w: World, p: Pid, q: Pid)
    requires Fine(w) && HasLock(ProcOf(w, p)) && HasLock(ProcOf(w, q))
    requires w.clock <= ProcOf(w, p).end && w.clock <= ProcOf(w, q).end
    ensures p == q
  {
    assert ProcFine(w, p) && ProcFine(w, q);
  }

  lemma ReadyExcludes(w: World, p: Pid)
    requires Fine(w) && Ready(w, p)
    ensures NoBuilder(w) && w.given == {} && forall q :: Ready(w, q) ==> q == p
  {
    assert ProcFine(w, p);
    forall q | Ready(w, q) ensures q == p {
      OneLease(w, p, q);
    }
  }

  lemma GivenGrows(w: World, s: Step)
    requires Fine(w) && Enabled(w, s)
    ensures w.given <= Do(w, s).given
    ensures Do(w, s).given != w.given ==>
      s.Bind? && s.written && w.given == {} && IsBuilder(ProcOf(w, s.p)) && Do(w, s).given == {ProcOf(w, s.p).uid}
  {
    if !s.Tick? {
      assert ProcFine(w, s.p);
    }
  }

  lemma StepKeepsOneAccount(w: World, s: Step)
    requires Fine(w) && Enabled(w, s)
    ensures OneAccount(Do(w, s))
  {
    var w' := Do(w, s);
    GivenGrows(w, s);
    if s.Unlock? && Ready(w, s.p) {
      ReadyExcludes(w, s.p);
    }
    forall p, q | IsBuilder(ProcOf(w', p)) && IsBuilder(ProcOf(w', q)) ensures p == q {
      if !IsBuilder(ProcOf(w, p)) { NewBuilder(w, s, p); }
      if !IsBuilder(ProcOf(w, q)) { NewBuilder(w, s, q); }
    }
    forall p | IsBuilder(ProcOf(w', p)) ensures w'.given == {} {
      if !IsBuilder(ProcOf(w, p)) { NewBuilder(w, s, p); }
    }
  }

  // Whoever is ready after a step was ready before it or found nothing in it.
  lemma StepKeepsReady(w: World, s: Step, q: Pid)
    requires Fine(w) && Enabled(w, s) && !Risky(w, s) && Ready(Do(w, s), q)
    ensures !Claimed(Do(w, s))
  {
    var w' := Do(w, s);
    if Ready(w, q) {
      ReadyExcludes(w, q);
    } else {
      NewlyReady(w, s, q);
      NothingThere(w, s);
    }
    GivenGrows(w, s);
    forall p ensures !IsBuilder(ProcOf(w', p)) {
      if IsBuilder(ProcOf(w', p)) {
        NewBuilder(w, s, p);
      }
    }
  }

  lemma NothingThere(w: World, s: Step)
    requires Fine(w) && Enabled(w, s) && s.CheckAgain? && (w.binding.None? || (Missed(w, s) && !Risky(w, s)))
    ensures !Claimed(w)
  {
    if w.binding.None? {
      forall p ensures !IsBuilder(ProcOf(w, p)) {
        assert ProcFine(w, p);
      }
    }
  }

  // What a step does to the name.
  lemma BindingChanges(w: World, s: Step)
    requires Fine(w) && Enabled(w, s) && Do(w, s).binding != w.binding
    ensures (s.Mark? && s.written && Do(w, s).binding == Some(UnderConstruction)) || IsBuilder(ProcOf(w, s.p))
    ensures IsBuilder(ProcOf(w, s.p)) ==> !IsBuilder(ProcOf(Do(w, s), s.p)) && w.given == {}
  {
  }

  lemma StepKeepsLease(w: World, s: Step, q: Pid)
    requires Fine(w) && Enabled(w, s) && HasLock(ProcOf(Do(w, s), q))
    ensures Holds(Do(w, s).holder, Do(w, s).clock, q, ProcOf(Do(w, s), q).end)
  {
    assert ProcFine(w, q);
    if s.Tick? || s.p != q {
      OthersUnmoved(w, s, q);
    }
  }

  lemma StepKeepsProc(w: World, s: Step, q: Pid)
    requires Fine(w) && Enabled(w, s) && !Risky(w, s)
    ensures ProcFine(Do(w, s), q)
  {
    var w' := Do(w, s);
    assert ProcFine(w, q);
    GivenGrows(w, s);
    if HasLock(ProcOf(w', q)) {
      StepKeepsLease(w, s, q);
    }
    if Ready(w', q) {
      StepKeepsReady(w, s, q);
    }
    if IsBuilder(ProcOf(w', q)) || (Ready(w', q) && ProcOf(w', q).Marked?) {
      StepKeepsMarker(w, s, q);
    }
    if s.Tick? || s.p != q {
      OthersUnmoved(w, s, q);
    }
  }

  lemma StepKeepsMarker(w: World, s: Step, q: Pid)
    requires Fine(w) && Enabled(w, s)
    requires IsBuilder(ProcOf(Do(w, s), q)) || (Ready(Do(w, s), q) && ProcOf(Do(w, s), q).Marked?)
    ensures Do(w, s).binding == Some(UnderConstruction)
  {
    assert ProcFine(w, q);
    if s.Tick? || s.p != q {
      OthersUnmoved(w, s, q);
    }
    if Ready(w, q) {
      ReadyExcludes(w, q);
    }
    if Do(w, s).binding != w.binding {
      BindingChanges(w, s);
    }
  }

  lemma StepKeeps(w: World, s: Step)
    requires Fine(w) && Enabled(w, s) && !Risky(w, s)
    ensures Fine(Do(w, s))
  {
    StepKeepsOneAccount(w, s);
    GivenGrows(w, s);
    forall q ensures ProcFine(Do(w, s), q) {
      StepKeepsProc(w, s, q);
    }
  }

  lemma {:induction false} RunKeeps(w: World, steps: seq<Step>)
    requires Fine(w) && Possible(w, steps) && NoneRisky(w, steps)
    ensures Fine(Run(w, steps))
    decreases |steps|
  {
    if |steps| > 0 {
      RunKeeps(w, steps[..|steps| - 1]);
      StepKeeps(Run(w, steps[..|steps| - 1]), steps[|steps| - 1]);
    }
  }

  lemma StartIsFine(w: World)
    requires Start(w)
    ensures Fine(w)
  {
    forall p ensures ProcFine(w, p) {
    }
  }

  // ------------------------------------------------------------ one account for each name

  /** In every interleaving, however long callers are held up and whatever else fails, as long as nobody who
      looks again while somebody builds or has been given an account fails to read the name: at most one
      caller at a time builds, all callers that are ever given an account are given the same one, and nobody
      builds once somebody has been given one. */
  lemma OneAccountPerName(w: World, steps: seq<Step>)
    requires Start(w) && Possible(w, steps) && NoneRisky(w, steps)
    ensures var w' := Run(w, steps);
      && (forall p, q :: IsBuilder(ProcOf(w', p)) && IsBuilder(ProcOf(w', q)) ==> p == q)
      && (forall a, b :: a in w'.given && b in w'.given ==> a == b)
      && (forall p :: IsBuilder(ProcOf(w', p)) ==> w'.given == {})
  {
    StartIsFine(w);
    RunKeeps(w, steps);
  }

  lemma Extend(w: World, steps: seq<Step>, s: Step)
    requires Possible(w, steps) && Enabled(Run(w, steps), s)
    ensures Possible(w, steps + [s]) && Run(w, steps + [s]) == Do(Run(w, steps), s)
    ensures NoneRisky(w, steps) && !Risky(Run(w, steps), s) ==> NoneRisky(w, steps + [s])
  {
    assert (steps + [s])[..|steps|] == steps;
  }

  // Whatever comes after the step, with no second look failing like that again.
  ghost predicate SafeFrom(w: World) {
    forall more :: Possible(w, more) && NoneRisky(w, more) ==> OneAccount(Run(w, more))
  }

  // A caller that has overlooked the name goes on to build.
  lemma OverlookedIsBuiltOver(w: World, p: Pid)
    requires ProcOf(w, p).Vacant? && Ready(w, p) && Claimed(w)
    ensures !SafeFrom(w)
  {
    Extend(w, [], Mark(p, true));
    var w1 := Run(w, [Mark(p, true)]);
    assert [] + [Mark(p, true)] == [Mark(p, true)];
    Extend(w, [Mark(p, true)], Unlock(p, true, false));
    var more := [Mark(p, true)] + [Unlock(p, true, false)];
    var w2 := Run(w, more);
    assert w2 == AfterUnlock(AfterMark(w, p, true), p, true, false);
    assert ProcOf(w2, p).Building?;
    if w.given == {} {
      var q :| IsBuilder(ProcOf(w, q));
      assert ProcOf(w2, q) == ProcOf(w, q);
    }
    assert !OneAccount(w2);
  }

  /** That is exactly what it takes: a step leaves open that two callers build, or that two accounts are given,
      when it is a second look that fails, within the lease, while somebody builds or has been given an
      account, and only then. */
  lemma OneAccountIsSafeIff(w: World, s: Step)
    requires Fine(w) && Enabled(w, s)
    ensures SafeFrom(Do(w, s)) <==> !Risky(w, s)
  {
    if Risky(w, s) {
      var w' := Do(w, s);
      if !NoBuilder(w) {
        var q :| IsBuilder(ProcOf(w, q));
        OthersUnmoved(w, s, q);
      }
      OverlookedIsBuiltOver(w', s.p);
    } else {
      StepKeeps(w, s);
      forall more | Possible(Do(w, s), more) && NoneRisky(Do(w, s), more) ensures OneAccount(Run(Do(w, s), more)) {
        RunKeeps(Do(w, s), more);
      }
    }
  }

  /** A caller whose build fails deletes a marker that nobody else builds under or is about to. */
  lemma OnlyOwnMarkerIsDeleted(w: World, steps: seq<Step>, p: Pid, deleted: bool)
    requires Start(w) && Possible(w, steps) && NoneRisky(w, steps) && Enabled(Run(w, steps), Delete(p, deleted))
    ensures var w' := Run(w, steps);
      w'.binding == Some(UnderConstruction) && w'.given == {} && NoneReady(w') &&
      forall q :: IsBuilder(ProcOf(w', q)) ==> q == p
  {
    StartIsFine(w);
    RunKeeps(w, steps);
    var w' := Run(w, steps);
    assert ProcFine(w', p);
    forall q ensures !Ready(w', q) {
      if Ready(w', q) { ReadyExcludes(w', q); }
    }
  }

  // ------------------------------------------------------------ names that stay bound

  // A marker is written by a caller whose lease has lapsed.
  predicate LateMark(w: World, s: Step)
    requires Enabled(w, s)
  {
    s.Mark? && s.written && ProcOf(w, s.p).end < w.clock
  }

  predicate SomeLateMark(w: World, steps: seq<Step>)
    requires Possible(w, steps)
  {
    |steps| > 0 &&
    var rest := steps[..|steps| - 1];
    SomeLateMark(w, rest) || LateMark(Run(w, rest), steps[|steps| - 1])
  }

  // Once an account has been given, nobody builds and nobody writes a marker in time.
  lemma GivenExcludes(w: World, s: Step)
    requires Fine(w) && Enabled(w, s) && w.given != {}
    ensures Do(w, s).binding == if s.Mark? && s.written then Some(UnderConstruction) else w.binding
    ensures s.Mark? ==> ProcOf(w, s.p).end < w.clock
  {
    if !s.Tick? {
      assert ProcFine(w, s.p);
    }
  }

  /** In every run: a name that is bound to an account loses it in a step exactly when that step writes a
      marker, and then the lease of the writer has lapsed. */
  lemma BoundNameChangesIff(w: World, steps: seq<Step>, s: Step)
    requires Start(w) && Possible(w, steps) && NoneRisky(w, steps) && Enabled(Run(w, steps), s)
    requires Run(w, steps).binding.Some? && Run(w, steps).binding.value.Account?
    ensures Do(Run(w, steps), s).binding != Run(w, steps).binding <==> s.Mark? && s.written
    ensures s.Mark? ==> ProcOf(Run(w, steps), s.p).end < Run(w, steps).clock
  {
    StartIsFine(w);
    RunKeeps(w, steps);
    GivenExcludes(Run(w, steps), s);
  }

  /** A name once bound to an account is bound to it as long as nobody writes a marker after its lease, and
      never again afterwards. */
  lemma {:induction false} AccountsStayBoundIff(w: World, steps: seq<Step>)
    requires Fine(w) && Possible(w, steps) && NoneRisky(w, steps) && w.binding.Some? && w.binding.value.Account?
    ensures Run(w, steps).given == w.given
    ensures Run(w, steps).binding == if SomeLateMark(w, steps) then Some(UnderConstruction) else w.binding
    decreases |steps|
  {
    if |steps| > 0 {
      var rest, s := steps[..|steps| - 1], steps[|steps| - 1];
      AccountsStayBoundIff(w, rest);
      RunKeeps(w, rest);
      GivenExcludes(Run(w, rest), s);
      GivenGrows(Run(w, rest), s);
    }
  }

  // ------------------------------------------------------------ names that are lost

  // The marker is there, nobody is building and nobody is about to.
  ghost predicate Orphaned(w: World) {
    w.binding == Some(UnderConstruction) && NoBuilder(w) && NoneReady(w)
  }

  /** What makes the last caller that could still use the marker give up without taking it away, or puts a
      marker where nobody can use it: a lease lapses before the lock is let go; the lock cannot be let go;
      the marker is written after the lease; after a failed build it cannot be deleted; the overdraft limit
      asked for is refused or cannot be saved; the account cannot be bound to the name. */
  ghost predicate Leaves(w: World, s: Step)
    requires Enabled(w, s)
  {
    match s
    case Tick(clock) => w.binding == Some(UnderConstruction) && exists p :: Ready(w, p) && ProcOf(w, p).end < clock
    case Mark(p, written) =>
      if written then LateMark(w, s) && w.binding != Some(UnderConstruction) && NoneReady(w)
      else Ready(w, p) && w.binding == Some(UnderConstruction)
    case Unlock(p, _, raised) => raised && ProcOf(w, p).Marked? && Ready(w, p)
    case Delete(_, deleted) => !deleted
    case SetLimit(p, saved) => LimitRaises(ProcOf(w, p).limit, saved)
    case Bind(_, written) => !written
    case _ => false
  }

  lemma BuilderExcludes(w: World, p: Pid)
    requires Fine(w) && IsBuilder(ProcOf(w, p))
    ensures w.binding == Some(UnderConstruction) && NoneReady(w) && forall q :: IsBuilder(ProcOf(w, q)) ==> q == p
  {
    assert ProcFine(w, p);
    forall q ensures !Ready(w, q) {
      if Ready(w, q) { ReadyExcludes(w, q); }
    }
  }

  // A caller on whom the name depends, and nobody else.
  ghost predicate DependsOn(w: World, p: Pid) {
    && w.binding == Some(UnderConstruction) && (IsBuilder(ProcOf(w, p)) || Ready(w, p))
    && forall q :: q != p ==> !IsBuilder(ProcOf(w, q)) && !Ready(w, q)
  }

  lemma SomeoneItDependsOn(w: World) returns (p: Pid)
    requires Fine(w) && !Orphaned(w) && w.binding == Some(UnderConstruction)
    ensures DependsOn(w, p)
  {
    if !NoBuilder(w) {
      p :| IsBuilder(ProcOf(w, p));
      BuilderExcludes(w, p);
    } else {
      p :| Ready(w, p);
      ReadyExcludes(w, p);
    }
  }

  // Nobody gets ready or starts to build but a caller that was ready or looks again.
  lemma OthersStayOut(w: World, s: Step)
    requires Enabled(w, s) && w.binding.Some? && !Missed(w, s)
    ensures forall q :: Ready(Do(w, s), q) ==> Ready(w, q)
    ensures forall q :: IsBuilder(ProcOf(Do(w, s), q)) ==> IsBuilder(ProcOf(w, q)) || Ready(w, q)
  {
    forall q | Ready(Do(w, s), q) ensures Ready(w, q) {
      if !Ready(w, q) { NewlyReady(w, s, q); }
    }
    forall q | IsBuilder(ProcOf(Do(w, s), q)) ensures IsBuilder(ProcOf(w, q)) || Ready(w, q) {
      if !IsBuilder(ProcOf(w, q)) { NewBuilder(w, s, q); }
    }
  }

  lemma DependedIsLostIff(w: World, s: Step, p: Pid)
    requires Fine(w) && Enabled(w, s) && !Missed(w, s) && DependsOn(w, p)
    ensures Orphaned(Do(w, s)) <==> Leaves(w, s)
  {
    var w' := Do(w, s);
    assert ProcFine(w, p);
    OthersStayOut(w, s);
    if s.Tick? || s.p != p {
      OthersUnmoved(w, s, p);
    }
    if Orphaned(w') {
      assert !IsBuilder(ProcOf(w', p)) && !Ready(w', p);
    } else if w'.binding == Some(UnderConstruction) {
      assert IsBuilder(ProcOf(w', p)) || Ready(w', p);
    }
  }

  // Where there is no marker, one has to be written.
  lemma UnmarkedIsLostIff(w: World, s: Step)
    requires Fine(w) && Enabled(w, s) && w.binding != Some(UnderConstruction)
    ensures Orphaned(Do(w, s)) <==> Leaves(w, s)
  {
    var w' := Do(w, s);
    forall p ensures !IsBuilder(ProcOf(w, p)) {
      assert ProcFine(w, p);
    }
    if s.Unlock? {
      assert ProcFine(w, s.p);
    }
    if s.Mark? && s.written {
      MarkerIsLostIff(w, s);
    }
  }

  lemma MarkerIsLostIff(w: World, s: Step)
    requires Fine(w) && Enabled(w, s) && s.Mark? && s.written && NoBuilder(w)
    ensures Orphaned(Do(w, s)) <==> LateMark(w, s) && NoneReady(w)
  {
    var w' := Do(w, s);
    forall q ensures Ready(w', q) <==> Ready(w, q) {
      if q != s.p { OthersUnmoved(w, s, q); }
    }
    forall q ensures !IsBuilder(ProcOf(w', q)) {
      if q != s.p { OthersUnmoved(w, s, q); }
    }
    assert Ready(w, s.p) <==> !LateMark(w, s);
  }

  /** A lost name comes back exactly when a second look fails within the lease. */
  lemma LostNameComesBackIff(w: World, s: Step)
    requires Fine(w) && Enabled(w, s) && Orphaned(w)
    ensures Orphaned(Do(w, s)) <==> !Missed(w, s)
  {
    var w' := Do(w, s);
    if Missed(w, s) {
      assert Ready(w', s.p);
    } else {
      OthersStayOut(w, s);
      if w'.binding != w.binding {
        BindingChanges(w, s);
      }
    }
  }

  ghost predicate NoneMissed(w: World, steps: seq<Step>)
    requires Possible(w, steps)
  {
    |steps| == 0 ||
    var rest := steps[..|steps| - 1];
    NoneMissed(w, rest) && !Missed(Run(w, rest), steps[|steps| - 1])
  }

  lemma {:induction false} NoneMissedIsNotRisky(w: World, steps: seq<Step>)
    requires Possible(w, steps) && NoneMissed(w, steps)
    ensures NoneRisky(w, steps)
    decreases |steps|
  {
    if |steps| > 0 {
      NoneMissedIsNotRisky(w, steps[..|steps| - 1]);
    }
  }

  ghost predicate SomeLeaves(w: World, steps: seq<Step>)
    requires Possible(w, steps)
  {
    |steps| > 0 &&
    var rest := steps[..|steps| - 1];
    SomeLeaves(w, rest) || Leaves(Run(w, rest), steps[|steps| - 1])
  }

  lemma LostInStepIff(w: World, s: Step)
    requires Fine(w) && Enabled(w, s) && !Missed(w, s) && !Orphaned(w)
    ensures Orphaned(Do(w, s)) <==> Leaves(w, s)
  {
    if w.binding == Some(UnderConstruction) {
      var p := SomeoneItDependsOn(w);
      DependedIsLostIff(w, s, p);
    } else {
      UnmarkedIsLostIff(w, s);
    }
  }

  /** In every run in which second looks are answered, from a new name or from any name that is not lost: the
      name is lost exactly when one of these things has happened. */
  lemma {:induction false} OrphanedIff(w: World, steps: seq<Step>)
    requires Fine(w) && !Orphaned(w) && Possible(w, steps) && NoneMissed(w, steps)
    ensures Orphaned(Run(w, steps)) <==> SomeLeaves(w, steps)
    decreases |steps|
  {
    if |steps| > 0 {
      var rest, s := steps[..|steps| - 1], steps[|steps| - 1];
      OrphanedIff(w, rest);
      NoneMissedIsNotRisky(w, rest);
      RunKeeps(w, rest);
      if Orphaned(Run(w, rest)) {
        LostNameComesBackIff(Run(w, rest), s);
      } else {
        LostInStepIff(Run(w, rest), s);
      }
    }
  }

  /** Then it is lost for ever, and nobody is given an account that was not given before. */
  lemma {:induction false} OrphanedForEver(w: World, steps: seq<Step>)
    requires Fine(w) && Orphaned(w) && Possible(w, steps) && NoneMissed(w, steps)
    ensures Orphaned(Run(w, steps)) && Run(w, steps).given == w.given
    decreases |steps|
  {
    if |steps| > 0 {
      var rest, s := steps[..|steps| - 1], steps[|steps| - 1];
      OrphanedForEver(w, rest);
      NoneMissedIsNotRisky(w, rest);
      RunKeeps(w, rest);
      LostNameComesBackIff(Run(w, rest), s);
      GivenGrows(Run(w, rest), s);
    }
  }

  // ------------------------------------------------------------ negative overdraft limits

  // The store does what it is asked to, and nobody is held up beyond its lease with the lock in its hands.
  ghost predicate Smooth(w: World, s: Step)
    requires Enabled(w, s)
  {
    match s
    case Tick(clock) => forall p :: Ready(w, p) ==> clock <= ProcOf(w, p).end
    case CheckAgain(p, read) => read && w.clock <= ProcOf(w, p).end
    case Mark(p, written) => written && Ready(w, p)
    case Unlock(_, freed, raised) => freed && !raised
    case Delete(_, deleted) => deleted
    case SetLimit(_, saved) => saved
    case Bind(_, written) => written
    case _ => true
  }

  ghost predicate AllSmooth(w: World, steps: seq<Step>)
    requires Possible(w, steps)
  {
    |steps| == 0 ||
    var rest := steps[..|steps| - 1];
    AllSmooth(w, rest) && Smooth(Run(w, rest), steps[|steps| - 1])
  }

  // A builder of an account was asked to give it a negative limit.
  predicate SetsNegative(w: World, s: Step)
    requires Enabled(w, s)
  {
    s.SetLimit? && Negative(ProcOf(w, s.p).limit)
  }

  predicate SomeSetsNegative(w: World, steps: seq<Step>)
    requires Possible(w, steps)
  {
    |steps| > 0 &&
    var rest := steps[..|steps| - 1];
    SomeSetsNegative(w, rest) || SetsNegative(Run(w, rest), steps[|steps| - 1])
  }

  lemma SmoothLeavesIff(w: World, s: Step)
    requires Enabled(w, s) && Smooth(w, s)
    ensures !Missed(w, s) && (Leaves(w, s) <==> SetsNegative(w, s))
  {
  }

  lemma {:induction false} SmoothIsNotMissed(w: World, steps: seq<Step>)
    requires Possible(w, steps) && AllSmooth(w, steps)
    ensures NoneMissed(w, steps) && (SomeLeaves(w, steps) <==> SomeSetsNegative(w, steps))
    decreases |steps|
  {
    if |steps| > 0 {
      SmoothIsNotMissed(w, steps[..|steps| - 1]);
      SmoothLeavesIff(Run(w, steps[..|steps| - 1]), steps[|steps| - 1]);
    }
  }

  /** When the store never fails and nobody is held up: a name is lost exactly when an account that has just
      been built is to be given a negative overdraft limit. */
  lemma LostToNegativeLimitIff(w: World, steps: seq<Step>)
    requires Start(w) && Possible(w, steps) && AllSmooth(w, steps)
    ensures Orphaned(Run(w, steps)) <==> SomeSetsNegative(w, steps)
  {
    SmoothIsNotMissed(w, steps);
    StartIsFine(w);
    OrphanedIff(w, steps);
  }

  // ------------------------------------------------------------ runs that go wrong

  datatype Mode = Smoothly | Seeing | Anyhow

  ghost predicate Permits(mode: Mode, w: World, s: Step)
    requires Enabled(w, s)
  {
    match mode
    case Smoothly => Smooth(w, s)
    case Seeing => !Missed(w, s)
    case Anyhow => true
  }

  ghost predicate AllPermitted(mode: Mode, w: World, steps: seq<Step>)
    requires Possible(w, steps)
  {
    |steps| == 0 ||
    var rest := steps[..|steps| - 1];
    AllPermitted(mode, w, rest) && Permits(mode, Run(w, rest), steps[|steps| - 1])
  }

  ghost predicate Reachable(mode: Mode, w: World, w': World) {
    exists steps :: Possible(w, steps) && AllPermitted(mode, w, steps) && Run(w, steps) == w'
  }

  lemma ReachableAtOnce(mode: Mode, w: World)
    ensures Reachable(mode, w, w)
  {
    assert Possible(w, []) && AllPermitted(mode, w, []) && Run(w, []) == w;
  }

  lemma ReachableNext(mode: Mode, w: World, w': World, s: Step)
    requires Reachable(mode, w, w') && Enabled(w', s) && Permits(mode, w', s)
    ensures Reachable(mode, w, Do(w', s))
  {
    var steps :| Possible(w, steps) && AllPermitted(mode, w, steps) && Run(w, steps) == w';
    assert (steps + [s])[..|steps|] == steps;
    assert Possible(w, steps + [s]) && AllPermitted(mode, w, steps + [s]) && Run(w, steps + [s]) == Do(w', s);
  }

  lemma {:induction false} PermittedIsNotMissed(mode: Mode, w: World, steps: seq<Step>)
    requires !mode.Anyhow? && Possible(w, steps) && AllPermitted(mode, w, steps)
    ensures NoneMissed(w, steps)
    decreases |steps|
  {
    if |steps| > 0 {
      PermittedIsNotMissed(mode, w, steps[..|steps| - 1]);
    }
  }

  lemma ReachableIsFine(mode: Mode, w: World, w': World)
    requires Start(w) && !mode.Anyhow? && Reachable(mode, w, w')
    ensures Fine(w')
  {
    var steps :| Possible(w, steps) && AllPermitted(mode, w, steps) && Run(w, steps) == w';
    PermittedIsNotMissed(mode, w, steps);
    NoneMissedIsNotRisky(w, steps);
    StartIsFine(w);
    RunKeeps(w, steps);
  }

  // A caller finds nothing, there being nothing or its read failing.
  lemma Calls(mode: Mode, w: World, w0: World, p: Pid, limit: Limit, read: bool) returns (w': World)
    requires Reachable(mode, w, w0) && Idle(ProcOf(w0, p)) && (read ==> w0.binding.None?)
    ensures Reachable(mode, w, w') && w' == Put(w0, p, Waiting(limit))
  {
    ReachableNext(mode, w, w0, Call(p, limit, read));
    w' := AfterCall(w0, p, limit, read);
  }

  // It takes the lock.
  lemma TakesLock(mode: Mode, w: World, w0: World, p: Pid, end: Time) returns (w': World)
    requires Reachable(mode, w, w0) && ProcOf(w0, p).Waiting? && Free(w0.holder, w0.clock) && end == w0.clock + LEASE
    ensures Reachable(mode, w, w')
    ensures w' == Put(w0, p, Locked(ProcOf(w0, p).limit, end)).(holder := Some(Holder(p, end)))
  {
    ReachableNext(mode, w, w0, Lock(p));
    w' := Do(w0, Lock(p));
  }

  // It looks again and finds nothing again.
  lemma LooksAgain(mode: Mode, w: World, w0: World, p: Pid, read: bool) returns (w': World)
    requires Reachable(mode, w, w0) && ProcOf(w0, p).Locked? && w0.clock <= ProcOf(w0, p).end
    requires if read then w0.binding.None? else mode.Anyhow?
    ensures Reachable(mode, w, w') && w' == Put(w0, p, Vacant(ProcOf(w0, p).limit, ProcOf(w0, p).end))
  {
    ReachableNext(mode, w, w0, CheckAgain(p, read));
    w' := AfterCheckAgain(w0, p, read);
  }

  lemma PutTwice(w: World, p: Pid, one: Proc, two: Proc)
    ensures Put(Put(w, p, one), p, two) == Put(w, p, two)
  {
    assert w.procs[p := one][p := two] == w.procs[p := two];
  }

  lemma Looks(mode: Mode, w: World, w0: World, p: Pid, limit: Limit, read: bool) returns (w': World)
    requires Reachable(mode, w, w0) && Idle(ProcOf(w0, p)) && Free(w0.holder, w0.clock)
    requires if read then w0.binding.None? else mode.Anyhow?
    ensures Reachable(mode, w, w')
    ensures var end := w0.clock + LEASE;
      w' == w0.(holder := Some(Holder(p, end)), procs := w0.procs[p := Vacant(limit, end)])
  {
    var end := w0.clock + LEASE;
    var w1 := Calls(mode, w, w0, p, limit, read);
    var w2 := TakesLock(mode, w, w1, p, end);
    w' := LooksAgain(mode, w, w2, p, read);
    PutTwice(w0, p, Waiting(limit), Locked(limit, end));
    PutTwice(w0, p, Locked(limit, end), Vacant(limit, end));
  }

  // Within its lease it writes the marker and lets go of the lock.
  lemma Marks(mode: Mode, w: World, w0: World, p: Pid) returns (w': World)
    requires Reachable(mode, w, w0) && ProcOf(w0, p).Vacant? && Ready(w0, p)
    requires w0.holder == Some(Holder(p, ProcOf(w0, p).end))
    ensures Reachable(mode, w, w')
    ensures w' == w0.(holder := None, binding := Some(UnderConstruction),
                      procs := w0.procs[p := Building(ProcOf(w0, p).limit)])
  {
    ReachableNext(mode, w, w0, Mark(p, true));
    var w1 := AfterMark(w0, p, true);
    ReachableNext(mode, w, w1, Unlock(p, true, false));
    w' := AfterUnlock(w1, p, true, false);
    PutTwice(w0, p, ProcOf(w1, p), ProcOf(w', p));
  }

  // Then it builds the account.
  lemma Builds(mode: Mode, w: World, w0: World, p: Pid, uid: Uid) returns (w': World)
    requires Reachable(mode, w, w0) && ProcOf(w0, p).Vacant? && Ready(w0, p) && uid !in w0.accounts
    requires w0.holder == Some(Holder(p, ProcOf(w0, p).end))
    ensures Reachable(mode, w, w')
    ensures w' == w0.(holder := None, binding := Some(UnderConstruction),
                      procs := w0.procs[p := Built(ProcOf(w0, p).limit, uid)], accounts := w0.accounts + {uid})
  {
    var w1 := Marks(mode, w, w0, p);
    ReachableNext(mode, w, w1, Build(p, uid, true));
    w' := AfterBuild(w1, p, uid, true);
    assert w'.procs == w0.procs[p := ProcOf(w', p)];
  }

  lemma Binds(mode: Mode, w: World, w0: World, p: Pid) returns (w': World)
    requires Reachable(mode, w, w0) && ProcOf(w0, p).Built? && !Negative(ProcOf(w0, p).limit)
    ensures Reachable(mode, w, w')
    ensures var uid := ProcOf(w0, p).uid;
      w' == w0.(binding := Some(Account(uid)), procs := w0.procs[p := Returned(uid)], given := w0.given + {uid})
  {
    ReachableNext(mode, w, w0, SetLimit(p, true));
    var w1 := AfterSetLimit(w0, p, true);
    ReachableNext(mode, w, w1, Bind(p, true));
    w' := AfterBind(w1, p, true);
    assert w'.procs == w0.procs[p := ProcOf(w', p)];
  }

  /** `create_account` with a negative overdraft limit, called by a single process with nothing failing, loses
      the name for ever. */
  lemma NegativeLimitLosesTheName(w: World, limit: int, uid: Uid) returns (w': World)
    requires Start(w) && limit < 0 && uid !in w.accounts
    ensures Reachable(Smoothly, w, w') && Orphaned(w')
  {
    ReachableAtOnce(Smoothly, w);
    var w0 := Looks(Smoothly, w, w, 0, Some(limit), true);
    var w1 := Builds(Smoothly, w, w0, 0, uid);
    ReachableNext(Smoothly, w, w1, SetLimit(0, true));
    w' := AfterSetLimit(w1, 0, true);
    ReachableIsFine(Smoothly, w, w1);
    BuilderExcludes(w1, 0);
    DependedIsLostIff(w1, SetLimit(0, true), 0);
  }

  // All of it, nothing else failing.
  lemma Creates(mode: Mode, w: World, w0: World, p: Pid, uid: Uid, limit: Limit, read: bool) returns (w': World)
    requires Reachable(mode, w, w0) && Idle(ProcOf(w0, p)) && Free(w0.holder, w0.clock) && uid !in w0.accounts
    requires !Negative(limit) && if read then w0.binding.None? else mode.Anyhow?
    ensures Reachable(mode, w, w') && w'.holder.None? && w'.clock == w0.clock && w'.binding == Some(Account(uid))
    ensures w'.procs == w0.procs[p := Returned(uid)]
    ensures w'.accounts == w0.accounts + {uid} && w'.given == w0.given + {uid}
  {
    var w1 := Looks(mode, w, w0, p, limit, read);
    var w2 := Builds(mode, w, w1, p, uid);
    w' := Binds(mode, w, w2, p);
    assert w'.procs == w0.procs[p := Returned(uid)];
  }

  // A caller looks and is held up until its lease has lapsed and another has created the account.
  lemma HeldUpCaller(w: World, uid: Uid, end: Time) returns (w': World)
    requires Start(w) && uid !in w.accounts && end == w.clock + LEASE
    ensures Reachable(Seeing, w, w') && w'.clock == end + 1 && w'.holder.None? && w'.given == {uid}
    ensures ProcOf(w', 0) == Vacant(None, end) && ProcOf(w', 1) == Returned(uid)
  {
    ReachableAtOnce(Seeing, w);
    var w0 := Looks(Seeing, w, w, 0, None, true);
    ReachableNext(Seeing, w, w0, Tick(end + 1));
    w' := Creates(Seeing, w, w0.(clock := end + 1), 1, uid, None, true);
  }

  lemma LateCallerMarks(w: World, w0: World, p: Pid) returns (w': World)
    requires Start(w) && Reachable(Seeing, w, w0) && ProcOf(w0, p).Vacant? && ProcOf(w0, p).end < w0.clock
    requires w0.holder.None? && w0.given != {}
    ensures Reachable(Seeing, w, w') && Orphaned(w')
    ensures w'.procs == w0.procs[p := Refused]
  {
    ReachableNext(Seeing, w, w0, Mark(p, true));
    var w1 := AfterMark(w0, p, true);
    ReachableNext(Seeing, w, w1, Unlock(p, true, false));
    w' := AfterUnlock(w1, p, true, false);
    ReachableIsFine(Seeing, w, w');
    forall q ensures !IsBuilder(ProcOf(w', q)) && !Ready(w', q) {
      assert ProcFine(w', q);
    }
  }

  /** Nothing checks the lease before the marker is written: a caller that is held up beyond it after its
      second look writes the marker over an account that has since been created and given. It is refused
      itself, and the name of that account is lost for ever. */
  lemma HeldUpCallerLosesTheAccount(w: World, uid: Uid) returns (w': World)
    requires Start(w) && uid !in w.accounts
    ensures Reachable(Seeing, w, w') && Orphaned(w') && ProcOf(w', 1) == Returned(uid) && ProcOf(w', 0).Refused?
  {
    var w0 := HeldUpCaller(w, uid, w.clock + LEASE);
    w' := LateCallerMarks(w, w0, 0);
  }

  /** A read that fails is taken for a name that is not there: a caller for whom both looks fail is given a
      second account of the same name. */
  lemma MissedLooksGiveTwoAccounts(w: World, one: Uid, two: Uid) returns (w': World)
    requires Start(w) && one != two && one !in w.accounts && two !in w.accounts
    ensures Reachable(Anyhow, w, w') && w'.given == {one, two}
    ensures ProcOf(w', 0) == Returned(one) && ProcOf(w', 1) == Returned(two)
  {
    ReachableAtOnce(Anyhow, w);
    w' := Creates(Anyhow, w, w, 0, one, None, true);
    w' := Creates(Anyhow, w, w', 1, two, None, false);
  }

  // ------------------------------------------------------------ calls that go through

  /** From every state of the world, a call on a free name that nothing fails and nobody disturbs is given the
      account it has built, and the name is bound to it. */
  lemma FreeNameIsGiven(w: World, p: Pid, uid: Uid, limit: Limit) returns (w': World)
    requires Idle(ProcOf(w, p)) && Free(w.holder, w.clock) && w.binding.None? && uid !in w.accounts
    requires limit.Some? ==> 0 <= limit.value
    ensures Reachable(Smoothly, w, w') && ProcOf(w', p) == Returned(uid)
    ensures w'.binding == Some(Account(uid)) && w'.given == w.given + {uid} && w'.accounts == w.accounts + {uid}
    ensures w'.holder.None? && forall q :: q != p ==> ProcOf(w', q) == ProcOf(w, q)
  {
    ReachableAtOnce(Smoothly, w);
    w' := Creates(Smoothly, w, w, p, uid, limit, true);
  }

  /** A call on a name that is bound to an account is given that account. */
  lemma TakenNameIsGiven(w: World, p: Pid, uid: Uid, limit: Limit)
    requires Idle(ProcOf(w, p)) && w.binding == Some(Account(uid)) && (limit.Some? ==> 0 <= limit.value)
    ensures var steps := [Call(p, limit, true)] + [Join(p, true)];
      && Possible(w, steps)
      && ProcOf(Run(w, steps), p) == Returned(uid) && Run(w, steps).given == w.given + {uid}
      && Run(w, steps).binding == w.binding
  {
    Extend(w, [], Call(p, limit, true));
    assert [] + [Call(p, limit, true)] == [Call(p, limit, true)];
    Extend(w, [Call(p, limit, true)], Join(p, true));
  }

  /** So is a caller that had found nothing and finds the account once it has the lock. */
  lemma TakenUnderLockIsGiven(w: World, p: Pid, uid: Uid)
    requires ProcOf(w, p).Waiting? && Free(w.holder, w.clock) && w.binding == Some(Account(uid))
    requires ProcOf(w, p).limit.Some? ==> 0 <= ProcOf(w, p).limit.value
    ensures var steps := [Lock(p)] + [CheckAgain(p, true)] + [Unlock(p, true, false)] + [Join(p, true)];
      && Possible(w, steps)
      && ProcOf(Run(w, steps), p) == Returned(uid) && Run(w, steps).given == w.given + {uid}
      && Run(w, steps).binding == w.binding && Run(w, steps).holder.None?
  {
    Extend(w, [], Lock(p));
    assert [] + [Lock(p)] == [Lock(p)];
    Extend(w, [Lock(p)], CheckAgain(p, true));
    Extend(w, [Lock(p)] + [CheckAgain(p, true)], Unlock(p, true, false));
    Extend(w, [Lock(p)] + [CheckAgain(p, true)] + [Unlock(p, true, false)], Join(p, true));
  }

  /** A caller that cannot write the marker lets go of the lock and leaves the name free. */
  lemma UnwrittenMarkerLetsGo(w: World, p: Pid)
    requires ProcOf(w, p).Vacant? && w.holder == Some(Holder(p, ProcOf(w, p).end))
    ensures var steps := [Mark(p, false)] + [Unlock(p, true, false)];
      && Possible(w, steps)
      && ProcOf(Run(w, steps), p).Refused? && Run(w, steps).holder.None? && Run(w, steps).binding == w.binding
  {
    Extend(w, [], Mark(p, false));
    assert [] + [Mark(p, false)] == [Mark(p, false)];
    Extend(w, [Mark(p, false)], Unlock(p, true, false));
  }

  /** A caller whose build fails takes the marker away. */
  lemma FailedBuildFreesTheName(w: World, p: Pid, uid: Uid)
    requires ProcOf(w, p).Building? && uid !in w.accounts
    ensures var steps := [Build(p, uid, false)] + [Delete(p, true)];
      && Possible(w, steps)
      && ProcOf(Run(w, steps), p).Refused? && Run(w, steps).binding.None? && Run(w, steps).accounts == w.accounts
  {
    Extend(w, [], Build(p, uid, false));
    assert [] + [Build(p, uid, false)] == [Build(p, uid, false)];
    Extend(w, [Build(p, uid, false)], Delete(p, true));
  }

  /** The lock is held for ten minutes: after that, and not before, another may take it. */
  lemma LeaseLastsTenMinutes(w: World, p: Pid, q: Pid, later: Time)
    requires Enabled(w, Lock(p)) && p != q && ProcOf(w, q).Waiting? && w.clock <= later
    ensures Enabled(Do(w, Lock(p)).(clock := later), Lock(q)) <==> later > w.clock + 600 * SECOND
  {
  }
}
