/**
 The lease-guarded test-and-set that moves a transaction record from state to state, as a transition system
 over any number of processes working on the same record. A lease is held for ten minutes and then lapses
 by itself; a process writes only if it still had a hundred seconds when it looked, and its write lands
 within those.
 */
module LeaseGuard {
  import opened Calendar
  import opened Leases
  import opened LedgerInvariant
  import opened LedgerSteps
  import opened Wrappers

  const MARGIN := 100_000_000 // 100 * SECOND

  // How far a call of `load_test_and_set` has got.
  datatype Proc =
    | Out
    | Waiting(expected: RecordState, next: RecordState)
    | Locked(expected: RecordState, next: RecordState, end: Time)
    | Tested(expected: RecordState, next: RecordState, end: Time)
    | Cleared(expected: RecordState, next: RecordState, end: Time, deadline: Time)
    | Leaving(end: Time)

  // A state that was stored, by whom, and the state it replaced.
  datatype Move = Move(p: Pid, before: RecordState, after: RecordState)

  datatype World = World(
    clock: Time, holder: Option<Holder>, state: RecordState, procs: map<Pid, Proc>, moves: seq<Move>)

  datatype Step =
    | Tick(clock: Time)
    | Begin(p: Pid, expected: RecordState, next: RecordState)
    | Lock(p: Pid)
    | TimeOut(p: Pid)
    | Load(p: Pid)
    | Look(p: Pid)
    | Save(p: Pid)
    | SaveFails(p: Pid)
    | Unlock(p: Pid)

  function ProcOf(w: World, p: Pid): Proc {
    if p in w.procs then w.procs[p] else Out
  }

  predicate Enabled(w: World, s: Step) {
    match s
    case Tick(clock) => w.clock <= clock
    case Begin(p, expected, next) => ProcOf(w, p).Out? && LegalMove(expected, next)
    case Lock(p) => ProcOf(w, p).Waiting? && Free(w.holder, w.clock)
    case TimeOut(p) => ProcOf(w, p).Waiting?
    case Load(p) => ProcOf(w, p).Locked?
    case Look(p) => ProcOf(w, p).Tested?
    case Save(p) => ProcOf(w, p).Cleared? && w.clock <= ProcOf(w, p).deadline
    case SaveFails(p) => ProcOf(w, p).Cleared?
    case Unlock(p) => ProcOf(w, p).Leaving?
  }

  function Put(w: World, p: Pid, proc: Proc): World {
    w.(procs := w.procs[p := proc])
  }

  function Unlocked(w: World, p: Pid, end: Time): World {
    w.(holder := LetGo(w.holder, p, end))
  }

  function AfterLoad(w: World, p: Pid): World
    requires Enabled(w, Load(p))
  {
    var proc := ProcOf(w, p);
    if w.state != proc.expected then Put(Unlocked(w, p, proc.end), p, Out)
    else if proc.expected == proc.next then Put(w, p, Leaving(proc.end))
    else Put(w, p, Tested(proc.expected, proc.next, proc.end))
  }

  // Whole seconds left on the lease.
  function SecondsLeft(w: World, end: Time): int {
    if w.clock < end then (end - w.clock) / SECOND else 0
  }

  function AfterLook(w: World, p: Pid): World
    requires Enabled(w, Look(p))
  {
    var proc := ProcOf(w, p);
    if SecondsLeft(w, proc.end) < 100 then Put(Unlocked(w, p, proc.end), p, Waiting(proc.expected, proc.next))
    else Put(w, p, Cleared(proc.expected, proc.next, proc.end, w.clock + MARGIN))
  }

  function AfterSave(w: World, p: Pid): World
    requires Enabled(w, Save(p))
  {
    var proc := ProcOf(w, p);
    Put(w, p, Leaving(proc.end)).(state := proc.next, moves := w.moves + [Move(p, w.state, proc.next)])
  }

  function Do(w: World, s: Step): World
    requires Enabled(w, s)
  {
    match s
    case Tick(clock) => w.(clock := clock)
    case Begin(p, expected, next) => Put(w, p, Waiting(expected, next))
    case Lock(p) =>
      Put(w, p, Locked(ProcOf(w, p).expected, ProcOf(w, p).next, w.clock + LEASE))
        .(holder := Some(Holder(p, w.clock + LEASE)))
    case TimeOut(p) => Put(w, p, Out)
    case Load(p) => AfterLoad(w, p)
    case Look(p) => AfterLook(w, p)
    case Save(p) => AfterSave(w, p)
    case SaveFails(p) => Put(Unlocked(w, p, ProcOf(w, p).end), p, Out)
    case Unlock(p) => Put(Unlocked(w, p, ProcOf(w, p).end), p, Out)
  }

  predicate Possible(w: World, steps: seq<Step>)
    decreases |steps|, 0
  {
    |steps| == 0 ||
    var rest := steps[..|steps| - 1];
    Possible(w, rest) && Enabled(Run(w, rest), steps[|steps| - 1])
  }

  function Run(w: World, steps: seq<Step>): World
    requires Possible(w, steps)
    decreases |steps|, 1
  {
    if |steps| == 0 then w else Do(Run(w, steps[..|steps| - 1]), steps[|steps| - 1])
  }

  predicate Start(w: World) {
    w.holder.None? && w.procs == map[] && w.moves == []
  }

  // ------------------------------------------------------------ the invariant

  // As long as a process has not outstayed its lease, what it tested still stands.
  predicate ProcFine(w: World, p: Pid) {
    match ProcOf(w, p)
    case Locked(expected, next, end) => LegalMove(expected, next) && Holds(w.holder, w.clock, p, end)
    case Tested(expected, next, end) =>
      && LegalMove(expected, next) && expected != next
      && Holds(w.holder, w.clock, p, end) && (w.clock <= end ==> w.state == expected)
    case Cleared(expected, next, end, deadline) =>
      && LegalMove(expected, next) && expected != next
      && Holds(w.holder, w.clock, p, end) && (w.clock <= end ==> w.state == expected) && deadline <= end
    case Waiting(expected, next) => LegalMove(expected, next)
    case _ => true
  }

  ghost predicate Fine(w: World) {
    forall p :: ProcFine(w, p)
  }

  /** Whenever a state is stored, it replaces the state that was tested for. */
  lemma SavesReplaceWhatWasTested(w: World, p: Pid)
    requires Fine(w) && Enabled(w, Save(p))
    ensures w.state == ProcOf(w, p).expected && w.holder == Some(Holder(p, ProcOf(w, p).end))
  {
    assert ProcFine(w, p);
  }

  lemma EnoughLeft(w: World, end: Time)
    requires SecondsLeft(w, end) >= 100
    ensures w.clock + MARGIN <= end
  {
  }

  lemma OwnStep(w: World, s: Step, p: Pid)
    requires Fine(w) && Enabled(w, s) && !s.Tick? && s.p == p
    ensures ProcFine(Do(w, s), p)
  {
    assert ProcFine(w, p);
    if s.Look? && SecondsLeft(w, ProcOf(w, p).end) >= 100 {
      EnoughLeft(w, ProcOf(w, p).end);
    }
  }

  lemma OthersStep(w: World, s: Step, q: Pid)
    requires Fine(w) && Enabled(w, s) && (s.Tick? || s.p != q)
    ensures ProcFine(Do(w, s), q)
  {
    assert ProcFine(w, q);
    if s.Save? {
      SavesReplaceWhatWasTested(w, s.p);
    }
  }

  lemma StepKeeps(w: World, s: Step)
    requires Fine(w) && Enabled(w, s)
    ensures Fine(Do(w, s))
  {
    forall q ensures ProcFine(Do(w, s), q) {
      if s.Tick? || s.p != q {
        OthersStep(w, s, q);
      } else {
        OwnStep(w, s, q);
      }
    }
  }

  lemma {:induction false} RunKeeps(w: World, steps: seq<Step>)
    requires Start(w) && Possible(w, steps)
    ensures Fine(Run(w, steps))
    decreases |steps|
  {
    if |steps| == 0 {
      forall p ensures ProcFine(w, p) {
      }
    } else {
      RunKeeps(w, steps[..|steps| - 1]);
      StepKeeps(Run(w, steps[..|steps| - 1]), steps[|steps| - 1]);
    }
  }

  // ------------------------------------------------------------ undisturbed

  lemma Extend(w: World, steps: seq<Step>, s: Step)
    requires Possible(w, steps) && Enabled(Run(w, steps), s)
    ensures Possible(w, steps + [s]) && Run(w, steps + [s]) == Do(Run(w, steps), s)
  {
    assert (steps + [s])[..|steps|] == steps;
  }

  // A process takes the lock and reads the record.
  lemma Loads(w: World, p: Pid, expected: RecordState, next: RecordState) returns (steps: seq<Step>)
    requires ProcOf(w, p).Out? && Free(w.holder, w.clock) && LegalMove(expected, next)
    ensures steps == [Begin(p, expected, next)] + [Lock(p)] + [Load(p)] && Possible(w, steps)
    ensures var w' := Run(w, steps);
      && w'.clock == w.clock && w'.state == w.state && w'.moves == w.moves
      && w'.holder == (if w.state == expected then Some(Holder(p, w.clock + LEASE)) else None)
      && ProcOf(w', p) ==
           if w.state != expected then Out
           else if expected == next then Leaving(w.clock + LEASE)
           else Tested(expected, next, w.clock + LEASE)
  {
    steps := [Begin(p, expected, next)];
    Extend(w, [], Begin(p, expected, next));
    assert [] + steps == steps;
    Extend(w, steps, Lock(p));
    steps := steps + [Lock(p)];
    Extend(w, steps, Load(p));
    steps := steps + [Load(p)];
  }

  // It has most of its lease left, stores the next state and lets go of the lock.
  lemma Saves(w: World, before: seq<Step>, p: Pid) returns (steps: seq<Step>)
    requires Possible(w, before) && ProcOf(Run(w, before), p).Tested?
    requires ProcOf(Run(w, before), p).end == Run(w, before).clock + LEASE
    requires Run(w, before).holder == Some(Holder(p, ProcOf(Run(w, before), p).end))
    ensures Possible(w, steps)
    ensures var w0, w' := Run(w, before), Run(w, steps);
      && w'.state == ProcOf(w0, p).next && w'.moves == w0.moves + [Move(p, w0.state, ProcOf(w0, p).next)]
      && ProcOf(w', p).Out? && w'.holder.None?
  {
    Extend(w, before, Look(p));
    steps := before + [Look(p)];
    Extend(w, steps, Save(p));
    steps := steps + [Save(p)];
    Extend(w, steps, Unlock(p));
    steps := steps + [Unlock(p)];
  }

  /** A process that nobody disturbs stores the next state when the record is in the state it expects, and
      leaves the record alone when it is not. */
  lemma UndisturbedTestAndSet(w: World, p: Pid, expected: RecordState, next: RecordState) returns (steps: seq<Step>)
    requires ProcOf(w, p).Out? && Free(w.holder, w.clock) && LegalMove(expected, next) && expected != next
    ensures Possible(w, steps) && ProcOf(Run(w, steps), p).Out? && Run(w, steps).holder.None?
    ensures Run(w, steps).state == if w.state == expected then next else w.state
    ensures Run(w, steps).moves == w.moves + if w.state == expected then [Move(p, expected, next)] else []
  {
    steps := Loads(w, p, expected, next);
    if w.state == expected {
      steps := Saves(w, steps, p);
    }
  }

  /** A process goes on to store exactly when at least a hundred seconds are left of its lease. */
  lemma LookClearsIff(w: World, p: Pid)
    requires Enabled(w, Look(p))
    ensures AfterLook(w, p).procs[p].Cleared? <==> w.clock + 100 * SECOND <= ProcOf(w, p).end
    ensures !AfterLook(w, p).procs[p].Cleared? ==> ProcOf(AfterLook(w, p), p).Waiting?
  {
  }

  /** Its write is taken to land within those hundred seconds. */
  lemma SavesInTimeIff(w: World, p: Pid, later: Time)
    requires Enabled(w, Look(p)) && AfterLook(w, p).procs[p].Cleared?
    ensures Enabled(AfterLook(w, p).(clock := later), Save(p)) <==> later <= w.clock + 100 * SECOND
  {
  }

  // ------------------------------------------------------------ the moves of a record

  // The moves lead from `first` to `last` one after the other, each of them one that the ledger makes.
  predicate Chain(first: RecordState, moves: seq<Move>, last: RecordState) {
    if |moves| == 0 then first == last
    else
      var m := moves[|moves| - 1];
      && m.after == last && m.before != m.after && LegalMove(m.before, m.after)
      && Chain(first, moves[..|moves| - 1], m.before)
  }

  /** In every interleaving the stored states form one chain of legal moves: the processes might as well
      have tested and set one at a time. */
  lemma {:induction false} MovesFormAChain(w: World, steps: seq<Step>)
    requires Start(w) && Possible(w, steps)
    ensures Chain(w.state, Run(w, steps).moves, Run(w, steps).state)
    decreases |steps|
  {
    if |steps| > 0 {
      var rest, s := steps[..|steps| - 1], steps[|steps| - 1];
      MovesFormAChain(w, rest);
      RunKeeps(w, rest);
      if s.Save? {
        SaveExtendsChain(w.state, Run(w, rest), s.p);
      }
    }
  }

  lemma SaveExtendsChain(first: RecordState, w: World, p: Pid)
    requires Fine(w) && Enabled(w, Save(p)) && Chain(first, w.moves, w.state)
    ensures Chain(first, AfterSave(w, p).moves, AfterSave(w, p).state)
  {
    assert ProcFine(w, p);
    SavesReplaceWhatWasTested(w, p);
    assert AfterSave(w, p).moves[..|w.moves|] == w.moves;
  }

  lemma {:induction false} ChainLinks(first: RecordState, moves: seq<Move>, last: RecordState, j: nat)
    requires Chain(first, moves, last) && j + 1 < |moves|
    ensures moves[j + 1].before == moves[j].after
    ensures moves[j + 1].before != moves[j + 1].after && LegalMove(moves[j + 1].before, moves[j + 1].after)
    decreases |moves|
  {
    if j + 2 < |moves| {
      ChainLinks(first, moves[..|moves| - 1], moves[|moves| - 1].before, j);
    }
  }

  predicate Final(state: RecordState) {
    state == Receipted || state == Refunded
  }

  lemma {:induction false} FinalMoveIsLast(first: RecordState, moves: seq<Move>, last: RecordState, k: nat)
    requires Chain(first, moves, last) && k < |moves| && Final(moves[k].after)
    ensures k == |moves| - 1
  {
    if k < |moves| - 1 {
      ChainLinks(first, moves, last, k);
      assert false;
    }
  }

  /** A record is receipted at most once or refunded at most once, never both, and stays that way. */
  lemma SettledAtMostOnceUnderLease(w: World, steps: seq<Step>, j: nat, k: nat)
    requires Start(w) && Possible(w, steps)
    requires j < |Run(w, steps).moves| && k < |Run(w, steps).moves|
    requires Final(Run(w, steps).moves[j].after) && Final(Run(w, steps).moves[k].after)
    ensures j == k && Run(w, steps).state == Run(w, steps).moves[k].after
  {
    var w' := Run(w, steps);
    MovesFormAChain(w, steps);
    FinalMoveIsLast(w.state, w'.moves, w'.state, j);
    FinalMoveIsLast(w.state, w'.moves, w'.state, k);
  }

  /** The claim that starts a receipt or a refund is held by one process at a time: between two claims the
      record has been given back. */
  lemma {:induction false} ClaimsAlternate(first: RecordState, moves: seq<Move>, last: RecordState, j: nat, k: nat)
    requires Chain(first, moves, last) && j < k < |moves|
    requires moves[j].after == Receipting && moves[k].after == Receipting
    ensures exists m :: j < m < k && moves[m].before == Receipting && moves[m].after == Provisional
  {
    ChainLinks(first, moves, last, j);
    assert moves[j + 1].before == Receipting;
    if j + 1 == k {
      assert false;
    }
    if moves[j + 1].after == Receipted {
      FinalMoveIsLast(first, moves, last, j + 1);
      assert false;
    }
  }
}
