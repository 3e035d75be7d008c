/**
 The job pools as the production backends keep them: a take first reads the object and then deletes it, passing
 over an error of the delete, and any number of callers do so at once.
 */
module TornTakes {
  import opened JobPools

  // A caller that has read a job: from which pool, where it goes, and whether the delete has been made.
  datatype Hand = Hand(job: Job, key: Key, next: JobState, deleted: bool)

  datatype Pools = Pools(jobs: map<Key, Job>, hands: map<Pid, Hand>, lost: set<Uid>, submitted: set<Uid>)

  datatype Action =
    | Submission(uid: Uid, time: Time)
    | Read(p: Pid, uid: Uid, start: JobState, next: JobState)
    | Delete(p: Pid, done: bool)
    | Store(p: Pid, time: Time)
    | StoreFails(p: Pid)

  predicate Possible(w: Pools, a: Action) {
    match a
    case Submission(uid, _) => uid !in w.submitted
    case Read(p, uid, start, next) => p !in w.hands && start != next && Key(start, uid) in w.jobs
    case Delete(p, _) => p in w.hands && !w.hands[p].deleted
    case Store(p, _) => p in w.hands && w.hands[p].deleted
    case StoreFails(p) => p in w.hands && w.hands[p].deleted
  }

  function AfterSubmission(w: Pools, uid: Uid, time: Time): Pools {
    w.(jobs := w.jobs[Key(Pending, uid) := Job(uid, map[Pending := time])], submitted := w.submitted + {uid})
  }

  function AfterRead(w: Pools, p: Pid, uid: Uid, start: JobState, next: JobState): Pools
    requires Possible(w, Read(p, uid, start, next))
  {
    w.(hands := w.hands[p := Hand(w.jobs[Key(start, uid)], Key(start, uid), next, false)])
  }

  // Whatever is under the key by now is deleted.
  function AfterDelete(w: Pools, p: Pid, done: bool): Pools
    requires Possible(w, Delete(p, done))
  {
    w.(jobs := if done then w.jobs - {w.hands[p].key} else w.jobs,
       hands := w.hands[p := w.hands[p].(deleted := true)])
  }

  function AfterStore(w: Pools, p: Pid, time: Time): Pools
    requires Possible(w, Store(p, time))
  {
    var h := w.hands[p];
    w.(jobs := w.jobs[Key(h.next, h.key.uid) := h.job.(times := h.job.times[h.next := time])],
       hands := w.hands - {p},
       lost := w.lost - {h.key.uid})
  }

  function AfterStoreFails(w: Pools, p: Pid): Pools
    requires Possible(w, StoreFails(p))
  {
    w.(hands := w.hands - {p}, lost := w.lost + {w.hands[p].key.uid})
  }

  function Act(w: Pools, a: Action): Pools
    requires Possible(w, a)
  {
    match a
    case Submission(uid, time) => AfterSubmission(w, uid, time)
    case Read(p, uid, start, next) => AfterRead(w, p, uid, start, next)
    case Delete(p, done) => AfterDelete(w, p, done)
    case Store(p, time) => AfterStore(w, p, time)
    case StoreFails(p) => AfterStoreFails(w, p)
  }

  predicate AllPossible(w: Pools, actions: seq<Action>)
    decreases |actions|, 0
  {
    |actions| == 0 ||
    var rest := actions[..|actions| - 1];
    AllPossible(w, rest) && Possible(ActAll(w, rest), actions[|actions| - 1])
  }

  function ActAll(w: Pools, actions: seq<Action>): Pools
    requires AllPossible(w, actions)
    decreases |actions|, 1
  {
    if |actions| == 0 then w else Act(ActAll(w, actions[..|actions| - 1]), actions[|actions| - 1])
  }

  const NO_JOBS := Pools(map[], map[], {}, {})

  predicate Pooled(w: Pools, uid: Uid) {
    exists k :: k in w.jobs && k.uid == uid
  }

  predicate InHand(w: Pools, uid: Uid) {
    exists p :: p in w.hands && w.hands[p].key.uid == uid
  }

  // ------------------------------------------------------------ no job vanishes

  ghost predicate Kept(w: Pools) {
    && (forall k :: k in w.jobs ==> w.jobs[k].uid == k.uid && k.state in w.jobs[k].times)
    && (forall p :: p in w.hands ==> w.hands[p].job.uid == w.hands[p].key.uid)
    && (forall uid :: uid in w.submitted <==> Pooled(w, uid) || InHand(w, uid) || uid in w.lost)
  }

  lemma PooledBy(w: Pools, k: Key)
    requires k in w.jobs
    ensures Pooled(w, k.uid)
  {
  }

  lemma InHandBy(w: Pools, p: Pid)
    requires p in w.hands
    ensures InHand(w, w.hands[p].key.uid)
  {
  }

  // What a hand or a pool held before, they or the hand of the caller hold after.
  lemma ActKeepsPlaces(w: Pools, a: Action, uid: Uid)
    requires Kept(w) && Possible(w, a)
    ensures var w' := Act(w, a);
      (Pooled(w, uid) || InHand(w, uid) || uid in w.lost || (a.Submission? && a.uid == uid)) <==>
      (Pooled(w', uid) || InHand(w', uid) || uid in w'.lost)
  {
    var w' := Act(w, a);
    if k :| k in w.jobs && k.uid == uid {
      if k in w'.jobs { PooledBy(w', k); } else { InHandBy(w', a.p); }
    }
    if p :| p in w.hands && w.hands[p].key.uid == uid {
      if p in w'.hands {
        InHandBy(w', p);
      } else if a.Store? {
        PooledBy(w', Key(w.hands[p].next, uid));
      }
    }
    NewPlaces(w, a, uid);
  }

  lemma NewPlaces(w: Pools, a: Action, uid: Uid)
    requires Kept(w) && Possible(w, a)
    ensures var w' := Act(w, a);
      && (Pooled(w', uid) ==> Pooled(w, uid) || InHand(w, uid) || (a.Submission? && a.uid == uid))
      && (InHand(w', uid) ==> Pooled(w, uid) || InHand(w, uid))
      && (a.Submission? && a.uid == uid ==> Pooled(w', uid))
      && (a.Store? && w.hands[a.p].key.uid == uid ==> Pooled(w', uid))
  {
    var w' := Act(w, a);
    if a.Submission? {
      PooledBy(w', Key(Pending, a.uid));
    } else if a.Store? {
      InHandBy(w, a.p);
      PooledBy(w', Key(w.hands[a.p].next, w.hands[a.p].key.uid));
    } else if a.Read? {
      PooledBy(w, Key(a.start, a.uid));
    }
    if k :| k in w'.jobs && k.uid == uid {
      if k in w.jobs { PooledBy(w, k); }
    }
    if p :| p in w'.hands && w'.hands[p].key.uid == uid {
      if p in w.hands { InHandBy(w, p); }
    }
  }

  lemma ActKeeps(w: Pools, a: Action)
    requires Kept(w) && Possible(w, a)
    ensures Kept(Act(w, a))
  {
    var w' := Act(w, a);
    forall uid ensures uid in w'.submitted <==> Pooled(w', uid) || InHand(w', uid) || uid in w'.lost {
      ActKeepsPlaces(w, a, uid);
    }
  }

  /** However takes are torn and deletes fail, in every interleaving: a job that was submitted is in a pool, in
      a caller's hands, or lost to a failed store, and what a pool holds under a UID is that job. */
  lemma {:induction false} NoJobVanishes(actions: seq<Action>)
    requires AllPossible(NO_JOBS, actions)
    ensures Kept(ActAll(NO_JOBS, actions))
    decreases |actions|
  {
    if |actions| > 0 {
      NoJobVanishes(actions[..|actions| - 1]);
      ActKeeps(ActAll(NO_JOBS, actions[..|actions| - 1]), actions[|actions| - 1]);
    }
  }

  // ------------------------------------------------------------ one place at all times

  predicate OneKey(w: Pools) {
    forall k, l :: k in w.jobs && l in w.jobs && k.uid == l.uid ==> k == l
  }

  predicate OneHand(w: Pools) {
    forall p, q :: p in w.hands && q in w.hands && w.hands[p].key.uid == w.hands[q].key.uid ==> p == q
  }

  // A caller that holds a job which is still in a pool is about to delete it there.
  predicate AboutToDelete(w: Pools) {
    forall p, k :: p in w.hands && k in w.jobs && w.hands[p].key.uid == k.uid ==>
      !w.hands[p].deleted && w.hands[p].key == k
  }

  ghost predicate Apart(w: Pools) {
    OneKey(w) && OneHand(w) && AboutToDelete(w)
  }

  ghost predicate AlwaysApart(w: Pools, actions: seq<Action>)
    requires AllPossible(w, actions)
  {
    Apart(ActAll(w, actions)) && (|actions| > 0 ==> AlwaysApart(w, actions[..|actions| - 1]))
  }

  /** A job is read that another caller has read and not yet deleted, or it stays where it is because the delete
      fails. */
  ghost predicate Tears(w: Pools, a: Action)
    requires Possible(w, a)
  {
    match a
    case Read(_, uid, start, _) =>
      exists q :: q in w.hands && w.hands[q].key == Key(start, uid) && !w.hands[q].deleted
    case Delete(p, done) => !done && w.hands[p].key in w.jobs
    case _ => false
  }

  ghost predicate SomeTears(w: Pools, actions: seq<Action>)
    requires AllPossible(w, actions)
  {
    |actions| > 0 &&
    var rest := actions[..|actions| - 1];
    SomeTears(w, rest) || Tears(ActAll(w, rest), actions[|actions| - 1])
  }

  lemma FreshIsNowhere(w: Pools, uid: Uid)
    requires Kept(w) && uid !in w.submitted
    ensures forall k :: k in w.jobs ==> k.uid != uid
    ensures forall p :: p in w.hands ==> w.hands[p].key.uid != uid
  {
    forall k | k in w.jobs ensures k.uid != uid { PooledBy(w, k); }
    forall p | p in w.hands ensures w.hands[p].key.uid != uid { InHandBy(w, p); }
  }

  lemma ReadOneHand(w: Pools, p: Pid, uid: Uid, start: JobState, next: JobState)
    requires Apart(w) && Possible(w, Read(p, uid, start, next)) && !Tears(w, Read(p, uid, start, next))
    ensures OneHand(AfterRead(w, p, uid, start, next))
  {
    var key := Key(start, uid);
    assert key in w.jobs;
    assert forall q :: q in w.hands ==> w.hands[q].key.uid != key.uid;
  }

  lemma ReadApartIff(w: Pools, p: Pid, uid: Uid, start: JobState, next: JobState)
    requires Apart(w) && Possible(w, Read(p, uid, start, next))
    ensures Apart(AfterRead(w, p, uid, start, next)) <==> !Tears(w, Read(p, uid, start, next))
  {
    var w' := AfterRead(w, p, uid, start, next);
    if q :| q in w.hands && w.hands[q].key == Key(start, uid) && !w.hands[q].deleted {
      assert p in w'.hands && q in w'.hands && p != q && w'.hands[q].key.uid == w'.hands[p].key.uid;
      assert !OneHand(w');
    } else {
      ReadOneHand(w, p, uid, start, next);
      assert OneKey(w') && AboutToDelete(w');
    }
  }

  lemma DeleteApartIff(w: Pools, p: Pid, done: bool)
    requires Apart(w) && Possible(w, Delete(p, done))
    ensures Apart(AfterDelete(w, p, done)) <==> !Tears(w, Delete(p, done))
  {
    var w' := AfterDelete(w, p, done);
    if !done && w.hands[p].key in w.jobs {
      assert p in w'.hands && w'.hands[p].key in w'.jobs;
    }
  }

  lemma SubmissionApart(w: Pools, uid: Uid, time: Time)
    requires Kept(w) && Apart(w) && uid !in w.submitted
    ensures Apart(AfterSubmission(w, uid, time))
  {
    FreshIsNowhere(w, uid);
  }

  lemma StoreApart(w: Pools, p: Pid, time: Time)
    requires Apart(w) && Possible(w, Store(p, time))
    ensures Apart(AfterStore(w, p, time))
  {
    var w', uid := AfterStore(w, p, time), w.hands[p].key.uid;
    assert forall k :: k in w.jobs ==> k.uid != uid;
    assert forall q :: q in w'.hands ==> w'.hands[q].key.uid != uid;
  }

  lemma StoreFailsApart(w: Pools, p: Pid)
    requires Apart(w) && Possible(w, StoreFails(p))
    ensures Apart(AfterStoreFails(w, p))
  {
  }

  lemma ApartInStepIff(w: Pools, a: Action)
    requires Kept(w) && Apart(w) && Possible(w, a)
    ensures Apart(Act(w, a)) <==> !Tears(w, a)
  {
    match a
    case Submission(uid, time) => SubmissionApart(w, uid, time);
    case Read(p, uid, start, next) => ReadApartIff(w, p, uid, start, next);
    case Delete(p, done) => DeleteApartIff(w, p, done);
    case Store(p, time) => StoreApart(w, p, time);
    case StoreFails(p) => StoreFailsApart(w, p);
  }

  /** In every interleaving every job has at all times no more than one place exactly when nobody reads a job
      between another caller's read and delete of it, and every delete is done. */
  lemma {:induction false} AlwaysApartIff(actions: seq<Action>)
    requires AllPossible(NO_JOBS, actions)
    ensures AlwaysApart(NO_JOBS, actions) <==> !SomeTears(NO_JOBS, actions)
    decreases |actions|
  {
    if |actions| > 0 {
      var rest := actions[..|actions| - 1];
      AlwaysApartIff(rest);
      if AlwaysApart(NO_JOBS, rest) {
        NoJobVanishes(rest);
        assert Apart(ActAll(NO_JOBS, rest));
        ApartInStepIff(ActAll(NO_JOBS, rest), actions[|actions| - 1]);
      }
    }
  }

  lemma Extend(actions: seq<Action>, a: Action)
    requires AllPossible(NO_JOBS, actions) && Possible(ActAll(NO_JOBS, actions), a)
    ensures AllPossible(NO_JOBS, actions + [a])
    ensures ActAll(NO_JOBS, actions + [a]) == Act(ActAll(NO_JOBS, actions), a)
  {
    assert (actions + [a])[..|actions|] == actions;
  }

  /** A delete that fails, and nothing else, leaves a job in two pools. */
  lemma FailedDeleteLeavesTwo(uid: Uid, time: Time) returns (actions: seq<Action>)
    ensures AllPossible(NO_JOBS, actions)
    ensures var w := ActAll(NO_JOBS, actions);
      w.hands == map[] && Key(Pending, uid) in w.jobs && Key(Submitting, uid) in w.jobs
  {
    actions := [];
    Extend(actions, Submission(uid, time)); actions := actions + [Submission(uid, time)];
    Extend(actions, Read(0, uid, Pending, Submitting)); actions := actions + [Read(0, uid, Pending, Submitting)];
    Extend(actions, Delete(0, false)); actions := actions + [Delete(0, false)];
    Extend(actions, Store(0, time)); actions := actions + [Store(0, time)];
  }

  /** A caller that nobody disturbs moves the job from one pool to the next. */
  lemma UndisturbedMove(w: Pools, p: Pid, uid: Uid, start: JobState, next: JobState, time: Time)
    requires Possible(w, Read(p, uid, start, next)) && w.jobs[Key(start, uid)].uid == uid
    ensures var read := AfterRead(w, p, uid, start, next);
      && Possible(read, Delete(p, true))
      && var gone := AfterDelete(read, p, true);
         && Possible(gone, Store(p, time))
         && var job := w.jobs[Key(start, uid)];
            AfterStore(gone, p, time) == Pools(
              (w.jobs - {Key(start, uid)})[Key(next, uid) := Job(uid, job.times[next := time])],
              w.hands, w.lost - {uid}, w.submitted)
  {
    var gone := AfterDelete(AfterRead(w, p, uid, start, next), p, true);
    assert AfterStore(gone, p, time).hands == w.hands;
  }
}
