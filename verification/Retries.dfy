/** Bounded retries: at most one retry loop for the job's queue, and no reap that brings back a job past its
    allowance or one that somebody still has. */
module Retries {
  import opened Sequences
  import opened Payload
  import opened MemoryBroker
  import opened Lifecycle
  import opened LifecycleCensus
  import opened NoLoss
  import opened Survival
  import opened Shutdown
  import opened History
  import opened Exclusive

  /** A goroutine about to put the job into the dead set. */
  predicate Doomed(p: Phase, j: Jid) {
    match p
    case Placing(l, to) => l.jid == j && to.ToDead?
    case Refused(k, _, to) => k == j && to.ToDead?
    case _ => false
  }

  ghost predicate DeadBound(s: State, j: Jid) {
    CensusOf(s, j).at.dead > 0 || exists a :: a in s.actors && Doomed(s.actors[a], j)
  }

  /** Nobody has the job any more, after a crash. */
  ghost predicate Abandoned(s: State, j: Jid) {
    Copies(CensusOf(s, j)) == 0 && exists a :: a in s.actors && s.actors[a] == Crashed
  }

  /** The record of an accepted job: attempts are accounted for, and only a job on its way to the dead set,
      or lost on that way by a crash, has used up one more than its allowance. */
  ghost predicate Accounted(s: State, j: Jid) {
    j in s.jobs ==>
      var r := s.jobs[j];
      && r.retry <= MAX_RETRY_COUNT
      && r.retryCount == r.failures + r.refusals
      && r.retryCount <= r.retry + 1
      && (r.retryCount <= r.retry || DeadBound(s, j) || Abandoned(s, j))
  }

  // ---- a step touches one record at most

  /** The record a step changes, if any, and what it becomes. */
  lemma RecordChange(c: Config, s: State, t: Step, j: Jid)
    requires Enabled(c, s, t) && j in s.jobs
    ensures j in Apply(c, s, t).jobs
    ensures
      || Apply(c, s, t).jobs[j] == s.jobs[j]
      || (t.Record? && s.actors[t.actor].outcome == Failing && s.actors[t.actor].lease.jid == j
          && Apply(c, s, t) == Recorded(s, t.actor))
      || (t.RetryEnqueue? && s.actors[t.actor].jid == j && !Accepts(s.store, t.actor.pid in s.cancelled)
          && Apply(c, s, t) == Requeued(s, t.actor))
  {
    if t.Submit? || t.Record? || t.RetryEnqueue? {
      hide Push, Delay;
    } else {
      JobsUntouched(c, s, t);
      hide Apply, Recorded, Requeued;
    }
  }

  /** The one copy of a job cannot be held by a goroutine and be dead-bound elsewhere. */
  lemma HolderNotDeadBound(s: State, a: Actor, j: Jid)
    requires Single(CensusOf(s, j)) && a in s.actors
    requires Pre(s.actors[a], j) + Hand(s.actors[a], j) > 0 && !Doomed(s.actors[a], j)
    ensures !DeadBound(s, j) && !Abandoned(s, j)
  {
    hide MapSum;
    MapSumAtLeast(s.actors, PreOf(j), a, a);
    MapSumAtLeast(s.actors, HandOf(j), a, a);
    if b :| b in s.actors && Doomed(s.actors[b], j) {
      MapSumAtLeast(s.actors, PreOf(j), b, a);
      MapSumAtLeast(s.actors, HandOf(j), b, a);
    }
  }

  /** Once bound for the dead set, always, or its goroutine crashes with the only copy: it cannot do
      anything else first. */
  lemma DeadBoundStays(c: Config, s: State, t: Step, j: Jid)
    requires Enabled(c, s, t) && Single(CensusOf(s, j)) && DeadBound(s, j)
    ensures DeadBound(Apply(c, s, t), j) || Abandoned(Apply(c, s, t), j)
  {
    if CensusOf(s, j).at.dead > 0 {
      DeadStays(c, s, t, j);
      hide Apply;
    } else {
      var a :| a in s.actors && Doomed(s.actors[a], j);
      if t == Crash(a) {
        DoomedCrashes(c, s, a, j);
      } else {
        DoomedStays(c, s, t, a, j);
      }
      hide Apply, Abandoned;
    }
  }

  lemma DoomedCrashes(c: Config, s: State, a: Actor, j: Jid)
    requires Enabled(c, s, Crash(a)) && Single(CensusOf(s, j)) && Doomed(s.actors[a], j)
    ensures Abandoned(Apply(c, s, Crash(a)), j)
  {
    CensusStep(c, s, Crash(a), j);
    hide CensusOf;
    var s' := Apply(c, s, Crash(a));
    assert a in s'.actors && s'.actors[a] == Crashed;
  }

  lemma CrashedStays(c: Config, s: State, t: Step, a: Actor)
    requires Enabled(c, s, t) && a in s.actors && s.actors[a] == Crashed
    ensures a in Apply(c, s, t).actors && Apply(c, s, t).actors[a] == Crashed
  {
    hide RemoveFirst, Before, NotBefore, Due, Jids, Push, Lease, Add;
  }

  lemma AbandonedStays(c: Config, s: State, t: Step, j: Jid, q: string)
    requires Enabled(c, s, t) && Taken(s, t, j) == 0 && j in s.jobs && Orderly(c, s, j, q) && Abandoned(s, j)
    ensures Abandoned(Apply(c, s, t), j)
  {
    assert !(t.Submit? && t.jid == j);
    CopiesStep(c, s, t, j, q);
    var a :| a in s.actors && s.actors[a] == Crashed;
    CrashedStays(c, s, t, a);
    hide Apply, Enabled, Taken, Orderly, MapSum;
  }

  lemma DeadMoves(c: Config, s: State, t: Step, j: Jid, n: Census)
    requires Enabled(c, s, t)
    ensures Moved(c, s, t, j, n).at.dead >= n.at.dead
  {
    hide Before, NotBefore, Due, Count, Tally;
  }

  lemma DeadStays(c: Config, s: State, t: Step, j: Jid)
    requires Enabled(c, s, t)
    ensures CensusOf(Apply(c, s, t), j).at.dead >= CensusOf(s, j).at.dead
  {
    CensusStep(c, s, t, j);
    DeadMoves(c, s, t, j, CensusOf(s, j));
    hide Apply, CensusOf, Enabled, Moved;
  }

  /** The two steps by which a goroutine carries out such a placement. */
  predicate Buries(t: Step, a: Actor) {
    (t.Place? || t.RetryPlace?) && t.actor == a
  }

  lemma DoomedWaits(c: Config, s: State, t: Step, a: Actor, j: Jid)
    requires Enabled(c, s, t) && t != Crash(a) && !Buries(t, a) && a in s.actors && Doomed(s.actors[a], j)
    ensures a in Apply(c, s, t).actors && Apply(c, s, t).actors[a] == s.actors[a]
  {
    hide RemoveFirst, Before, NotBefore, Due, Jids;
  }

  lemma DoomedBuried(c: Config, s: State, t: Step, a: Actor, j: Jid)
    requires Enabled(c, s, t) && Buries(t, a) && a in s.actors && Doomed(s.actors[a], j)
    ensures CensusOf(Apply(c, s, t), j).at.dead == CensusOf(s, j).at.dead + 1
  {
    CensusStep(c, s, t, j);
    hide CensusOf, Apply;
  }

  lemma DoomedStays(c: Config, s: State, t: Step, a: Actor, j: Jid)
    requires Enabled(c, s, t) && t != Crash(a) && a in s.actors && Doomed(s.actors[a], j)
    ensures (a in Apply(c, s, t).actors && Doomed(Apply(c, s, t).actors[a], j))
            || CensusOf(Apply(c, s, t), j).at.dead > 0
  {
    if Buries(t, a) {
      DoomedBuried(c, s, t, a, j);
      assert CensusOf(s, j).at.dead >= 0;
    } else {
      DoomedWaits(c, s, t, a, j);
    }
    hide Apply;
  }

  lemma AccountedAfterFailure(s: State, a: Actor, j: Jid)
    requires a in s.actors && s.actors[a].Recording? && s.actors[a].outcome == Failing
    requires s.actors[a].lease.jid == j && j in s.jobs
    requires Single(CensusOf(s, j)) && Accounted(s, j)
    ensures Accounted(Recorded(s, a), j)
  {
    HolderNotDeadBound(s, a, j);
    var s' := Recorded(s, a);
    hide CensusOf;
    assert s'.jobs[j].retryCount > s'.jobs[j].retry ==> a in s'.actors && Doomed(s'.actors[a], j);
  }

  lemma AccountedAfterRefusal(s: State, a: Actor, j: Jid)
    requires a in s.actors && s.actors[a].Carrying? && s.actors[a].jid == j && j in s.jobs
    requires !Accepts(s.store, a.pid in s.cancelled)
    requires Single(CensusOf(s, j)) && Accounted(s, j)
    ensures Accounted(Requeued(s, a), j)
  {
    HolderNotDeadBound(s, a, j);
    var s' := Requeued(s, a);
    hide CensusOf;
    assert s'.jobs[j].retryCount > s'.jobs[j].retry ==> a in s'.actors && Doomed(s'.actors[a], j);
  }

  lemma AccountedWhenNew(c: Config, s: State, t: Step, j: Jid)
    requires Enabled(c, s, t) && j !in s.jobs
    ensures Accounted(Apply(c, s, t), j)
  {
    StepHistory(c, s, t, j);
    hide CensusOf;
  }

  /** A circuit-open outcome costs nothing: the record stays, and the job is due again in five seconds. */
  lemma DeferralCostsNothing(c: Config, s: State, a: Actor)
    requires Enabled(c, s, Step.Record(a)) && s.actors[a].outcome == CircuitOpen
    ensures var s' := Apply(c, s, Step.Record(a));
      && s'.jobs == s.jobs && s'.store == s.store.(failed := s.store.failed + 1)
      && s'.actors[a] == Placing(s.actors[a].lease, ToRetry(s.now + 5_000_000_000))
  {
  }

  // ---- reaps

  /** A reap that takes a lease of the job is harmless and finds attempts left. */
  ghost predicate Recoverable(s: State, t: Step, j: Jid) {
    Harmless(s, t, j) && (Taken(s, t, j) > 0 && j in s.jobs ==> s.jobs[j].retryCount <= s.jobs[j].retry)
  }

  ghost predicate RecoverableRun(c: Config, s: State, run: seq<Step>, j: Jid)
    requires Valid(c, s, run)
    decreases |run|
  {
    run == [] || (Recoverable(s, run[0], j) && RecoverableRun(c, Apply(c, s, run[0]), run[1..], j))
  }

  lemma {:induction false} RecoverableIsHarmless(c: Config, s: State, run: seq<Step>, j: Jid)
    requires Valid(c, s, run) && RecoverableRun(c, s, run, j)
    ensures HarmlessRun(c, s, run, j)
    decreases |run|
  {
    hide Apply, Enabled, Harmless, Taken;
    if run == [] {
    } else {
      RecoverableIsHarmless(c, Apply(c, s, run[0]), run[1..], j);
    }
  }

  lemma ReapedByHand(c: Config, s: State, t: Step, j: Jid)
    requires Enabled(c, s, t) && t.ReapTick? && Taken(s, t, j) > 0
    ensures var s' := Apply(c, s, t);
      s'.jobs == s.jobs && t.actor in s'.actors && Hand(s'.actors[t.actor], j) > 0 && !Doomed(s'.actors[t.actor], j)
  {
    TallyJids(Before(s.store.processing, s.now), j);
    hide Before, NotBefore, Jids, Tally, Count;
  }

  /** A harmless reap of the job keeps the account if and only if the job has attempts left. */
  lemma ReapAccountedIff(c: Config, s: State, t: Step, j: Jid, q: string)
    requires Enabled(c, s, t) && Orderly(c, s, j, q) && Accounted(s, j) && j in s.jobs
    requires Harmless(s, t, j) && Taken(s, t, j) > 0
    ensures Accounted(Apply(c, s, t), j) <==> s.jobs[j].retryCount <= s.jobs[j].retry
  {
    var s' := Apply(c, s, t);
    SingleStepIff(c, s, t, j, q);
    ReapedByHand(c, s, t, j);
    hide Apply, Enabled, Orderly, Harmless, Taken, DeadBound, Abandoned, CensusOf, Single;
    HolderNotDeadBound(s', t.actor, j);
  }

  // ---- every step, every run

  lemma AccountedWhenKept(c: Config, s: State, t: Step, j: Jid, q: string)
    requires Enabled(c, s, t) && Recoverable(s, t, j) && j in s.jobs && Orderly(c, s, j, q) && Accounted(s, j)
    requires j in Apply(c, s, t).jobs && Apply(c, s, t).jobs[j] == s.jobs[j]
    ensures Accounted(Apply(c, s, t), j)
  {
    assert Single(CensusOf(s, j));
    hide Apply, Enabled, DeadBound, Abandoned, CensusOf, Single, Orderly, Taken, Harmless;
    if s.jobs[j].retryCount > s.jobs[j].retry {
      if DeadBound(s, j) {
        DeadBoundStays(c, s, t, j);
      } else {
        AbandonedStays(c, s, t, j, q);
      }
    }
  }

  lemma AccountedStep(c: Config, s: State, t: Step, j: Jid, q: string)
    requires Enabled(c, s, t) && Recoverable(s, t, j) && Orderly(c, s, j, q) && Accounted(s, j)
    ensures Accounted(Apply(c, s, t), j)
  {
    if j !in s.jobs {
      AccountedWhenNew(c, s, t, j);
    } else {
      RecordChange(c, s, t, j);
      assert Single(CensusOf(s, j));
      hide Apply, Accounted, CensusOf, Single, Recorded, Requeued, Orderly, Recoverable;
      if Apply(c, s, t).jobs[j] == s.jobs[j] {
        AccountedWhenKept(c, s, t, j, q);
      } else if t.Record? {
        AccountedAfterFailure(s, t.actor, j);
      } else {
        AccountedAfterRefusal(s, t.actor, j);
      }
    }
  }

  lemma {:induction false} AccountedRun(c: Config, s: State, run: seq<Step>, j: Jid, q: string)
    requires Valid(c, s, run) && RecoverableRun(c, s, run, j) && Orderly(c, s, j, q) && Accounted(s, j)
    requires Homed(Final(c, s, run), j, q)
    ensures Accounted(Final(c, s, run), j)
    decreases |run|
  {
    if run == [] {
    } else {
      assert Harmless(s, run[0], j);
      hide Apply, Enabled, Orderly, Accounted, Harmless, Recoverable, Homed;
      HomedFrom(c, Apply(c, s, run[0]), run[1..], j, q);
      OrderlyStep(c, s, run[0], j, q);
      AccountedStep(c, s, run[0], j, q);
      AccountedRun(c, Apply(c, s, run[0]), run[1..], j, q);
    }
  }

  /** With at most one retry loop for its queue, and no reap that brings it back past its allowance: the
      retry count of a job submitted with `retry` stays within `retry` until the job is dead-lettered, and then
      is at most one more, never above 26. If nothing crashes, a job past its allowance is in the dead set or in
      the hands of a goroutine about to put it there; a crash of that goroutine is the only way out of this, and
      leaves no copy that could fail again. */
  lemma BoundedRetries(c: Config, s: State, run: seq<Step>, j: Jid, q: string, retry: nat)
    requires Init(s) && Valid(c, s, run) && Submit(j, q, retry) in run
    requires LoopsApart(c, s, q) && RecoverableRun(c, s, run, j)
    ensures j in Final(c, s, run).jobs
    ensures var s' := Final(c, s, run);
      var count := s'.jobs[j].retryCount;
      && count <= retry + 1 <= 26
      && (count > retry ==>
            || j in s'.store.dead || (exists a :: a in s'.actors && Doomed(s'.actors[a], j))
            || (!CrashFree(run) && Copies(CensusOf(s', j)) == 0))
  {
    hide Valid, RecoverableRun, Init, Orderly, Accountable, Accounted, LoopsApart, CensusOf, Copies, Doomed;
    AccountedInit(c, s, j, q);
    hide Final;
    RecordTellsRun(c, s, run, j, q, retry);
    AccountedRun(c, s, run, j, q);
    PastAllowance(Final(c, s, run), j);
    if CrashFree(run) {
      NoneCrashedRun(c, s, run);
    }
  }

  lemma AccountedInit(c: Config, s: State, j: Jid, q: string)
    requires Init(s) && LoopsApart(c, s, q)
    ensures Orderly(c, s, j, q) && Accounted(s, j) && NoneCrashed(s) && j !in s.jobs
  {
    OrderlyInit(c, s, j, q);
    hide Orderly;
  }

  lemma PastAllowance(s: State, j: Jid)
    requires j in s.jobs && Accounted(s, j)
    ensures var r := s.jobs[j];
      && r.retryCount <= r.retry + 1 <= MAX_RETRY_COUNT + 1
      && (r.retryCount > r.retry ==>
            || j in s.store.dead || (exists a :: a in s.actors && Doomed(s.actors[a], j))
            || (!NoneCrashed(s) && Copies(CensusOf(s, j)) == 0))
  {
    CountPositive(s.store.dead, j);
    hide MapSum, Copies;
  }

  // ---- the count itself, in every run

  predicate Counted(s: State, j: Jid) {
    j in s.jobs ==> s.jobs[j].retryCount == s.jobs[j].failures + s.jobs[j].refusals
  }

  lemma CountedStep(c: Config, s: State, t: Step, j: Jid)
    requires Enabled(c, s, t) && Counted(s, j)
    ensures Counted(Apply(c, s, t), j)
  {
    if j in s.jobs {
      RecordChange(c, s, t, j);
      if Apply(c, s, t).jobs[j] == s.jobs[j] {
        hide Apply;
      } else if t.Record? {
        hide Apply, Requeued;
      } else {
        hide Apply, Recorded;
      }
    } else {
      StepHistory(c, s, t, j);
    }
  }

  /** In every run at all, with any number of processors, expired leases and crashes: a job's retry count is
      exactly its real handler failures plus its refused re-enqueues; circuit-open deferrals cost nothing. */
  lemma {:induction false} RetryCountIsExact(c: Config, s: State, run: seq<Step>, j: Jid)
    requires Valid(c, s, run) && Counted(s, j)
    ensures Counted(Final(c, s, run), j)
    decreases |run|
  {
    hide Apply, Enabled, Counted;
    if run == [] {
    } else {
      CountedStep(c, s, run[0], j);
      RetryCountIsExact(c, Apply(c, s, run[0]), run[1..], j);
    }
  }
}
