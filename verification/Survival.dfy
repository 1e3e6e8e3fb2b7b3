/** Without crashes a dropped orphan is never the last copy of its job. */
module Survival {
  import opened Sequences
  import opened MemoryBroker
  import opened Lifecycle
  import opened LifecycleCensus
  import opened NoLoss

  ghost predicate CrashFree(run: seq<Step>) {
    forall t :: t in run ==> !t.Crash?
  }

  /** The step deletes a queue that the job waits in. */
  predicate Deletes(s: State, t: Step, j: Jid) {
    t.DeleteQueue? && j in Waiting(s.store, t.queue)
  }

  ghost predicate NeverDeleted(c: Config, s: State, run: seq<Step>, j: Jid)
    requires Valid(c, s, run)
    decreases |run|
  {
    run == [] || (!Deletes(s, run[0], j) && NeverDeleted(c, Apply(c, s, run[0]), run[1..], j))
  }

  /** The copies that are sure to be run or kept: not leases, not orphans in a reaper's hands. */
  function Firm(n: Census): int {
    n.at.queued + n.at.retrying + n.at.dead + n.go.pre
  }

  predicate Carries(p: Phase, j: Jid) {
    (p.Carrying? || p.Refused?) && p.jid == j
  }

  ghost predicate Carried(s: State, j: Jid) {
    exists a :: a in s.actors && Carries(s.actors[a], j)
  }

  ghost predicate Alive(s: State, j: Jid) {
    j in s.succeeded || Firm(CensusOf(s, j)) >= 1 || Carried(s, j)
  }

  /** Where a firm copy can go. */
  predicate Leaves(c: Config, s: State, t: Step, j: Jid)
    requires Enabled(c, s, t)
  {
    || (t.Return? && t.outcome == Succeeded && s.actors[t.actor].lease.jid == j)
    || (t.RetryNext? && Carries(Apply(c, s, t).actors[t.actor], j))
  }

  lemma FirmByWorker(c: Config, s: State, t: Step, j: Jid, n: Census)
    requires Enabled(c, s, t) && (t.Dequeue? || t.PutBack? || t.Return? || t.Place? || t.Ack?)
    requires NonNegative(n) && NonNegative(Moved(c, s, t, j, n)) && Firm(n) >= 1
    ensures Firm(Moved(c, s, t, j, n)) >= 1 || Leaves(c, s, t, j)
  {
  }

  lemma FirmByLoop(c: Config, s: State, t: Step, j: Jid, n: Census)
    requires Enabled(c, s, t)
    requires t.RetryTick? || t.RetryNext? || t.RetryEnqueue? || t.RetryPlace? || t.ReapTick? || t.ReapNext?
    requires NonNegative(n) && Firm(n) >= 1
    ensures Firm(Moved(c, s, t, j, n)) >= 1 || Leaves(c, s, t, j)
  {
  }

  lemma FirmByOther(c: Config, s: State, t: Step, j: Jid, n: Census)
    requires Enabled(c, s, t) && !t.Crash? && !Deletes(s, t, j)
    requires !(t.Dequeue? || t.PutBack? || t.Return? || t.Place? || t.Ack?)
    requires !(t.RetryTick? || t.RetryNext? || t.RetryEnqueue? || t.RetryPlace? || t.ReapTick? || t.ReapNext?)
    requires NonNegative(n) && Firm(n) >= 1
    ensures Firm(Moved(c, s, t, j, n)) >= 1
  {
    if t.DeleteQueue? {
      CountPositive(Waiting(s.store, t.queue), j);
    }
  }

  lemma FirmMoves(c: Config, s: State, t: Step, j: Jid, n: Census)
    requires Enabled(c, s, t) && !t.Crash? && !Deletes(s, t, j)
    requires NonNegative(n) && NonNegative(Moved(c, s, t, j, n)) && Firm(n) >= 1
    ensures Firm(Moved(c, s, t, j, n)) >= 1 || Leaves(c, s, t, j)
  {
    hide Enabled, Moved, Leaves, Firm;
    if t.Dequeue? || t.PutBack? || t.Return? || t.Place? || t.Ack? {
      FirmByWorker(c, s, t, j, n);
    } else if t.RetryTick? || t.RetryNext? || t.RetryEnqueue? || t.RetryPlace? || t.ReapTick? || t.ReapNext? {
      FirmByLoop(c, s, t, j, n);
    } else {
      FirmByOther(c, s, t, j, n);
    }
  }

  lemma LeavesAlive(c: Config, s: State, t: Step, j: Jid)
    requires Enabled(c, s, t) && Leaves(c, s, t, j)
    ensures j in Apply(c, s, t).succeeded || Carried(Apply(c, s, t), j)
  {
    hide RemoveFirst;
  }

  /** What a retry loop carries it goes on carrying, until it enqueues or places it. */
  lemma CarriedStays(c: Config, s: State, t: Step, a: Actor, j: Jid)
    requires Enabled(c, s, t) && !t.Crash? && a in s.actors && Carries(s.actors[a], j)
    ensures || (a in Apply(c, s, t).actors && Carries(Apply(c, s, t).actors[a], j))
            || ((t == RetryEnqueue(a) && Accepts(s.store, a.pid in s.cancelled)) || t == RetryPlace(a))
  {
    hide RemoveFirst, Before, NotBefore, Due, Jids, Push, Lease, Add;
  }

  lemma CarriedPlaced(c: Config, s: State, t: Step, a: Actor, j: Jid, n: Census)
    requires Enabled(c, s, t) && a in s.actors && Carries(s.actors[a], j) && NonNegative(n)
    requires (t == RetryEnqueue(a) && Accepts(s.store, a.pid in s.cancelled)) || t == RetryPlace(a)
    ensures Firm(Moved(c, s, t, j, n)) >= 1
  {
  }

  lemma SuccessStays(c: Config, s: State, t: Step)
    requires Enabled(c, s, t)
    ensures s.succeeded <= Apply(c, s, t).succeeded
  {
    hide RemoveFirst, Before, NotBefore, Due, Jids, Push, Lease, Add;
  }

  lemma AliveStep(c: Config, s: State, t: Step, j: Jid)
    requires Enabled(c, s, t) && !t.Crash? && !Deletes(s, t, j) && Alive(s, j)
    ensures Alive(Apply(c, s, t), j)
  {
    CensusStep(c, s, t, j);
    SuccessStays(c, s, t);
    hide Apply, Enabled, CensusOf, Moved, Leaves, Carries;
    var n := CensusOf(s, j);
    if j !in s.succeeded {
      if Firm(n) >= 1 {
        FirmMoves(c, s, t, j, n);
        if Leaves(c, s, t, j) {
          LeavesAlive(c, s, t, j);
        }
      } else {
        var a :| a in s.actors && Carries(s.actors[a], j);
        CarriedStays(c, s, t, a, j);
        if !(a in Apply(c, s, t).actors && Carries(Apply(c, s, t).actors[a], j)) {
          CarriedPlaced(c, s, t, a, j, n);
        }
      }
    }
  }

  lemma AliveWhenSubmitted(c: Config, s: State, t: Step, j: Jid)
    requires Enabled(c, s, t) && t.Submit? && t.jid == j
    ensures Alive(Apply(c, s, t), j)
  {
    CensusStep(c, s, t, j);
    hide CensusOf;
  }

  lemma {:induction false} AliveRun(c: Config, s: State, run: seq<Step>, j: Jid)
    requires Valid(c, s, run) && CrashFree(run) && NeverDeleted(c, s, run, j) && (j in s.jobs ==> Alive(s, j))
    ensures j in Final(c, s, run).jobs ==> Alive(Final(c, s, run), j)
    decreases |run|
  {
    hide Apply, Enabled, Alive, Deletes;
    if run == [] {
    } else {
      StepHistory(c, s, run[0], j);
      if j in s.jobs {
        AliveStep(c, s, run[0], j);
      } else if j in Apply(c, s, run[0]).jobs {
        AliveWhenSubmitted(c, s, run[0], j);
      }
      AliveRun(c, Apply(c, s, run[0]), run[1..], j);
    }
  }

  /** In every run without crashes, whatever expires, is leased twice or is dropped by a reaper: a job whose
      queue is not deleted under it has succeeded, or is in a queue, the retry or the dead set, or is held by
      a goroutine that will put it there. */
  lemma NothingLostWithoutCrash(c: Config, s: State, run: seq<Step>, j: Jid)
    requires Init(s) && Valid(c, s, run) && CrashFree(run) && NeverDeleted(c, s, run, j)
    requires j in Final(c, s, run).jobs
    ensures var s' := Final(c, s, run);
      || j in s'.succeeded
      || (exists q :: q in s'.store.queues && j in s'.store.queues[q])
      || (exists e :: e in s'.store.retry && e.jid == j)
      || j in s'.store.dead
      || (exists a :: a in s'.actors && (Pre(s'.actors[a], j) > 0 || Carries(s'.actors[a], j)))
  {
    hide MapSum;
    AliveRun(c, s, run, j);
    var s' := Final(c, s, run);
    var n := CensusOf(s', j);
    if n.at.queued > 0 {
      var q := MapSumWitness(s'.store.queues, QueuedOf(j));
      CountPositive(s'.store.queues[q], j);
    } else if n.go.pre > 0 {
      var a := MapSumWitness(s'.actors, PreOf(j));
    }
    TallyPositive(s'.store.retry, j);
    CountPositive(s'.store.dead, j);
  }

  /** No set, queue or goroutine has the job any more, and it has not succeeded. */
  ghost predicate Lost(s: State, j: Jid) {
    j in s.jobs && j !in s.succeeded && Placements(CensusOf(s, j)) + CensusOf(s, j).go.pre == 0
  }

  /** The reaper's step loses the job for good if and only if its queue is not configured or its re-enqueue
      is refused, and the orphan is the last copy: no other in any set, and no goroutine still at work on it. */
  lemma ReaperLosesIff(c: Config, s: State, a: Actor, j: Jid)
    requires Enabled(c, s, ReapNext(a)) && s.actors[a].orphans != [] && s.actors[a].orphans[0] == j
    ensures Lost(Apply(c, s, ReapNext(a)), j) <==>
      && !Reclaims(c, s, a) && j !in s.succeeded
      && Placements(CensusOf(s, j)) == 1 && CensusOf(s, j).go.pre == 0
  {
    CensusStep(c, s, ReapNext(a), j);
    hide CensusOf;
  }

  /** So a reaper's drop loses a job only together with a crash. */
  lemma LossNeedsCrash(c: Config, s: State, run: seq<Step>, j: Jid)
    requires Init(s) && Valid(c, s, run) && NeverDeleted(c, s, run, j) && Lost(Final(c, s, run), j)
    ensures !CrashFree(run)
  {
    if CrashFree(run) {
      AliveRun(c, s, run, j);
      hide MapSum;
      var s' := Final(c, s, run);
      var a :| a in s'.actors && Carries(s'.actors[a], j);
      MapSumAtLeast(s'.actors, HandOf(j), a, a);
    }
  }
}
