/** Cumulative backoff: a job is dead-lettered only after all the waits that its failures and refusals
    imposed. */
module Backoff {
  import opened Options
  import opened Sequences
  import opened Payload
  import opened MemoryBroker
  import opened Lifecycle
  import opened LifecycleCensus
  import opened NoLoss
  import opened Survival
  import opened Shutdown
  import opened History
  import opened Exclusive
  import opened Retries

  // ---- how much waiting is imposed

  /** The sum of the first `count` delays, 2 + 4 + ... seconds. */
  function Waited(count: nat): nat {
    (Pow2(count + 1) - 2) * SECOND
  }

  lemma {:induction false} WaitedIsSumOfDelays(count: nat)
    requires 1 <= count <= MAX_RETRY_COUNT
    ensures Waited(count) == Waited(count - 1) + Delay(count)
  {
    DelayDoublesAndFits(count);
  }

  /** The least that `count` failures and refusals can impose: `2 + 4 + 8 + 16 + 32` seconds for the first
      five, and a minute for each further one. */
  function LeastWait(count: nat): nat {
    if count == 0 then 0
    else LeastWait(count - 1) + if count <= 5 then Pow2(count) * 1_000_000_000 else 60_000_000_000
  }

  lemma LesserWait(count: nat)
    requires count >= 1
    ensures var least := if count <= 5 then Pow2(count) * 1_000_000_000 else 60_000_000_000;
      least <= REFUSED_WAIT && least <= Delay(count)
  {
    if count <= 5 {
      assert Pow2(5) == 32;
      Pow2Monotone(count, 5);
    } else {
      assert Pow2(6) == 64;
      Pow2Monotone(6, Shift(count));
    }
  }

  /** The attempts that were paid for with a wait: all but the one past the allowance. */
  function Paid(r: Record): nat {
    if r.retryCount <= r.retry then r.retryCount else r.retry
  }

  /** What the waits imposed on a job add up to. */
  predicate Priced(s: State, j: Jid) {
    j in s.jobs ==>
      var r := s.jobs[j];
      && r.retry <= MAX_RETRY_COUNT && (r.charged == None <==> r.retryCount == 0)
      && r.retryCount == r.failures + r.refusals
      && r.imposed >= LeastWait(Paid(r))
      && (r.refusals == 0 ==> r.imposed == Waited(Paid(r)))
  }

  lemma FailurePriced(r: Record, now: int)
    requires r.retry <= MAX_RETRY_COUNT && r.imposed >= LeastWait(Paid(r))
    requires r.refusals == 0 ==> r.imposed == Waited(Paid(r))
    ensures var r' := AfterFailure(r, now).0;
      r'.imposed >= LeastWait(Paid(r')) && (r'.refusals == 0 ==> r'.imposed == Waited(Paid(r')))
  {
    var count := r.retryCount + 1;
    if count <= r.retry {
      LesserWait(count);
      assert LeastWait(count) <= LeastWait(count - 1) + Delay(count);
      WaitedIsSumOfDelays(count);
      hide Waited, Delay, LeastWait;
    }
  }

  lemma RefusalPriced(r: Record, now: int)
    requires r.imposed >= LeastWait(Paid(r))
    ensures var r' := AfterRefusal(r, now).0; r'.imposed >= LeastWait(Paid(r'))
  {
    var count := r.retryCount + 1;
    if count <= r.retry {
      LesserWait(count);
      assert LeastWait(count) <= LeastWait(count - 1) + REFUSED_WAIT;
      hide Delay, LeastWait;
    }
  }

  lemma PricedStep(c: Config, s: State, t: Step, j: Jid)
    requires Enabled(c, s, t) && Priced(s, j)
    ensures Priced(Apply(c, s, t), j)
  {
    if j in s.jobs {
      RecordChange(c, s, t, j);
      FailurePriced(s.jobs[j], s.now);
      RefusalPriced(s.jobs[j], s.now);
      hide Apply, LeastWait, Waited, Delay, Paid;
    } else {
      StepHistory(c, s, t, j);
      hide Delay;
    }
  }

  // ---- when the job can run

  /** A goroutine that runs the job, or will let it run, without any further wait. */
  predicate Runs(c: Config, a: Actor, p: Phase, j: Jid, q: string) {
    match p
    case Holding(l, _) => l.jid == j
    case PuttingBack(l, _) => l.jid == j
    case Executing(l) => l.jid == j
    case Recording(l, o) => l.jid == j && o != Succeeded
    case Batch(due) => Known(c, a, q) && j in due
    case Carrying(k, due) => k == j || (Known(c, a, q) && j in due)
    case Refused(_, due, _) => Known(c, a, q) && j in due
    case Reaped(orphans) => j in orphans
    case _ => false
  }

  /** The job is out of the retry set and may be run from here on. */
  ghost predicate Ready(c: Config, s: State, j: Jid, q: string) {
    CensusOf(s, j).at.queued > 0 || exists a :: a in s.actors && Runs(c, a, s.actors[a], j, q)
  }

  /** A goroutine about to put the job into the retry set. */
  predicate Scheduled(p: Phase, j: Jid) {
    match p
    case Placing(l, to) => l.jid == j && to.ToRetry?
    case Refused(k, _, to) => k == j && to.ToRetry?
    case _ => false
  }

  /** Nothing runs the job before `due`: not a retry entry, not one about to be made, nothing now. */
  ghost predicate NotBeforeTime(c: Config, s: State, j: Jid, q: string, due: int) {
    && (forall e :: e in s.store.retry && e.jid == j ==> e.at >= due)
    && (forall a :: a in s.actors && Scheduled(s.actors[a], j) ==> s.actors[a].to.at >= due)
    && (Ready(c, s, j, q) ==> s.now >= due)
  }

  /** The time from which on the job may run, or rest in the dead set: all imposed waits have passed. */
  function PaidOff(r: Record): int {
    if r.charged.Some? then r.charged.value + r.imposed else 0
  }

  ghost predicate Paced(c: Config, s: State, j: Jid, q: string) {
    j in s.jobs ==>
      var r := s.jobs[j];
      && (r.charged.Some? ==> NotBeforeTime(c, s, j, q, PaidOff(r)))
      && (DeadBound(s, j) ==> r.charged.Some? && s.now >= PaidOff(r) && r.retryCount > r.retry)
  }

  /** A reap that takes a lease of the job is recoverable, and the waits imposed so far have passed. */
  ghost predicate Rested(s: State, t: Step, j: Jid) {
    Recoverable(s, t, j) &&
    (Taken(s, t, j) > 0 && j in s.jobs && s.jobs[j].charged.Some? ==> s.now >= PaidOff(s.jobs[j]))
  }

  ghost predicate RestedRun(c: Config, s: State, run: seq<Step>, j: Jid)
    requires Valid(c, s, run)
    decreases |run|
  {
    run == [] || (Rested(s, run[0], j) && RestedRun(c, Apply(c, s, run[0]), run[1..], j))
  }

  // ---- steps that leave the record alone

  /** The step uses up an attempt of the job. */
  predicate Charges(s: State, t: Step, j: Jid) {
    || (t.Record? && t.actor in s.actors && s.actors[t.actor].Recording?
        && s.actors[t.actor].lease.jid == j && s.actors[t.actor].outcome == Failing)
    || (t.RetryEnqueue? && t.actor in s.actors && s.actors[t.actor].Carrying?
        && s.actors[t.actor].jid == j && !Accepts(s.store, t.actor.pid in s.cancelled))
  }

  lemma ClockAdvances(c: Config, s: State, t: Step)
    requires Enabled(c, s, t)
    ensures s.now <= Apply(c, s, t).now
  {
    hide RemoveFirst, Before, NotBefore, Due, Jids;
  }

  lemma RetryEntries(c: Config, s: State, t: Step, j: Jid, due: int)
    requires Enabled(c, s, t)
    requires forall e :: e in s.store.retry && e.jid == j ==> e.at >= due
    requires forall a :: a in s.actors && Scheduled(s.actors[a], j) ==> s.actors[a].to.at >= due
    ensures forall e :: e in Apply(c, s, t).store.retry && e.jid == j ==> e.at >= due
  {
    hide RemoveFirst, Before, NotBefore, Due, Jids;
    match t
    case RetryNext(a) =>
      if s.actors[a].due != [] {
        RemoveFirstKeeps(s.store.retry, s.actors[a].due[0]);
      }
    case _ =>
  }

  /** A goroutine that comes to schedule the job was running it, and schedules it for now or later. */
  lemma ScheduledFrom(c: Config, s: State, t: Step, b: Actor, j: Jid, q: string)
    requires Enabled(c, s, t) && b in Apply(c, s, t).actors && Scheduled(Apply(c, s, t).actors[b], j)
    requires !Charges(s, t, j)
    ensures b in s.actors
    ensures s.actors[b] == Apply(c, s, t).actors[b]
            || (Runs(c, b, s.actors[b], j, q) && Apply(c, s, t).actors[b].to.at >= s.now)
  {
    hide RemoveFirst, Before, NotBefore, Due, Jids, Push, Lease, Add;
  }

  lemma Schedules(c: Config, s: State, t: Step, j: Jid, q: string, due: int)
    requires Enabled(c, s, t) && NotBeforeTime(c, s, j, q, due) && !Charges(s, t, j)
    ensures forall a :: a in Apply(c, s, t).actors && Scheduled(Apply(c, s, t).actors[a], j) ==>
      Apply(c, s, t).actors[a].to.at >= due
  {
    hide Apply, CensusOf, Charges, Runs;
    forall b | b in Apply(c, s, t).actors && Scheduled(Apply(c, s, t).actors[b], j)
      ensures Apply(c, s, t).actors[b].to.at >= due
    {
      ScheduledFrom(c, s, t, b, j, q);
    }
  }

  /** The step reads the job in a batch. */
  predicate Reads(s: State, t: Step, j: Jid) {
    t.RetryTick? && Tally(Due(s.store.retry, s.now, RETRY_BATCH), j) > 0
  }

  /** A step that puts the job into a queue took it from a goroutine that was ready to. */
  lemma QueuedFrom(c: Config, s: State, t: Step, j: Jid, q: string, n: Census)
    requires Enabled(c, s, t) && !(t.Submit? && t.jid == j)
    requires n.at.queued >= 0 && Moved(c, s, t, j, n).at.queued > 0
    ensures n.at.queued > 0 || exists a :: a in s.actors && Runs(c, a, s.actors[a], j, q)
  {
    hide Before, NotBefore, Due, Tally, Count;
    if n.at.queued == 0 && (t.PutBack? || t.RetryEnqueue? || t.ReapNext?) {
      assert t.actor in s.actors && Runs(c, t.actor, s.actors[t.actor], j, q);
    }
  }

  predicate Dequeues(s: State, t: Step, j: Jid) {
    t.Dequeue? && t.actor in s.actors && s.actors[t.actor].Polling?
    && Waiting(s.store, s.actors[t.actor].queue) != [] && Waiting(s.store, s.actors[t.actor].queue)[0] == j
  }

  predicate HandsOn(c: Config, s: State, t: Step, j: Jid, q: string) {
    t.Handoff? && t.actor in s.actors && Runs(c, t.actor, s.actors[t.actor], j, q)
  }

  /** A goroutine that comes to run the job got it from a queue, another goroutine, a batch or a reap. */
  lemma RunsByWorker(c: Config, s: State, t: Step, b: Actor, j: Jid, q: string)
    requires Enabled(c, s, t) && !t.RetryTick? && !t.RetryNext? && !t.RetryEnqueue? && !t.RetryPlace?
    requires !t.ReapTick? && !t.ReapNext?
    requires b in Apply(c, s, t).actors && Runs(c, b, Apply(c, s, t).actors[b], j, q)
    ensures (b in s.actors && Runs(c, b, s.actors[b], j, q)) || HandsOn(c, s, t, j, q) || Dequeues(s, t, j)
  {
    hide RemoveFirst, Push, Lease, Add, Known;
  }

  lemma RunsByRetry(c: Config, s: State, t: Step, b: Actor, j: Jid, q: string)
    requires Enabled(c, s, t) && (t.RetryNext? || t.RetryEnqueue? || t.RetryPlace?) && Homed(s, j, q)
    requires b in Apply(c, s, t).actors && Runs(c, b, Apply(c, s, t).actors[b], j, q)
    ensures b in s.actors && Runs(c, b, s.actors[b], j, q)
  {
    hide RemoveFirst, Push, Add;
  }

  lemma RunsByReaper(c: Config, s: State, t: Step, b: Actor, j: Jid, q: string)
    requires Enabled(c, s, t) && (t.ReapTick? || t.ReapNext?)
    requires b in Apply(c, s, t).actors && Runs(c, b, Apply(c, s, t).actors[b], j, q)
    ensures (b in s.actors && Runs(c, b, s.actors[b], j, q)) || Taken(s, t, j) > 0
  {
    var orphans := Before(s.store.processing, s.now);
    TallyJids(orphans, j);
    CountPositive(Jids(orphans), j);
    hide Before, NotBefore, Jids, Tally, Count, Push, Known;
  }

  lemma RunsByBatch(c: Config, s: State, t: Step, b: Actor, j: Jid, q: string)
    requires Enabled(c, s, t) && t.RetryTick?
    requires b in Apply(c, s, t).actors && Runs(c, b, Apply(c, s, t).actors[b], j, q)
    ensures (b in s.actors && Runs(c, b, s.actors[b], j, q)) || Reads(s, t, j)
  {
    var due := Due(s.store.retry, s.now, RETRY_BATCH);
    TallyJids(due, j);
    CountPositive(Jids(due), j);
    hide Due, Jids, Tally, Count, Known;
  }

  lemma RunsFrom(c: Config, s: State, t: Step, b: Actor, j: Jid, q: string)
    requires Enabled(c, s, t) && Homed(s, j, q)
    requires b in Apply(c, s, t).actors && Runs(c, b, Apply(c, s, t).actors[b], j, q)
    ensures || (b in s.actors && Runs(c, b, s.actors[b], j, q))
            || HandsOn(c, s, t, j, q) || Dequeues(s, t, j) || Reads(s, t, j) || Taken(s, t, j) > 0
  {
    hide Apply, Enabled, Runs, HandsOn, Dequeues, Reads, Taken;
    match t
    case RetryTick(_) => RunsByBatch(c, s, t, b, j, q);
    case RetryNext(_) | RetryEnqueue(_) | RetryPlace(_) => RunsByRetry(c, s, t, b, j, q);
    case ReapTick(_) | ReapNext(_) => RunsByReaper(c, s, t, b, j, q);
    case _ => RunsByWorker(c, s, t, b, j, q);
  }

  lemma DequeuedWasQueued(s: State, t: Step, j: Jid)
    requires Dequeues(s, t, j)
    ensures CensusOf(s, j).at.queued > 0
  {
    var q := s.actors[t.actor].queue;
    MapSumAtLeast(s.store.queues, QueuedOf(j), q, q);
    CountPositive(s.store.queues[q], j);
    hide MapSum;
  }

  lemma ReadyFrom(c: Config, s: State, t: Step, j: Jid, q: string)
    requires Enabled(c, s, t) && Homed(s, j, q) && !(t.Submit? && t.jid == j) && Ready(c, Apply(c, s, t), j, q)
    ensures Ready(c, s, j, q) || Reads(s, t, j) || Taken(s, t, j) > 0
  {
    CensusStep(c, s, t, j);
    hide Apply, Enabled, CensusOf, Moved, Runs, Reads, Taken, Homed;
    if CensusOf(Apply(c, s, t), j).at.queued > 0 {
      QueuedFrom(c, s, t, j, q, CensusOf(s, j));
    } else {
      var b :| b in Apply(c, s, t).actors && Runs(c, b, Apply(c, s, t).actors[b], j, q);
      RunsFrom(c, s, t, b, j, q);
      if Dequeues(s, t, j) {
        DequeuedWasQueued(s, t, j);
      }
    }
  }

  /** A batch holds due entries only. */
  lemma ReadyByBatch(s: State, t: Step, j: Jid, due: int)
    requires Reads(s, t, j) && forall e :: e in s.store.retry && e.jid == j ==> e.at >= due
    ensures s.now >= due
  {
    var batch := Due(s.store.retry, s.now, RETRY_BATCH);
    TallyPositive(batch, j);
    DueIsDue(s.store.retry, s.now, RETRY_BATCH);
    hide Due, Tally;
    var i :| 0 <= i < |batch| && batch[i].jid == j;
    assert batch[i] in batch;
  }

  lemma TimeStep(c: Config, s: State, t: Step, j: Jid, q: string, due: int)
    requires Enabled(c, s, t) && Homed(s, j, q) && NotBeforeTime(c, s, j, q, due)
    requires !Charges(s, t, j) && !(t.Submit? && t.jid == j) && (Taken(s, t, j) > 0 ==> s.now >= due)
    ensures NotBeforeTime(c, Apply(c, s, t), j, q, due)
  {
    RetryEntries(c, s, t, j, due);
    Schedules(c, s, t, j, q, due);
    ClockAdvances(c, s, t);
    hide Apply, Enabled, Ready, Charges, Reads, Taken, Homed;
    if Ready(c, Apply(c, s, t), j, q) {
      ReadyFrom(c, s, t, j, q);
      if Reads(s, t, j) {
        ReadyByBatch(s, t, j, due);
      }
    }
  }

  /** Only a failure or a refusal makes a job dead-bound. */
  lemma DeadBoundFrom(c: Config, s: State, t: Step, j: Jid)
    requires Enabled(c, s, t) && !Charges(s, t, j) && DeadBound(Apply(c, s, t), j)
    ensures DeadBound(s, j)
  {
    CensusStep(c, s, t, j);
    hide Apply, Enabled, CensusOf, Moved, Charges, Doomed;
    if CensusOf(Apply(c, s, t), j).at.dead > 0 {
      DeadFrom(c, s, t, j, CensusOf(s, j));
    } else {
      var b :| b in Apply(c, s, t).actors && Doomed(Apply(c, s, t).actors[b], j);
      DoomedFrom(c, s, t, b, j);
    }
  }

  lemma DeadFrom(c: Config, s: State, t: Step, j: Jid, n: Census)
    requires Enabled(c, s, t) && Moved(c, s, t, j, n).at.dead > 0
    ensures n.at.dead > 0 || exists a :: a in s.actors && Doomed(s.actors[a], j)
  {
    hide Before, NotBefore, Due, Tally, Count;
    if n.at.dead <= 0 && (t.Place? || t.RetryPlace?) {
      assert t.actor in s.actors && Doomed(s.actors[t.actor], j);
    }
  }

  lemma DoomedFrom(c: Config, s: State, t: Step, b: Actor, j: Jid)
    requires Enabled(c, s, t) && !Charges(s, t, j)
    requires b in Apply(c, s, t).actors && Doomed(Apply(c, s, t).actors[b], j)
    ensures b in s.actors && Doomed(s.actors[b], j)
  {
    hide RemoveFirst, Before, NotBefore, Due, Jids, Push, Lease, Add;
  }

  // ---- the steps that charge

  /** The one goroutine that has the job is alone with it. */
  lemma Alone(c: Config, s: State, a: Actor, j: Jid, q: string)
    requires Single(CensusOf(s, j)) && Batched(c, s, j, q) && Roles(s)
    requires a in s.actors && Pre(s.actors[a], j) + Hand(s.actors[a], j) > 0
    ensures CensusOf(s, j).at.queued == 0 && forall e :: e in s.store.retry ==> e.jid != j
    ensures forall b :: b in s.actors && b != a ==> !Scheduled(s.actors[b], j) && !Runs(c, b, s.actors[b], j, q)
    ensures IsLoopFor(c, s, a, q) ==> DueIn(s.actors[a], j) == 0
  {
    MapSumAtLeast(s.actors, PreOf(j), a, a);
    MapSumAtLeast(s.actors, HandOf(j), a, a);
    TallyPositive(s.store.retry, j);
    hide MapSum, Tally;
    forall b | b in s.actors && b != a
      ensures !Scheduled(s.actors[b], j) && !Runs(c, b, s.actors[b], j, q)
    {
      MapSumAtLeast(s.actors, PreOf(j), a, b);
      MapSumAtLeast(s.actors, HandOf(j), a, b);
      MapSumAtLeast(s.actors, PreOf(j), b, b);
      MapSumAtLeast(s.actors, HandOf(j), b, b);
      NotElsewhere(c, s, b, j, q);
    }
  }

  lemma NotElsewhere(c: Config, s: State, b: Actor, j: Jid, q: string)
    requires b in s.actors && Fits(b.role, s.actors[b]) && Pre(s.actors[b], j) == 0 && Hand(s.actors[b], j) == 0
    requires IsLoopFor(c, s, b, q) ==> DueIn(s.actors[b], j) == 0
    ensures !Scheduled(s.actors[b], j) && !Runs(c, b, s.actors[b], j, q)
  {
    match s.actors[b]
    case Batch(due) => CountPositive(due, j);
    case Carrying(_, due) => CountPositive(due, j);
    case Refused(_, due, _) => CountPositive(due, j);
    case Reaped(orphans) => CountPositive(orphans, j);
    case _ =>
  }

  /** Everything else that was ever scheduled for the job is gone when the one goroutine that has it
      schedules it again. */
  lemma TimeWhenAlone(c: Config, s: State, a: Actor, j: Jid, q: string, due: int)
    requires Single(CensusOf(s, j)) && Batched(c, s, j, q) && Roles(s)
    requires a in s.actors && (Scheduled(s.actors[a], j) || Doomed(s.actors[a], j))
    requires Scheduled(s.actors[a], j) ==> s.actors[a].to.at >= due
    ensures NotBeforeTime(c, s, j, q, due)
  {
    Alone(c, s, a, j, q);
    assert Fits(a.role, s.actors[a]);
    if s.actors[a].Refused? {
      CountPositive(s.actors[a].due, j);
    }
    hide CensusOf, Count;
  }

  /** A goroutine that charges the job was ready to run it, so the waits so far have passed. */
  lemma ChargedLate(c: Config, s: State, t: Step, j: Jid, q: string)
    requires Enabled(c, s, t) && Charges(s, t, j) && j in s.jobs && Paced(c, s, j, q)
    ensures s.jobs[j].charged.Some? ==> s.now >= PaidOff(s.jobs[j])
  {
    hide CensusOf, DeadBound;
    assert Runs(c, t.actor, s.actors[t.actor], j, q);
    assert s.jobs[j].charged.Some? ==> Ready(c, s, j, q);
  }

  /** What a charge makes of the record and of the goroutine. */
  lemma ChargeEffect(c: Config, s: State, t: Step, j: Jid)
    requires Enabled(c, s, t) && Charges(s, t, j) && j in s.jobs
    ensures var s' := Apply(c, s, t);
      var r, r' := s.jobs[j], s'.jobs[j];
      && j in s'.jobs && t.actor in s'.actors && s'.now == s.now && r'.retryCount == r.retryCount + 1
      && r'.retry == r.retry && r'.imposed >= r.imposed
      && r'.charged == (if r.charged.Some? then r.charged else Some(s.now))
      && (if r.retryCount + 1 <= r.retry
          then Scheduled(s'.actors[t.actor], j) && s'.actors[t.actor].to.at == s.now + (r'.imposed - r.imposed)
          else Doomed(s'.actors[t.actor], j) && r'.imposed == r.imposed)
  {
    hide Delay;
  }

  /** After a charge the goroutine that made it holds the job until all imposed waits have passed. */
  lemma ChargeTimes(c: Config, s: State, t: Step, j: Jid, q: string)
    requires Enabled(c, s, t) && Charges(s, t, j) && j in s.jobs && Priced(s, j) && Paced(c, s, j, q)
    ensures var s' := Apply(c, s, t);
      && j in s'.jobs && t.actor in s'.actors && s'.jobs[j].charged.Some?
      && (if s'.jobs[j].retryCount <= s'.jobs[j].retry
          then Scheduled(s'.actors[t.actor], j) && s'.actors[t.actor].to.at >= PaidOff(s'.jobs[j])
          else Doomed(s'.actors[t.actor], j) && s'.now >= PaidOff(s'.jobs[j]))
  {
    ChargeEffect(c, s, t, j);
    ChargedLate(c, s, t, j, q);
    if s.jobs[j].charged == None {
      NothingImposed(s, j);
    }
    hide Apply, Enabled, Charges, Priced, Paced, Scheduled, Doomed;
  }

  lemma PacedAfterCharge(c: Config, s: State, t: Step, j: Jid, q: string)
    requires Enabled(c, s, t) && Charges(s, t, j) && j in s.jobs && Priced(s, j) && Paced(c, s, j, q)
    requires Orderly(c, Apply(c, s, t), j, q)
    ensures Paced(c, Apply(c, s, t), j, q)
  {
    var s' := Apply(c, s, t);
    ChargeTimes(c, s, t, j, q);
    NotBoth(s', t.actor, j);
    hide Apply, Enabled, Charges, CensusOf, Priced, NotBeforeTime, Scheduled, Doomed, DeadBound, Batched, Roles;
    TimeWhenAlone(c, s', t.actor, j, q, PaidOff(s'.jobs[j]));
    if s'.jobs[j].retryCount <= s'.jobs[j].retry {
      NotYetDead(s', t.actor, j);
    }
  }

  lemma NotBoth(s: State, a: Actor, j: Jid)
    ensures a in s.actors && Doomed(s.actors[a], j) ==> !Scheduled(s.actors[a], j)
  {
  }

  lemma NothingImposed(s: State, j: Jid)
    requires j in s.jobs && Priced(s, j) && s.jobs[j].charged == None
    ensures s.jobs[j].imposed == 0
  {
  }

  lemma NotYetDead(s: State, a: Actor, j: Jid)
    requires a in s.actors && Scheduled(s.actors[a], j) && Single(CensusOf(s, j))
    ensures !DeadBound(s, j)
  {
    hide CensusOf, DeadBound;
    HolderNotDeadBound(s, a, j);
  }

  // ---- all steps

  lemma PacedWhenNew(c: Config, s: State, t: Step, j: Jid, q: string)
    requires Enabled(c, s, t) && j !in s.jobs && Nowhere(CensusOf(s, j))
    ensures Paced(c, Apply(c, s, t), j, q)
  {
    StepHistory(c, s, t, j);
    if t.Submit? && t.jid == j {
      CensusStep(c, s, t, j);
      hide MapSum;
      if a :| a in s.actors && Doomed(s.actors[a], j) {
        MapSumAtLeast(s.actors, PreOf(j), a, a);
        MapSumAtLeast(s.actors, HandOf(j), a, a);
      }
    }
  }

  lemma PacedWhenKept(c: Config, s: State, t: Step, j: Jid, q: string)
    requires Enabled(c, s, t) && Rested(s, t, j) && Homed(s, j, q) && !Charges(s, t, j)
    requires j in s.jobs && Paced(c, s, j, q)
    requires j in Apply(c, s, t).jobs && Apply(c, s, t).jobs[j] == s.jobs[j]
    ensures Paced(c, Apply(c, s, t), j, q)
  {
    ClockAdvances(c, s, t);
    assert !(t.Submit? && t.jid == j);
    hide Apply, Enabled, DeadBound, NotBeforeTime, Recoverable, Taken, Charges, Homed;
    var r := s.jobs[j];
    if r.charged.Some? {
      TimeStep(c, s, t, j, q, PaidOff(r));
    }
    if DeadBound(Apply(c, s, t), j) {
      DeadBoundFrom(c, s, t, j);
    }
  }

  lemma OnlyChargesChange(c: Config, s: State, t: Step, j: Jid)
    requires Enabled(c, s, t) && j in s.jobs && !Charges(s, t, j)
    ensures j in Apply(c, s, t).jobs && Apply(c, s, t).jobs[j] == s.jobs[j]
  {
    RecordChange(c, s, t, j);
    hide Apply;
  }

  lemma PacedStep(c: Config, s: State, t: Step, j: Jid, q: string)
    requires Enabled(c, s, t) && Rested(s, t, j) && Orderly(c, s, j, q) && Orderly(c, Apply(c, s, t), j, q)
    requires Priced(s, j) && Paced(c, s, j, q)
    ensures Paced(c, Apply(c, s, t), j, q)
  {
    assert Homed(s, j, q) && (j !in s.jobs ==> Nowhere(CensusOf(s, j)));
    hide Apply, Enabled, Orderly, Paced, Priced, Rested, CensusOf, Charges, Nowhere, Homed;
    if j !in s.jobs {
      PacedWhenNew(c, s, t, j, q);
    } else if Charges(s, t, j) {
      PacedAfterCharge(c, s, t, j, q);
    } else {
      OnlyChargesChange(c, s, t, j);
      PacedWhenKept(c, s, t, j, q);
    }
  }

  lemma {:induction false} PacedRun(c: Config, s: State, run: seq<Step>, j: Jid, q: string)
    requires Valid(c, s, run) && RestedRun(c, s, run, j) && Homed(Final(c, s, run), j, q)
    requires Orderly(c, s, j, q) && Priced(s, j) && Paced(c, s, j, q)
    ensures Paced(c, Final(c, s, run), j, q) && Priced(Final(c, s, run), j)
    decreases |run|
  {
    if run == [] {
    } else {
      assert Harmless(s, run[0], j);
      hide Apply, Enabled, Orderly, Priced, Paced, Rested, Harmless, Homed;
      HomedFrom(c, Apply(c, s, run[0]), run[1..], j, q);
      OrderlyStep(c, s, run[0], j, q);
      PacedStep(c, s, run[0], j, q);
      PricedStep(c, s, run[0], j);
      PacedRun(c, Apply(c, s, run[0]), run[1..], j, q);
    }
  }

  /** A job is in the dead set no sooner than all the waits its failures and refusals imposed, counted from the
      first of them. Those are at least the lesser of its delay and a minute for every attempt it was submitted
      with; and without refusals they are exactly `2^(retry+1) - 2` seconds. */
  lemma BackoffFloor(c: Config, s: State, run: seq<Step>, j: Jid, q: string, retry: nat)
    requires Init(s) && Valid(c, s, run) && Submit(j, q, retry) in run && j in Final(c, s, run).store.dead
    requires LoopsApart(c, s, q) && RestedRun(c, s, run, j)
    ensures var l := LedgerOf(c, s, run, j, retry, NOTHING);
      && l.first.Some? && Final(c, s, run).now >= l.first.value + l.waits
      && l.waits >= LeastWait(retry)
      && (l.refusals == 0 ==> l.waits == (Pow2(retry + 1) - 2) * 1_000_000_000)
  {
    hide Valid, RestedRun, Priced, Paced, Init, LeastWait, Orderly, Accountable, LoopsApart, Pow2;
    PacedInit(c, s, j, q);
    hide Final, LedgerOf;
    RecordTellsRun(c, s, run, j, q, retry);
    PacedRun(c, s, run, j, q);
    DeadIsLate(c, Final(c, s, run), j, q);
  }

  lemma PacedInit(c: Config, s: State, j: Jid, q: string)
    requires Init(s) && LoopsApart(c, s, q)
    ensures Orderly(c, s, j, q) && Priced(s, j) && Paced(c, s, j, q) && j !in s.jobs
  {
    OrderlyInit(c, s, j, q);
    hide Orderly;
  }

  lemma DeadIsLate(c: Config, s: State, j: Jid, q: string)
    requires j in s.jobs && j in s.store.dead && Priced(s, j) && Paced(c, s, j, q)
    ensures var r := s.jobs[j];
      && r.charged.Some? && s.now >= r.charged.value + r.imposed && r.imposed >= LeastWait(r.retry)
      && (r.refusals == 0 ==> r.imposed == (Pow2(r.retry + 1) - 2) * SECOND)
  {
    CountPositive(s.store.dead, j);
    hide LeastWait, NotBeforeTime, MapSum;
  }

  /** A reap that brings the job back keeps its pace if and only if the waits imposed so far have passed. */
  lemma ReapPacedIff(c: Config, s: State, t: Step, j: Jid, q: string)
    requires Enabled(c, s, t) && Orderly(c, s, j, q) && Paced(c, s, j, q) && j in s.jobs
    requires Recoverable(s, t, j) && Taken(s, t, j) > 0 && s.jobs[j].charged.Some?
    ensures Paced(c, Apply(c, s, t), j, q) <==> s.now >= PaidOff(s.jobs[j])
  {
    var s' := Apply(c, s, t);
    ReapedByHand(c, s, t, j);
    ReapRuns(c, s, t, j, q);
    if s.now >= PaidOff(s.jobs[j]) {
      assert !Charges(s, t, j);
      PacedWhenKept(c, s, t, j, q);
    }
    hide Apply, Enabled, Orderly, Recoverable, Taken, DeadBound, CensusOf, Runs;
  }

  lemma ReapRuns(c: Config, s: State, t: Step, j: Jid, q: string)
    requires Enabled(c, s, t) && t.ReapTick? && Taken(s, t, j) > 0
    ensures var s' := Apply(c, s, t);
      s'.now == s.now && t.actor in s'.actors && Runs(c, t.actor, s'.actors[t.actor], j, q)
  {
    TallyJids(Before(s.store.processing, s.now), j);
    CountPositive(Jids(Before(s.store.processing, s.now)), j);
    hide Before, NotBefore, Jids, Tally, Count;
  }
}
