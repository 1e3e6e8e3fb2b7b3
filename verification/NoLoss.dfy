/** No accepted job is lost, whatever expires, is leased twice or crashes. */
module NoLoss {
  import opened Sequences
  import opened Payload
  import opened MemoryBroker
  import opened Lifecycle
  import opened LifecycleCensus

  /** The places a job can be kept in: broker sets and loop hands. */
  function Placements(n: Census): int {
    n.at.queued + n.at.leased + n.at.retrying + n.at.dead + n.go.hand
  }

  /** An ack may remove a lease that is not the acker's own, so "somewhere" is not inductive; one
      placement beyond those that un-acked placers may still take away is. */
  predicate Covered(n: Census, succeeded: bool, dropped: bool) {
    && (n.go.won > 0 ==> succeeded)
    && (succeeded || dropped || Placements(n) >= 1 + n.go.owed)
  }

  ghost predicate Kept(s: State, j: Jid) {
    if j !in s.jobs then Nowhere(CensusOf(s, j))
    else Covered(CensusOf(s, j), j in s.succeeded, j in s.dropped)
  }

  /** The steps that let go of job `j`: its queue is deleted, the reaper takes one of its two drop
      branches, or a maintenance loop dies with the job in its hands. */
  predicate Drops(c: Config, s: State, t: Step, j: Jid)
    requires Enabled(c, s, t)
  {
    match t
    case DeleteQueue(q) => j in Waiting(s.store, q)
    case ReapNext(a) => s.actors[a].orphans != [] && s.actors[a].orphans[0] == j && !Reclaims(c, s, a)
    case Crash(a) => j in InHand(s.actors[a])
    case _ => false
  }

  ghost predicate NeverDrops(c: Config, s: State, run: seq<Step>, j: Jid)
    requires Valid(c, s, run)
    decreases |run|
  {
    run == [] || (!Drops(c, s, run[0], j) && NeverDrops(c, Apply(c, s, run[0]), run[1..], j))
  }

  lemma {:induction false} InitialCensus(s: State, j: Jid)
    requires Init(s)
    ensures Nowhere(CensusOf(s, j))
  {
    if a :| a in s.actors {
      MapSumOnly(s.actors, PreOf(j), a);
      MapSumOnly(s.actors, WonOf(j), a);
      MapSumOnly(s.actors, OwedOf(j), a);
      MapSumOnly(s.actors, HandOf(j), a);
      MapSumOnly(s.actors, DueOf(j), a);
    } else {
      assert s.actors == map[];
    }
  }

  /** Only three kinds of steps touch the records, and three the history of drops. */
  lemma JobsUntouched(c: Config, s: State, t: Step)
    requires Enabled(c, s, t) && !t.Submit? && !t.Record? && !t.RetryEnqueue?
    ensures Apply(c, s, t).jobs == s.jobs
  {
    hide RemoveFirst, Before, NotBefore, Due, Jids, Push, Lease, Add;
  }

  lemma DropsUntouched(c: Config, s: State, t: Step)
    requires Enabled(c, s, t) && !t.DeleteQueue? && !t.ReapNext? && !t.Crash?
    ensures Apply(c, s, t).dropped == s.dropped
  {
    hide RemoveFirst, Before, NotBefore, Due, Jids, Push, Lease, Add;
  }

  lemma StepHistory(c: Config, s: State, t: Step, j: Jid)
    requires Enabled(c, s, t)
    ensures j in Apply(c, s, t).dropped <==> j in s.dropped || Drops(c, s, t, j)
    ensures s.jobs.Keys <= Apply(c, s, t).jobs.Keys
    ensures j in Apply(c, s, t).jobs && j !in s.jobs ==> t.Submit? && t.jid == j
  {
    if !t.DeleteQueue? && !t.ReapNext? && !t.Crash? {
      DropsUntouched(c, s, t);
    }
    if t.Submit? || t.Record? || t.RetryEnqueue? {
      hide Push, Delay;
    } else {
      JobsUntouched(c, s, t);
      hide RemoveFirst, Before, NotBefore, Due, Jids, Push, Lease, Add;
    }
  }

  /** A JID nobody submitted stays nowhere: every step that would mention it has a count to lower. */
  lemma FreshMoves(c: Config, s: State, t: Step, j: Jid, n: Census)
    requires Enabled(c, s, t) && !(t.Submit? && t.jid == j)
    requires Nowhere(n) && NonNegative(Moved(c, s, t, j, n))
    requires t.RetryTick? ==> Tally(Due(s.store.retry, s.now, RETRY_BATCH), j) == 0
    ensures Nowhere(Moved(c, s, t, j, n))
  {
  }

  lemma FreshStep(c: Config, s: State, t: Step, j: Jid)
    requires Enabled(c, s, t) && !(t.Submit? && t.jid == j)
    requires j !in s.jobs && Nowhere(CensusOf(s, j))
    ensures j !in Apply(c, s, t).jobs && Nowhere(CensusOf(Apply(c, s, t), j))
  {
    CensusStep(c, s, t, j);
    StepHistory(c, s, t, j);
    TallyDue(s.store.retry, s.now, RETRY_BATCH, j);
    hide MapSum, Moved, Apply, Enabled;
    FreshMoves(c, s, t, j, CensusOf(s, j));
  }

  lemma KeptFresh(c: Config, s: State, t: Step, j: Jid)
    requires Enabled(c, s, t) && Kept(s, j) && j !in s.jobs
    ensures Kept(Apply(c, s, t), j)
  {
    hide MapSum;
    if t.Submit? && t.jid == j {
      CensusStep(c, s, t, j);
    } else {
      FreshStep(c, s, t, j);
    }
  }

  ghost predicate NonNegative(n: Census) {
    n.at.queued >= 0 && n.at.leased >= 0 && n.at.retrying >= 0 && n.at.dead >= 0
    && n.go.pre >= 0 && n.go.won >= 0 && n.go.owed >= 0 && n.go.hand >= 0 && n.go.due >= 0
  }

  /** The counting argument, step by step, on the numbers alone. */
  lemma WorkerStepCovers(c: Config, s: State, t: Step, j: Jid, n: Census)
    requires Enabled(c, s, t)
    requires t.Dequeue? || t.PutBack? || t.Return? || t.Place? || t.Ack?
    requires NonNegative(n) && NonNegative(Moved(c, s, t, j, n)) && Covered(n, j in s.succeeded, j in s.dropped)
    ensures Covered(Moved(c, s, t, j, n), j in Apply(c, s, t).succeeded, j in s.dropped)
  {
  }

  lemma LoopStepCovers(c: Config, s: State, t: Step, j: Jid, n: Census)
    requires Enabled(c, s, t)
    requires t.RetryTick? || t.RetryNext? || t.RetryEnqueue? || t.RetryPlace? || t.ReapTick? || t.ReapNext?
    requires NonNegative(n) && Covered(n, j in s.succeeded, j in s.dropped)
    ensures Covered(Moved(c, s, t, j, n), j in s.succeeded, j in Apply(c, s, t).dropped)
  {
  }

  lemma CrashCovers(c: Config, s: State, a: Actor, j: Jid, n: Census)
    requires Enabled(c, s, Crash(a)) && Covered(n, j in s.succeeded, j in s.dropped)
    ensures Covered(Moved(c, s, Crash(a), j, n), j in s.succeeded, j in Apply(c, s, Crash(a)).dropped)
  {
    CountPositive(InHand(s.actors[a]), j);
  }

  lemma KeptByWorker(c: Config, s: State, t: Step, j: Jid)
    requires Enabled(c, s, t) && Kept(s, j) && j in s.jobs
    requires t.Dequeue? || t.PutBack? || t.Return? || t.Place? || t.Ack?
    ensures Kept(Apply(c, s, t), j)
  {
    hide MapSum;
    CensusStep(c, s, t, j);
    WorkerStepCovers(c, s, t, j, CensusOf(s, j));
  }

  lemma KeptByLoop(c: Config, s: State, t: Step, j: Jid)
    requires Enabled(c, s, t) && Kept(s, j) && j in s.jobs
    requires t.RetryTick? || t.RetryNext? || t.RetryEnqueue? || t.RetryPlace? || t.ReapTick? || t.ReapNext?
    ensures Kept(Apply(c, s, t), j)
  {
    hide MapSum;
    CensusStep(c, s, t, j);
    LoopStepCovers(c, s, t, j, CensusOf(s, j));
  }

  lemma KeptByOther(c: Config, s: State, t: Step, j: Jid)
    requires Enabled(c, s, t) && Kept(s, j) && j in s.jobs
    requires !(t.Dequeue? || t.PutBack? || t.Return? || t.Place? || t.Ack?)
    requires !(t.RetryTick? || t.RetryNext? || t.RetryEnqueue? || t.RetryPlace? || t.ReapTick? || t.ReapNext?)
    ensures Kept(Apply(c, s, t), j)
  {
    hide MapSum;
    CensusStep(c, s, t, j);
    match t
    case Crash(a) => CrashCovers(c, s, a, j, CensusOf(s, j));
    case DeleteQueue(q) => CountPositive(Waiting(s.store, q), j);
    case _ =>
  }

  lemma KeptStep(c: Config, s: State, t: Step, j: Jid)
    requires Enabled(c, s, t) && Kept(s, j)
    ensures Kept(Apply(c, s, t), j)
  {
    hide Apply, Enabled, Kept;
    if j !in s.jobs {
      KeptFresh(c, s, t, j);
    } else if t.Dequeue? || t.PutBack? || t.Return? || t.Place? || t.Ack? {
      KeptByWorker(c, s, t, j);
    } else if t.RetryTick? || t.RetryNext? || t.RetryEnqueue? || t.RetryPlace? || t.ReapTick? || t.ReapNext? {
      KeptByLoop(c, s, t, j);
    } else {
      KeptByOther(c, s, t, j);
    }
  }

  lemma {:induction false} KeptRun(c: Config, s: State, run: seq<Step>, j: Jid)
    requires Valid(c, s, run) && Kept(s, j)
    ensures Kept(Final(c, s, run), j)
    ensures s.jobs.Keys <= Final(c, s, run).jobs.Keys
    ensures NeverDrops(c, s, run, j) && j !in s.dropped ==> j !in Final(c, s, run).dropped
    decreases |run|
  {
    hide Apply, Enabled, Drops, Kept;
    if run == [] {
    } else {
      KeptStep(c, s, run[0], j);
      StepHistory(c, s, run[0], j);
      KeptRun(c, Apply(c, s, run[0]), run[1..], j);
    }
  }

  /** Job `j` is in a queue, in the processing, retry or dead set, or in a loop's hands. */
  ghost predicate Somewhere(s: State, j: Jid) {
    || (exists q :: q in s.store.queues && j in s.store.queues[q])
    || (exists e :: e in s.store.processing && e.jid == j)
    || (exists e :: e in s.store.retry && e.jid == j)
    || j in s.store.dead
    || (exists a :: a in s.actors && j in InHand(s.actors[a]))
  }

  lemma PlacedSomewhere(s: State, j: Jid)
    requires Placements(CensusOf(s, j)) > 0
    ensures Somewhere(s, j)
  {
    hide MapSum;
    var n := CensusOf(s, j);
    if n.at.queued > 0 {
      var q := MapSumWitness(s.store.queues, QueuedOf(j));
      CountPositive(s.store.queues[q], j);
    } else if n.at.leased > 0 {
      TallyPositive(s.store.processing, j);
    } else if n.at.retrying > 0 {
      TallyPositive(s.store.retry, j);
    } else if n.at.dead > 0 {
      CountPositive(s.store.dead, j);
    } else {
      var a := MapSumWitness(s.actors, HandOf(j));
      CountPositive(InHand(s.actors[a]), j);
      assert j in InHand(s.actors[a]);
    }
  }

  /** Over every interleaving of any number of processors: a job once accepted has succeeded or is
      still somewhere, unless a step dropped that very job. */
  lemma NoJobLost(c: Config, s: State, run: seq<Step>, j: Jid)
    requires Init(s) && Valid(c, s, run) && NeverDrops(c, s, run, j)
    requires j in Final(c, s, run).jobs
    ensures j in Final(c, s, run).succeeded || Somewhere(Final(c, s, run), j)
  {
    hide MapSum;
    InitialCensus(s, j);
    KeptRun(c, s, run, j);
    var s' := Final(c, s, run);
    if j !in s'.succeeded {
      PlacedSomewhere(s', j);
    }
  }

  /** Every job a goroutine can name was accepted, so no step of the protocol waits for its record. */
  lemma MentionedWasAccepted(s: State, a: Actor, j: Jid)
    requires Kept(s, j) && a in s.actors
    requires Pre(s.actors[a], j) + Won(s.actors[a], j) + Owed(s.actors[a], j)
             + Hand(s.actors[a], j) + DueIn(s.actors[a], j) > 0
    ensures j in s.jobs
  {
    hide MapSum;
    MapSumAtLeast(s.actors, PreOf(j), a, a);
    MapSumAtLeast(s.actors, WonOf(j), a, a);
    MapSumAtLeast(s.actors, OwedOf(j), a, a);
    MapSumAtLeast(s.actors, HandOf(j), a, a);
    MapSumAtLeast(s.actors, DueOf(j), a, a);
  }

  // ---- a run in which the job really is lost

  const F := Actor(0, Fetcher)
  const W := Actor(0, Worker(0))
  const R := Actor(0, Reaper)

  /** A handler ends its worker's goroutine; shutdown begins between the reaper's removal of the orphan and
      its re-enqueue, which the cancelled context refuses. */
  function LosingRun(start: int, j: Jid, q: string): seq<Step> {
    [Submit(j, q, 5), Poll(F, q), Dequeue(F), Handoff(F, W), Crash(W),
     Tick(start + LEASE + 1), ReapTick(R), Cancel(0), ReapNext(R)]
  }

  ghost predicate Gone(s: State, j: Jid) {
    j in s.jobs && j !in s.succeeded && !Somewhere(s, j)
  }

  lemma FirstStep(c: Config, s: State, t: Step, rest: seq<Step>) returns (run: seq<Step>)
    requires Enabled(c, s, t) && Valid(c, Apply(c, s, t), rest)
    ensures run == [t] + rest && Valid(c, s, run) && Final(c, s, run) == Final(c, Apply(c, s, t), rest)
  {
    hide Apply, Enabled;
    run := [t] + rest;
    assert run[1..] == rest;
  }

  /** An orphan in the reaper's hands after the cancellation. */
  lemma OrphanDropped(c: Config, s: State, j: Jid) returns (run: seq<Step>)
    requires s.actors.Keys == {F, W, R} && s.actors[F] == Idle && s.actors[W] == Crashed && s.actors[R] == Reaped([j])
    requires j in s.jobs && j !in s.succeeded && 0 in s.cancelled
    requires s.store.processing == [] && s.store.retry == [] && s.store.dead == []
    requires forall q :: q in s.store.queues ==> s.store.queues[q] == []
    ensures run == [ReapNext(R)] && Valid(c, s, run) && Gone(Final(c, s, run), j)
  {
    run := FirstStep(c, s, ReapNext(R), []);
    var s' := NextOrphan(c, s, R);
    assert s'.actors[R] == Reaped([]) && s'.actors[F] == Idle && s'.actors[W] == Crashed;
  }

  lemma OneExpired(s: seq<Timed>, now: int)
    requires |s| == 1 && s[0].at < now
    ensures Before(s, now) == s && NotBefore(s, now) == [] && Jids(s) == [s[0].jid]
  {
    assert s[1..] == [];
  }

  predicate OnlyLeased(s: Store, j: Jid) {
    && |s.processing| == 1 && s.processing[0].jid == j && s.retry == [] && s.dead == []
    && forall q :: q in s.queues ==> s.queues[q] == []
  }

  /** An expired lease whose holder is gone. */
  lemma OrphanReaped(c: Config, s: State, j: Jid) returns (run: seq<Step>)
    requires s.actors.Keys == {F, W, R} && s.actors[F] == Idle && s.actors[W] == Crashed && s.actors[R] == Idle
    requires j in s.jobs && j !in s.succeeded && OnlyLeased(s.store, j) && s.store.processing[0].at < s.now
    ensures run == [ReapTick(R), Cancel(0), ReapNext(R)] && Valid(c, s, run) && Gone(Final(c, s, run), j)
  {
    hide Before, NotBefore, Jids, Gone;
    OneExpired(s.store.processing, s.now);
    var s1 := OrphansTaken(s, R);
    run := OrphanDropped(c, s1.(cancelled := s1.cancelled + {0}), j);
    run := FirstStep(c, s1, Cancel(0), run);
    run := FirstStep(c, s, ReapTick(R), run);
  }

  /** A worker that dies with the only copy. */
  lemma WorkerLost(c: Config, s: State, j: Jid) returns (run: seq<Step>)
    requires s.actors.Keys == {F, W, R} && s.actors[F] == Idle && s.actors[W].Executing? && s.actors[R] == Idle
    requires j in s.jobs && j !in s.succeeded && OnlyLeased(s.store, j) && s.store.processing[0].at == s.now + LEASE
    ensures run == [Crash(W), Tick(s.now + LEASE + 1), ReapTick(R), Cancel(0), ReapNext(R)]
    ensures Valid(c, s, run) && Gone(Final(c, s, run), j)
  {
    hide Gone;
    var s1 := Died(s, W);
    run := OrphanReaped(c, s1.(now := s.now + LEASE + 1), j);
    run := FirstStep(c, s1, Tick(s.now + LEASE + 1), run);
    run := FirstStep(c, s, Crash(W), run);
  }

  lemma HolderLost(c: Config, s: State, j: Jid) returns (run: seq<Step>)
    requires s.actors.Keys == {F, W, R} && s.actors[F].Holding? && s.actors[W] == Idle && s.actors[R] == Idle
    requires j in s.jobs && j !in s.succeeded && OnlyLeased(s.store, j) && s.store.processing[0].at == s.now + LEASE
    ensures run == [Handoff(F, W), Crash(W), Tick(s.now + LEASE + 1), ReapTick(R), Cancel(0), ReapNext(R)]
    ensures Valid(c, s, run) && Gone(Final(c, s, run), j)
  {
    hide Gone, OnlyLeased;
    run := WorkerLost(c, HandedOff(s, F, W), j);
    run := FirstStep(c, s, Handoff(F, W), run);
  }

  lemma LeasedOnly(s: State, j: Jid, q: string)
    requires F in s.actors && s.actors[F] == Polling(q)
    requires s.store.queues == map[q := [j]] && s.store.processing == s.store.retry == [] && s.store.dead == []
    ensures OnlyLeased(Leased(s, F).store, j) && Leased(s, F).store.processing[0].at == s.now + LEASE
  {
  }

  lemma QueuedLost(c: Config, s: State, j: Jid, q: string) returns (run: seq<Step>)
    requires s.actors.Keys == {F, W, R} && s.actors[F] == Idle && s.actors[W] == Idle && s.actors[R] == Idle
    requires Known(c, F, q) && 0 !in s.cancelled && j in s.jobs && j !in s.succeeded
    requires s.store.queues == map[q := [j]] && s.store.processing == s.store.retry == [] && s.store.dead == []
    ensures run == LosingRun(s.now, j, q)[1..] && Valid(c, s, run) && Gone(Final(c, s, run), j)
  {
    hide Gone, OnlyLeased;
    var s1 := Move(s, F, Polling(q));
    LeasedOnly(s1, j, q);
    run := HolderLost(c, Leased(s1, F), j);
    run := FirstStep(c, s1, Dequeue(F), run);
    run := FirstStep(c, s, Poll(F, q), run);
  }

  lemma LosingRunLoses(c: Config, s: State, j: Jid, q: string)
    requires Init(s) && s.actors.Keys == {F, W, R} && Known(c, F, q)
    ensures Valid(c, s, LosingRun(s.now, j, q)) && Gone(Final(c, s, LosingRun(s.now, j, q)), j)
  {
    hide Gone;
    assert Waiting(s.store, q) + [j] == [j];
    var run := QueuedLost(c, Submitted(s, j, q, 5), j, q);
    run := FirstStep(c, s, Submit(j, q, 5), run);
    assert run == LosingRun(s.now, j, q);
  }
}
