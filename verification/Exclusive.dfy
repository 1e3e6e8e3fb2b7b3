/** Exclusive execution: one copy of each job, whatever crashes, as long as no two retry loops serve its
    queue and no reap takes the lease of a job that somebody still has. */
module Exclusive {
  import opened Options
  import opened Sequences
  import opened Payload
  import opened MemoryBroker
  import opened Lifecycle
  import opened LifecycleCensus
  import opened NoLoss
  import opened Survival
  import opened Shutdown

  /** The places from which a job can still be run or kept. */
  function Copies(n: Census): int {
    n.at.queued + n.at.retrying + n.at.dead + n.go.hand + n.go.pre
  }

  predicate Single(n: Census) {
    Copies(n) <= 1
  }

  // ---- what reaps take

  /** How many leases of the job the step finds expired and takes. */
  function Taken(s: State, t: Step, j: Jid): nat {
    if t.ReapTick? then Tally(Before(s.store.processing, s.now), j) else 0
  }

  /** A reap takes a lease of the job only if it is one lease and nobody has a copy any more: the lease of a
      crashed goroutine, or of a success that has still to be acked. */
  ghost predicate Harmless(s: State, t: Step, j: Jid) {
    Taken(s, t, j) > 0 ==> Taken(s, t, j) == 1 && Copies(CensusOf(s, j)) == 0
  }

  ghost predicate HarmlessRun(c: Config, s: State, run: seq<Step>, j: Jid)
    requires Valid(c, s, run)
    decreases |run|
  {
    run == [] || (Harmless(s, run[0], j) && HarmlessRun(c, Apply(c, s, run[0]), run[1..], j))
  }

  /** No reap takes a lease of the job at all. */
  ghost predicate UntakenRun(c: Config, s: State, run: seq<Step>, j: Jid)
    requires Valid(c, s, run)
    decreases |run|
  {
    run == [] || (Taken(s, run[0], j) == 0 && UntakenRun(c, Apply(c, s, run[0]), run[1..], j))
  }

  lemma {:induction false} UntakenIsHarmless(c: Config, s: State, run: seq<Step>, j: Jid)
    requires Valid(c, s, run) && UntakenRun(c, s, run, j)
    ensures HarmlessRun(c, s, run, j)
    decreases |run|
  {
    hide Apply, Enabled, Taken;
    if run == [] {
    } else {
      UntakenIsHarmless(c, Apply(c, s, run[0]), run[1..], j);
    }
  }

  // ---- which loops serve a queue

  predicate IsLoopFor(c: Config, s: State, a: Actor, q: string) {
    a in s.actors && a.role == RetryLoop && Known(c, a, q)
  }

  /** At most one retry loop serves the queue, as with one processor. */
  ghost predicate LoopsApart(c: Config, s: State, q: string) {
    forall a, b :: IsLoopFor(c, s, a, q) && IsLoopFor(c, s, b, q) ==> a == b
  }

  /** The batch of a loop that serves the queue mentions the job no more often than the retry set does. Other
      loops skip it. */
  ghost predicate Batched(c: Config, s: State, j: Jid, q: string) {
    forall a :: IsLoopFor(c, s, a, q) ==> DueIn(s.actors[a], j) <= CensusOf(s, j).at.retrying
  }

  predicate Homed(s: State, j: Jid, q: string) {
    j in s.jobs ==> s.jobs[j].queue == q
  }

  ghost predicate Orderly(c: Config, s: State, j: Jid, q: string) {
    && LoopsApart(c, s, q) && Roles(s) && Homed(s, j, q)
    && (j !in s.jobs ==> Nowhere(CensusOf(s, j)))
    && Single(CensusOf(s, j)) && Batched(c, s, j, q)
  }

  /** Every lease is that of a goroutine which will still ack it. */
  predicate Matched(n: Census) {
    n.at.leased == n.go.pre + n.go.won + n.go.owed
  }

  function LastOf(s: seq<Timed>, j: Jid): Option<Timed> {
    if s == [] then None
    else
      var later := LastOf(s[1..], j);
      if later.Some? then later else if s[0].jid == j then Some(s[0]) else None
  }

  /** Whoever holds the job unplaced owns the last processing entry of its JID. */
  ghost predicate HolderLast(actors: map<Actor, Phase>, leases: seq<Timed>, j: Jid) {
    forall a :: a in actors && Pre(actors[a], j) > 0 ==> LastOf(leases, j) == Some(actors[a].lease)
  }

  /** And, as long as no goroutine has crashed and no lease is taken, the leases are exactly accounted for. */
  ghost predicate Accountable(s: State, j: Jid) {
    Matched(CensusOf(s, j)) && HolderLast(s.actors, s.store.processing, j)
  }

  // ---- batches

  /** The loop takes the job out of the retry set. */
  predicate Takes(c: Config, s: State, t: Step, j: Jid)
    requires Enabled(c, s, t)
  {
    && t.RetryNext? && s.actors[t.actor].due != [] && s.actors[t.actor].due[0] == j
    && Known(c, t.actor, s.jobs[j].queue)
  }

  /** What is taken out of the retry set is still in it. */
  lemma TakesWhatIsThere(c: Config, s: State, t: Step, j: Jid, q: string)
    requires Enabled(c, s, t) && Takes(c, s, t, j) && Roles(s) && Homed(s, j, q) && Batched(c, s, j, q)
    ensures CensusOf(s, j).at.retrying > 0 && IsLoopFor(c, s, t.actor, q)
  {
    hide CensusOf;
    assert Fits(t.actor.role, s.actors[t.actor]);
    assert DueIn(s.actors[t.actor], j) >= 1;
  }

  /** A batch shrinks, and loses what is taken from it, except when it is read anew. */
  lemma BatchShrinks(c: Config, s: State, t: Step, a: Actor, j: Jid)
    requires Enabled(c, s, t) && a in Apply(c, s, t).actors && t != RetryTick(a)
    ensures a in s.actors && DueIn(Apply(c, s, t).actors[a], j) <= DueIn(s.actors[a], j)
    ensures Takes(c, s, t, j) && t.actor == a ==>
      DueIn(Apply(c, s, t).actors[a], j) == DueIn(s.actors[a], j) - 1
  {
    if t.RetryTick? || t.RetryNext? || t.RetryEnqueue? || t.RetryPlace? {
      hide RemoveFirst, Due, Jids, Push, Add, Delay;
    } else {
      NoBatchElsewhere(c, s, t, a);
      hide Apply, Enabled;
    }
  }

  lemma NoBatchElsewhere(c: Config, s: State, t: Step, a: Actor)
    requires Enabled(c, s, t) && !t.RetryTick? && !t.RetryNext? && !t.RetryEnqueue? && !t.RetryPlace?
    requires a in Apply(c, s, t).actors
    ensures a in s.actors
    ensures var p := Apply(c, s, t).actors[a];
      p == s.actors[a] || !(p.Batch? || p.Carrying? || p.Refused?)
  {
    hide RemoveFirst, Before, NotBefore, Jids, Push, Lease, Add, Delay;
  }

  lemma FreshBatch(c: Config, s: State, a: Actor, j: Jid)
    requires Enabled(c, s, RetryTick(a))
    ensures DueIn(Apply(c, s, RetryTick(a)).actors[a], j) <= Tally(s.store.retry, j)
  {
    TallyJids(Due(s.store.retry, s.now, RETRY_BATCH), j);
    TallyDue(s.store.retry, s.now, RETRY_BATCH, j);
  }

  lemma RetryingMoves(c: Config, s: State, t: Step, j: Jid, n: Census)
    requires Enabled(c, s, t)
    ensures Moved(c, s, t, j, n).at.retrying >= n.at.retrying - (if Takes(c, s, t, j) then 1 else 0)
  {
    hide Before, NotBefore, Due, Count, Tally;
  }

  lemma BatchedStep(c: Config, s: State, t: Step, j: Jid, q: string)
    requires Enabled(c, s, t) && Orderly(c, s, j, q)
    ensures Batched(c, Apply(c, s, t), j, q)
  {
    CensusStep(c, s, t, j);
    RetryingMoves(c, s, t, j, CensusOf(s, j));
    if Takes(c, s, t, j) {
      TakesWhatIsThere(c, s, t, j, q);
    }
    assert CensusOf(s, j).at.retrying == Tally(s.store.retry, j);
    hide Apply, Enabled, CensusOf, Moved, Roles, Single, Nowhere, Takes, DueIn;
    var s' := Apply(c, s, t);
    forall a | IsLoopFor(c, s', a, q)
      ensures DueIn(s'.actors[a], j) <= CensusOf(s', j).at.retrying
    {
      if t == RetryTick(a) {
        assert !Takes(c, s, t, j) by { TickTakesNothing(c, s, t, j); }
        FreshBatch(c, s, a, j);
      } else {
        BatchShrinks(c, s, t, a, j);
        assert IsLoopFor(c, s, a, q);
      }
    }
  }

  lemma TickTakesNothing(c: Config, s: State, t: Step, j: Jid)
    requires Enabled(c, s, t) && t.RetryTick?
    ensures !Takes(c, s, t, j)
  {
  }

  // ---- copies

  /** No step but the submission of the job and a reap makes another copy. */
  lemma CopiesByLease(c: Config, s: State, t: Step, j: Jid, n: Census)
    requires Enabled(c, s, t)
    requires t.Dequeue? || t.PutBack? || t.Return? || t.Place? || t.Ack?
    ensures Copies(Moved(c, s, t, j, n)) <= Copies(n)
  {
  }

  lemma CopiesByLoop(c: Config, s: State, t: Step, j: Jid, n: Census)
    requires Enabled(c, s, t)
    requires t.RetryTick? || t.RetryNext? || t.RetryEnqueue? || t.RetryPlace? || t.ReapNext?
    requires Takes(c, s, t, j) ==> n.at.retrying > 0
    ensures Copies(Moved(c, s, t, j, n)) <= Copies(n)
  {
    hide Due, Tally;
  }

  lemma CopiesByReap(c: Config, s: State, t: Step, j: Jid, n: Census)
    requires Enabled(c, s, t) && t.ReapTick?
    ensures Copies(Moved(c, s, t, j, n)) == Copies(n) + Taken(s, t, j)
  {
    hide Before, Tally;
  }

  lemma CopiesByOther(c: Config, s: State, t: Step, j: Jid, n: Census)
    requires Enabled(c, s, t) && !(t.Submit? && t.jid == j)
    requires || t.Tick? || t.Submit? || t.Cancel? || t.Close? || t.DeleteQueue? || t.Poll? || t.PollTimeout?
             || t.Handoff? || t.Interrupt? || t.Record? || t.Exit? || t.Crash?
    ensures Copies(Moved(c, s, t, j, n)) <= Copies(n)
  {
    hide Enabled;
  }

  lemma CopiesMoved(c: Config, s: State, t: Step, j: Jid, n: Census)
    requires Enabled(c, s, t) && !(t.Submit? && t.jid == j) && (Takes(c, s, t, j) ==> n.at.retrying > 0)
    ensures Copies(Moved(c, s, t, j, n)) <= Copies(n) + Taken(s, t, j)
    ensures t.ReapTick? ==> Copies(Moved(c, s, t, j, n)) == Copies(n) + Taken(s, t, j)
  {
    hide Enabled, Moved, Copies, Taken, Takes;
    match t
    case Dequeue(_) | PutBack(_) | Return(_, _) | Place(_) | Ack(_) => CopiesByLease(c, s, t, j, n);
    case RetryTick(_) | RetryNext(_) | RetryEnqueue(_) | RetryPlace(_) | ReapNext(_) => CopiesByLoop(c, s, t, j, n);
    case ReapTick(_) => CopiesByReap(c, s, t, j, n);
    case _ => CopiesByOther(c, s, t, j, n);
  }

  lemma CopiesStep(c: Config, s: State, t: Step, j: Jid, q: string)
    requires Enabled(c, s, t) && Orderly(c, s, j, q) && !(t.Submit? && t.jid == j)
    ensures var n, n' := CensusOf(s, j), CensusOf(Apply(c, s, t), j);
      Copies(n') <= Copies(n) + Taken(s, t, j) && (t.ReapTick? ==> Copies(n') == Copies(n) + Taken(s, t, j))
  {
    CensusStep(c, s, t, j);
    if Takes(c, s, t, j) {
      TakesWhatIsThere(c, s, t, j, q);
    }
    hide Apply, Enabled, CensusOf, Moved, Copies, Roles, Takes, Taken, Batched;
    CopiesMoved(c, s, t, j, CensusOf(s, j));
  }

  lemma SubmittedOnce(c: Config, s: State, t: Step, j: Jid, q: string)
    requires Enabled(c, s, t) && Orderly(c, s, j, q) && t.Submit? && t.jid == j
    ensures Copies(CensusOf(Apply(c, s, t), j)) == 1
  {
    CensusStep(c, s, t, j);
    hide CensusOf, Roles, Batched;
  }

  /** One step keeps the copy single if and only if it is no harmful reap. */
  lemma SingleStepIff(c: Config, s: State, t: Step, j: Jid, q: string)
    requires Enabled(c, s, t) && Orderly(c, s, j, q)
    ensures Single(CensusOf(Apply(c, s, t), j)) <==> Harmless(s, t, j)
  {
    assert CensusOf(s, j).at.queued >= 0;
    if t.Submit? && t.jid == j {
      SubmittedOnce(c, s, t, j, q);
    } else {
      CopiesStep(c, s, t, j, q);
    }
    hide Apply, Enabled, Roles, Batched;
    assert !t.ReapTick? ==> Taken(s, t, j) == 0;
    hide Taken, MapSum;
  }

  // ---- the leases

  lemma MatchedByLease(c: Config, s: State, t: Step, j: Jid, n: Census)
    requires Enabled(c, s, t)
    requires t.Dequeue? || t.PutBack? || t.Return? || t.Place? || t.Ack?
    requires NonNegative(n) && NonNegative(Moved(c, s, t, j, n)) && Matched(n)
    ensures Matched(Moved(c, s, t, j, n))
  {
  }

  lemma MatchedByOther(c: Config, s: State, t: Step, j: Jid, n: Census)
    requires Enabled(c, s, t) && Taken(s, t, j) == 0 && !t.Crash?
    requires !(t.Dequeue? || t.PutBack? || t.Return? || t.Place? || t.Ack?)
    requires Matched(n)
    ensures Matched(Moved(c, s, t, j, n))
  {
    hide Due, Count;
  }

  lemma MatchedStep(c: Config, s: State, t: Step, j: Jid)
    requires Enabled(c, s, t) && Taken(s, t, j) == 0 && !t.Crash? && Matched(CensusOf(s, j))
    ensures Matched(CensusOf(Apply(c, s, t), j))
  {
    CensusStep(c, s, t, j);
    hide Apply, Enabled, CensusOf, Moved, Matched, Taken;
    if t.Dequeue? || t.PutBack? || t.Return? || t.Place? || t.Ack? {
      MatchedByLease(c, s, t, j, CensusOf(s, j));
    } else {
      MatchedByOther(c, s, t, j, CensusOf(s, j));
    }
  }

  // ---- the holder's entry

  lemma {:induction false} LastOfSnoc(s: seq<Timed>, e: Timed, j: Jid)
    ensures LastOf(s + [e], j) == if e.jid == j then Some(e) else LastOf(s, j)
  {
    if s == [] {
      assert s + [e] == [e] && [e][1..] == [];
    } else {
      LastOfSnoc(s[1..], e, j);
      assert (s + [e])[1..] == s[1..] + [e];
    }
  }

  lemma {:induction false} LastOfSome(s: seq<Timed>, j: Jid)
    ensures LastOf(s, j).Some? <==> Tally(s, j) > 0
  {
    if s == [] {
    } else {
      LastOfSome(s[1..], j);
    }
  }

  lemma {:induction false} LastOfRemoveFirst(s: seq<Timed>, k: Jid, j: Jid)
    ensures k != j || Tally(s, j) >= 2 ==> LastOf(RemoveFirst(s, k), j) == LastOf(s, j)
  {
    if s == [] {
    } else {
      if s[0].jid == k {
        LastOfSome(s[1..], j);
      } else {
        LastOfRemoveFirst(s[1..], k, j);
        assert RemoveFirst(s, k)[1..] == RemoveFirst(s[1..], k);
      }
    }
  }

  lemma {:induction false} LastOfReap(s: seq<Timed>, now: int, j: Jid)
    requires Tally(Before(s, now), j) == 0
    ensures LastOf(NotBefore(s, now), j) == LastOf(s, j)
  {
    if s == [] {
    } else {
      var rest := NotBefore(s[1..], now);
      TallyConcat(if s[0].at < now then [s[0]] else [], Before(s[1..], now), j);
      LastOfReap(s[1..], now, j);
      if s[0].at < now {
        assert Tally([s[0]], j) == 0 && s[0].jid != j;
        assert NotBefore(s, now) == rest;
      } else {
        assert ([s[0]] + rest)[1..] == rest;
      }
    }
  }

  lemma HolderAfterReap(actors: map<Actor, Phase>, leases: seq<Timed>, now: int, j: Jid)
    requires HolderLast(actors, leases, j) && Tally(Before(leases, now), j) == 0
    ensures HolderLast(actors, NotBefore(leases, now), j)
  {
    LastOfReap(leases, now, j);
    hide LastOf, NotBefore, Before;
  }

  /** With at most one copy there is at most one holder. */
  lemma SoleHolder(s: State, a: Actor, b: Actor, j: Jid)
    requires CensusOf(s, j).go.pre <= 1 && a in s.actors && b in s.actors
    requires Pre(s.actors[a], j) > 0 && Pre(s.actors[b], j) > 0
    ensures a == b
  {
    hide MapSum;
    MapSumAtLeast(s.actors, PreOf(j), a, b);
  }

  lemma HolderAfterLease(s: State, a: Actor, j: Jid)
    requires a in s.actors && s.actors[a].Polling? && Waiting(s.store, s.actors[a].queue) != []
    requires HolderLast(s.actors, s.store.processing, j) && CensusOf(Leased(s, a), j).go.pre <= 1
    ensures HolderLast(Leased(s, a).actors, Leased(s, a).store.processing, j)
  {
    hide MapSum;
    var s' := Leased(s, a);
    LastOfSnoc(s.store.processing, s'.actors[a].lease, j);
    forall b | b in s'.actors && Pre(s'.actors[b], j) > 0
      ensures LastOf(s'.store.processing, j) == Some(s'.actors[b].lease)
    {
      if s'.actors[a].lease.jid == j {
        SoleHolder(s', a, b, j);
      }
    }
  }

  lemma HolderAfterAck(s: State, a: Actor, j: Jid)
    requires a in s.actors && s.actors[a].Acking?
    requires HolderLast(s.actors, s.store.processing, j) && Matched(CensusOf(s, j))
    ensures HolderLast(Acked(s, a).actors, Acked(s, a).store.processing, j)
  {
    hide MapSum;
    var s' := Acked(s, a);
    LastOfRemoveFirst(s.store.processing, s.actors[a].jid, j);
    forall b | b in s'.actors && Pre(s'.actors[b], j) > 0
      ensures LastOf(s'.store.processing, j) == Some(s'.actors[b].lease)
    {
      MapSumAtLeast(s.actors, PreOf(j), b, b);
      MapSumAtLeast(s.actors, WonOf(j), a, a);
      MapSumAtLeast(s.actors, OwedOf(j), a, a);
    }
  }

  /** Other steps leave the leases alone and hand on the holder's own. */
  lemma HolderAfterMove(actors: map<Actor, Phase>, a: Actor, p: Phase, leases: seq<Timed>, j: Jid)
    requires a in actors && HolderLast(actors, leases, j)
    requires Pre(p, j) > 0 ==> Pre(actors[a], j) > 0 && p.lease == actors[a].lease
    ensures HolderLast(actors[a := p], leases, j)
  {
  }

  lemma HolderAfterHandoff(actors: map<Actor, Phase>, a: Actor, w: Actor, leases: seq<Timed>, j: Jid)
    requires a in actors && actors[a].Holding? && w in actors && actors[w] == Idle && HolderLast(actors, leases, j)
    ensures HolderLast(actors[a := Idle][w := Executing(actors[a].lease)], leases, j)
  {
  }

  lemma HolderByWorker(c: Config, s: State, t: Step, j: Jid)
    requires Enabled(c, s, t) && HolderLast(s.actors, s.store.processing, j)
    requires t.Handoff? || t.PutBack? || t.Return? || t.Record? || t.Place? || t.Interrupt?
    ensures HolderLast(Apply(c, s, t).actors, Apply(c, s, t).store.processing, j)
  {
    if t.Handoff? {
      HolderAfterHandoff(s.actors, t.actor, t.worker, s.store.processing, j);
    } else {
      HolderAfterMove(s.actors, t.actor, Apply(c, s, t).actors[t.actor], s.store.processing, j);
    }
  }

  lemma HolderByLoop(c: Config, s: State, t: Step, j: Jid)
    requires Enabled(c, s, t) && Taken(s, t, j) == 0 && HolderLast(s.actors, s.store.processing, j)
    requires t.RetryTick? || t.RetryNext? || t.RetryEnqueue? || t.RetryPlace? || t.ReapTick? || t.ReapNext?
    ensures HolderLast(Apply(c, s, t).actors, Apply(c, s, t).store.processing, j)
  {
    HolderAfterMove(s.actors, t.actor, Apply(c, s, t).actors[t.actor], s.store.processing, j);
    hide HolderLast, Before, NotBefore, Due, Jids, RemoveFirst, Tally;
    if t.ReapTick? {
      HolderAfterReap(Apply(c, s, t).actors, s.store.processing, s.now, j);
    }
  }

  lemma HolderByOther(c: Config, s: State, t: Step, j: Jid)
    requires Enabled(c, s, t) && HolderLast(s.actors, s.store.processing, j)
    requires || t.Tick? || t.Submit? || t.Cancel? || t.Close? || t.DeleteQueue?
             || t.Poll? || t.PollTimeout? || t.Exit?
    ensures HolderLast(Apply(c, s, t).actors, Apply(c, s, t).store.processing, j)
  {
    if t.Poll? || t.PollTimeout? || t.Exit? {
      HolderAfterMove(s.actors, t.actor, Apply(c, s, t).actors[t.actor], s.store.processing, j);
    }
  }

  lemma HolderByLease(c: Config, s: State, t: Step, j: Jid)
    requires Enabled(c, s, t) && HolderLast(s.actors, s.store.processing, j)
    requires t.Dequeue? || t.Ack?
    requires Matched(CensusOf(s, j)) && Single(CensusOf(Apply(c, s, t), j))
    ensures HolderLast(Apply(c, s, t).actors, Apply(c, s, t).store.processing, j)
  {
    hide MapSum, HolderLast;
    assert Copies(CensusOf(Apply(c, s, t), j)) <= 1;
    match t
    case Dequeue(a) => HolderAfterLease(s, a, j);
    case Ack(a) => HolderAfterAck(s, a, j);
  }

  lemma HolderStep(c: Config, s: State, t: Step, j: Jid)
    requires Enabled(c, s, t) && Taken(s, t, j) == 0 && !t.Crash? && HolderLast(s.actors, s.store.processing, j)
    requires Matched(CensusOf(s, j)) && Single(CensusOf(Apply(c, s, t), j))
    ensures HolderLast(Apply(c, s, t).actors, Apply(c, s, t).store.processing, j)
  {
    hide Apply, Enabled, HolderLast, CensusOf, Single, Matched, Taken;
    match t
    case Dequeue(_) | Ack(_) => HolderByLease(c, s, t, j);
    case RetryTick(_) | RetryNext(_) | RetryEnqueue(_) => HolderByLoop(c, s, t, j);
    case RetryPlace(_) | ReapTick(_) | ReapNext(_) => HolderByLoop(c, s, t, j);
    case Handoff(_, _) | PutBack(_) | Return(_, _) | Record(_) => HolderByWorker(c, s, t, j);
    case Place(_) | Interrupt(_) => HolderByWorker(c, s, t, j);
    case _ => HolderByOther(c, s, t, j);
  }

  lemma StillFresh(c: Config, s: State, t: Step, j: Jid)
    requires Enabled(c, s, t) && (j !in s.jobs ==> Nowhere(CensusOf(s, j)))
    ensures j !in Apply(c, s, t).jobs ==> Nowhere(CensusOf(Apply(c, s, t), j))
  {
    StepHistory(c, s, t, j);
    assert t.Submit? ==> t.jid in Apply(c, s, t).jobs;
    hide Apply, Enabled, CensusOf;
    if j !in s.jobs && !(t.Submit? && t.jid == j) {
      FreshStep(c, s, t, j);
    }
  }

  // ---- every step, every run

  lemma HomedBack(c: Config, s: State, t: Step, j: Jid, q: string)
    requires Enabled(c, s, t) && Homed(Apply(c, s, t), j, q)
    ensures Homed(s, j, q)
  {
    if t.Submit? || t.Record? || t.RetryEnqueue? {
      hide Push, Delay;
    } else {
      JobsUntouched(c, s, t);
      hide Apply;
    }
  }

  lemma {:induction false} HomedFrom(c: Config, s: State, run: seq<Step>, j: Jid, q: string)
    requires Valid(c, s, run) && Homed(Final(c, s, run), j, q)
    ensures Homed(s, j, q)
    decreases |run|
  {
    hide Apply, Enabled, Homed;
    if run == [] {
    } else {
      HomedFrom(c, Apply(c, s, run[0]), run[1..], j, q);
      HomedBack(c, s, run[0], j, q);
    }
  }

  lemma OrderlyStep(c: Config, s: State, t: Step, j: Jid, q: string)
    requires Enabled(c, s, t) && Harmless(s, t, j) && Orderly(c, s, j, q) && Homed(Apply(c, s, t), j, q)
    ensures Orderly(c, Apply(c, s, t), j, q)
  {
    hide Apply, Enabled, CensusOf, Single, Roles, Nowhere, Harmless, Batched, Homed, Known;
    RolesStep(c, s, t);
    assert forall a :: IsLoopFor(c, Apply(c, s, t), a, q) ==> IsLoopFor(c, s, a, q);
    SingleStepIff(c, s, t, j, q);
    BatchedStep(c, s, t, j, q);
    StillFresh(c, s, t, j);
  }

  lemma AccountableStep(c: Config, s: State, t: Step, j: Jid, q: string)
    requires Enabled(c, s, t) && Taken(s, t, j) == 0 && !t.Crash? && Orderly(c, s, j, q) && Accountable(s, j)
    ensures Accountable(Apply(c, s, t), j)
  {
    SingleStepIff(c, s, t, j, q);
    assert Harmless(s, t, j);
    hide Apply, Enabled, HolderLast, CensusOf, Single, Matched, Orderly, Harmless, Taken;
    MatchedStep(c, s, t, j);
    HolderStep(c, s, t, j);
  }

  lemma OrderlyInit(c: Config, s: State, j: Jid, q: string)
    requires Init(s) && LoopsApart(c, s, q)
    ensures Orderly(c, s, j, q) && Accountable(s, j)
  {
    InitialCensus(s, j);
    hide CensusOf;
  }

  lemma {:induction false} OrderlyRun(c: Config, s: State, run: seq<Step>, j: Jid, q: string)
    requires Valid(c, s, run) && HarmlessRun(c, s, run, j) && Orderly(c, s, j, q) && Homed(Final(c, s, run), j, q)
    ensures Orderly(c, Final(c, s, run), j, q)
    decreases |run|
  {
    hide Apply, Enabled, Orderly, Harmless, Homed;
    if run == [] {
    } else {
      HomedFrom(c, Apply(c, s, run[0]), run[1..], j, q);
      OrderlyStep(c, s, run[0], j, q);
      OrderlyRun(c, Apply(c, s, run[0]), run[1..], j, q);
    }
  }

  ghost predicate AlwaysSingle(c: Config, s: State, run: seq<Step>, j: Jid)
    requires Valid(c, s, run)
    decreases |run|
  {
    Single(CensusOf(s, j)) && (run == [] || AlwaysSingle(c, Apply(c, s, run[0]), run[1..], j))
  }

  lemma {:induction false} AlwaysSingleIff(c: Config, s: State, run: seq<Step>, j: Jid, q: string)
    requires Valid(c, s, run) && Orderly(c, s, j, q) && Homed(Final(c, s, run), j, q)
    ensures AlwaysSingle(c, s, run, j) <==> HarmlessRun(c, s, run, j)
    decreases |run|
  {
    assert Single(CensusOf(s, j));
    hide Apply, Enabled, Orderly, Harmless, Homed, Single, CensusOf;
    if run == [] {
    } else {
      HomedFrom(c, Apply(c, s, run[0]), run[1..], j, q);
      SingleStepIff(c, s, run[0], j, q);
      if Harmless(s, run[0], j) {
        OrderlyStep(c, s, run[0], j, q);
        AlwaysSingleIff(c, Apply(c, s, run[0]), run[1..], j, q);
      }
    }
  }

  /** If at most one retry loop serves its queue, then, crashes or not, there is at most one copy of a job all
      through a run if and only if no reap takes a lease of it while somebody has a copy, or two at once. */
  lemma OneCopyIff(c: Config, s: State, run: seq<Step>, j: Jid)
    requires Init(s) && Valid(c, s, run) && j in Final(c, s, run).jobs
    requires LoopsApart(c, s, Final(c, s, run).jobs[j].queue)
    ensures AlwaysSingle(c, s, run, j) <==> HarmlessRun(c, s, run, j)
  {
    var q := Final(c, s, run).jobs[j].queue;
    OrderlyInit(c, s, j, q);
    AlwaysSingleIff(c, s, run, j, q);
  }

  /** And then no two workers are ever inside the handler with it. */
  lemma ExclusiveExecution(c: Config, s: State, run: seq<Step>, j: Jid, a: Actor, b: Actor)
    requires Init(s) && Valid(c, s, run) && j in Final(c, s, run).jobs
    requires LoopsApart(c, s, Final(c, s, run).jobs[j].queue) && HarmlessRun(c, s, run, j)
    requires a in Final(c, s, run).actors && b in Final(c, s, run).actors
    requires Final(c, s, run).actors[a].Executing? && Final(c, s, run).actors[a].lease.jid == j
    requires Final(c, s, run).actors[b].Executing? && Final(c, s, run).actors[b].lease.jid == j
    ensures a == b
  {
    hide Valid, HarmlessRun, Orderly, Accountable, LoopsApart;
    var q := Final(c, s, run).jobs[j].queue;
    OrderlyInit(c, s, j, q);
    hide Final, Init;
    OrderlyRun(c, s, run, j, q);
    OneHolder(c, Final(c, s, run), j, q);
    hide CensusOf;
    SoleHolder(Final(c, s, run), a, b, j);
  }

  lemma OneHolder(c: Config, s: State, j: Jid, q: string)
    requires Orderly(c, s, j, q)
    ensures CensusOf(s, j).go.pre <= 1
  {
    hide MapSum, Roles, Batched;
  }

  lemma {:induction false} AccountableRun(c: Config, s: State, run: seq<Step>, j: Jid, q: string)
    requires Valid(c, s, run) && UntakenRun(c, s, run, j) && CrashFree(run)
    requires Orderly(c, s, j, q) && Accountable(s, j) && Homed(Final(c, s, run), j, q)
    ensures Accountable(Final(c, s, run), j)
    decreases |run|
  {
    hide Apply, Enabled, Orderly, Accountable, Homed, Taken;
    if run == [] {
    } else {
      HomedFrom(c, Apply(c, s, run[0]), run[1..], j, q);
      assert Harmless(s, run[0], j);
      OrderlyStep(c, s, run[0], j, q);
      AccountableStep(c, s, run[0], j, q);
      AccountableRun(c, Apply(c, s, run[0]), run[1..], j, q);
    }
  }

  /** If moreover nothing crashes and no lease of the job is taken, its processing entries number exactly its
      un-acked placers plus its current holder, and the holder's own entry is the last of them, so that no
      other goroutine's ack can take it. */
  lemma LeaseAccounting(c: Config, s: State, run: seq<Step>, j: Jid)
    requires Init(s) && Valid(c, s, run) && j in Final(c, s, run).jobs
    requires LoopsApart(c, s, Final(c, s, run).jobs[j].queue) && UntakenRun(c, s, run, j) && CrashFree(run)
    ensures var s' := Final(c, s, run);
      var n := CensusOf(s', j);
      && Tally(s'.store.processing, j) == n.go.pre + n.go.won + n.go.owed && n.go.pre <= 1
      && forall a :: a in s'.actors && Pre(s'.actors[a], j) > 0 ==>
           LastOf(s'.store.processing, j) == Some(s'.actors[a].lease)
  {
    var q := Final(c, s, run).jobs[j].queue;
    UntakenIsHarmless(c, s, run, j);
    OrderlyInit(c, s, j, q);
    OrderlyRun(c, s, run, j, q);
    AccountableRun(c, s, run, j, q);
    hide MapSum;
  }
}
