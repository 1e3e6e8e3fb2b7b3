/** The runs that show why exclusive execution and the bound on retries ask for one retry loop and for
    leases that do not expire. */
module Duplicates {
  import opened Sequences
  import opened Payload
  import opened MemoryBroker
  import opened Lifecycle
  import opened NoLoss
  import opened Survival

  /** Two workers with their fetchers, which may be one, and two retry loops of whatever processors. */
  datatype Crew = Crew(fetcher: Actor, first: Actor, relay: Actor, second: Actor, loop: Actor, other: Actor)

  predicate Feeds(c: Config, f: Actor, w: Actor, q: string) {
    f.role == Fetcher && Known(c, f, q) && w.role.Worker? && w.pid == f.pid
  }

  predicate Serves(c: Config, crew: Crew, q: string) {
    && Feeds(c, crew.fetcher, crew.first, q) && Feeds(c, crew.relay, crew.second, q) && crew.first != crew.second
    && crew.loop.role == RetryLoop && crew.other.role == RetryLoop && crew.loop != crew.other
    && Known(c, crew.loop, q) && Known(c, crew.other, q)
  }

  predicate Present(s: State, crew: Crew) {
    && crew.fetcher in s.actors && crew.first in s.actors && crew.relay in s.actors && crew.second in s.actors
    && crew.loop in s.actors && crew.other in s.actors
  }

  predicate TeamIdle(s: State, crew: Crew)
    requires Present(s, crew)
  {
    && s.actors[crew.fetcher] == Idle && s.actors[crew.first] == Idle
    && s.actors[crew.relay] == Idle && s.actors[crew.second] == Idle
  }

  predicate Loops(s: State, crew: Crew, loop: Phase, other: Phase)
    requires Present(s, crew)
  {
    s.actors[crew.loop] == loop && s.actors[crew.other] == other
  }

  /** Nothing is cancelled or closed, and the job has used no attempt of the none it is allowed. */
  predicate Untried(s: State, j: Jid, q: string) {
    && s.cancelled == {} && !s.store.closed
    && j in s.jobs && s.jobs[j].queue == q && s.jobs[j].retry == 0 && s.jobs[j].retryCount == 0
  }

  /** Both workers are inside the handler with the same job, which is allowed no retry and has used none. */
  ghost predicate BothRun(s: State, w: Actor, w': Actor, j: Jid) {
    && w in s.actors && s.actors[w].Executing? && s.actors[w].lease.jid == j
    && w' in s.actors && s.actors[w'].Executing? && s.actors[w'].lease.jid == j
    && j in s.jobs && s.jobs[j].retry == 0 && s.jobs[j].retryCount == 0
  }

  function LeaseSteps(f: Actor, q: string, w: Actor): seq<Step> {
    [Poll(f, q), Dequeue(f), Handoff(f, w)]
  }

  function LoopSteps(crew: Crew): seq<Step> {
    [RetryTick(crew.loop), RetryTick(crew.other), RetryNext(crew.loop), RetryNext(crew.other),
     RetryEnqueue(crew.loop), RetryEnqueue(crew.other)]
  }

  function DeferSteps(crew: Crew, now: int): seq<Step> {
    [Return(crew.first, CircuitOpen), Step.Record(crew.first), Place(crew.first), Ack(crew.first),
     Tick(now + CIRCUIT_OPEN_WAIT)]
  }

  /** A job is submitted, deferred once by an open circuit, read by both loops when it is due, and so
      enqueued twice. */
  function DuplicatingRun(crew: Crew, now: int, j: Jid, q: string): seq<Step> {
    [Submit(j, q, 0)] + (LeaseSteps(crew.fetcher, q, crew.first) + (DeferSteps(crew, now) + (LoopSteps(crew)
      + (LeaseSteps(crew.fetcher, q, crew.first) + LeaseSteps(crew.relay, q, crew.second)))))
  }

  // ---- one lease at a time

  lemma LeaseRun(c: Config, s: State, f: Actor, q: string, w: Actor) returns (s': State, run: seq<Step>)
    requires f in s.actors && f.role == Fetcher && s.actors[f] == Idle && f.pid !in s.cancelled && Known(c, f, q)
    requires w in s.actors && w.role.Worker? && w.pid == f.pid && s.actors[w] == Idle && Waiting(s.store, q) != []
    ensures run == LeaseSteps(f, q, w) && Valid(c, s, run) && s' == Final(c, s, run)
    ensures s' == s.(actors := s.actors[w := Executing(Timed(Waiting(s.store, q)[0], s.now + LEASE))],
                     store := Lease(s.store, q, s.now))
  {
    var s1 := Move(s, f, Polling(q));
    var s2 := Leased(s1, f);
    hide Lease, Waiting;
    s' := HandedOff(s2, f, w);
    run := FirstStep(c, s2, Handoff(f, w), []);
    run := FirstStep(c, s1, Dequeue(f), run);
    run := FirstStep(c, s, Poll(f, q), run);
  }

  lemma LeaseOne(c: Config, s: State, crew: Crew, f: Actor, q: string, w: Actor, j: Jid) returns (s': State)
    requires Feeds(c, f, w, q) && Present(s, crew) && f in s.actors && w in s.actors
    requires s.actors[f] == Idle && s.actors[w] == Idle && Untried(s, j, q)
    requires Waiting(s.store, q) != [] && Waiting(s.store, q)[0] == j
    ensures Valid(c, s, LeaseSteps(f, q, w)) && s' == Final(c, s, LeaseSteps(f, q, w))
    ensures Untried(s', j, q) && Present(s', crew) && s'.now == s.now
    ensures s'.actors == s.actors[w := Executing(Timed(j, s.now + LEASE))]
    ensures Waiting(s'.store, q) == Waiting(s.store, q)[1..] && s'.store.retry == s.store.retry
    ensures s'.store.processing == s.store.processing + [Timed(j, s.now + LEASE)]
  {
    var run;
    s', run := LeaseRun(c, s, f, q, w);
    assert run == LeaseSteps(f, q, w);
    hide Valid, Final;
  }

  // ---- a deferral

  lemma DeferReturned(c: Config, s: State, w: Actor, l: Timed) returns (s': State, run: seq<Step>)
    requires w in s.actors && s.actors[w] == Executing(l) && l.jid in s.jobs
    ensures run == [Return(w, CircuitOpen), Step.Record(w)] && Valid(c, s, run) && s' == Final(c, s, run)
    ensures s' == s.(actors := s.actors[w := Placing(l, ToRetry(s.now + CIRCUIT_OPEN_WAIT))],
                     store := s.store.(failed := s.store.failed + 1))
  {
    var s1 := Returned(s, w, CircuitOpen);
    s' := Recorded(s1, w);
    run := FirstStep(c, s1, Step.Record(w), []);
    run := FirstStep(c, s, Return(w, CircuitOpen), run);
  }

  lemma DeferAcked(c: Config, s: State, w: Actor, l: Timed) returns (s': State, run: seq<Step>)
    requires w in s.actors && w.role.Worker? && s.actors[w] == Placing(l, ToRetry(s.now + CIRCUIT_OPEN_WAIT))
    requires s.store.processing == [l] && s.store.retry == []
    ensures run == [Place(w), Ack(w), Tick(s.now + CIRCUIT_OPEN_WAIT)] && Valid(c, s, run) && s' == Final(c, s, run)
    ensures s'.now == s.now + CIRCUIT_OPEN_WAIT && s'.actors == s.actors[w := Idle]
    ensures s'.jobs == s.jobs && s'.cancelled == s.cancelled
    ensures s'.store == s.store.(processing := [], retry := [Timed(l.jid, s.now + CIRCUIT_OPEN_WAIT)])
  {
    var s1 := PlacedAway(s, w);
    assert [l][1..] == [];
    var s2 := Acked(s1, w);
    s' := s2.(now := s.now + CIRCUIT_OPEN_WAIT);
    run := FirstStep(c, s2, Tick(s.now + CIRCUIT_OPEN_WAIT), []);
    run := FirstStep(c, s1, Ack(w), run);
    run := FirstStep(c, s, Place(w), run);
  }

  lemma Defer(c: Config, s: State, crew: Crew, q: string, j: Jid) returns (s': State)
    requires Serves(c, crew, q) && Present(s, crew) && Untried(s, j, q)
    requires s.actors[crew.first] == Executing(Timed(j, s.now + LEASE))
    requires s.store.processing == [Timed(j, s.now + LEASE)] && s.store.retry == []
    ensures Valid(c, s, DeferSteps(crew, s.now)) && s' == Final(c, s, DeferSteps(crew, s.now))
    ensures Untried(s', j, q) && Present(s', crew) && s'.actors == s.actors[crew.first := Idle]
    ensures s'.store.retry == [Timed(j, s'.now)] && Waiting(s'.store, q) == Waiting(s.store, q)
  {
    var l := Timed(j, s.now + LEASE);
    var s1, returned := DeferReturned(c, s, crew.first, l);
    var s2, acked := DeferAcked(c, s1, crew.first, l);
    s' := s2;
    hide Valid, Final;
    Joined(c, s, returned, acked);
    assert returned + acked == DeferSteps(crew, s.now);
  }

  // ---- both loops

  lemma OneDue(j: Jid, now: int)
    ensures Jids(Due([Timed(j, now)], now, RETRY_BATCH)) == [j] && RemoveFirst([Timed(j, now)], j) == []
  {
    assert [Timed(j, now)][1..] == [];
  }

  lemma BothRead(c: Config, s: State, crew: Crew, q: string, j: Jid) returns (s': State, run: seq<Step>)
    requires Serves(c, crew, q) && Present(s, crew) && Untried(s, j, q)
    requires Loops(s, crew, Idle, Idle) && s.store.retry == [Timed(j, s.now)]
    ensures run == LoopSteps(crew)[..2] && Valid(c, s, run) && s' == Final(c, s, run)
    ensures s' == s.(actors := s.actors[crew.loop := Batch([j])][crew.other := Batch([j])])
  {
    OneDue(j, s.now);
    hide Due, Jids;
    var s1 := BatchRead(s, crew.loop);
    s' := BatchRead(s1, crew.other);
    run := FirstStep(c, s1, RetryTick(crew.other), []);
    run := FirstStep(c, s, RetryTick(crew.loop), run);
  }

  lemma BothTake(c: Config, s: State, crew: Crew, q: string, j: Jid) returns (s': State, run: seq<Step>)
    requires Serves(c, crew, q) && Present(s, crew) && Untried(s, j, q)
    requires Loops(s, crew, Batch([j]), Batch([j])) && s.store.retry == [Timed(j, s.now)]
    ensures run == LoopSteps(crew)[2..4] && Valid(c, s, run) && s' == Final(c, s, run)
    ensures s' == s.(store := s.store.(retry := []),
                     actors := s.actors[crew.loop := Carrying(j, [])][crew.other := Carrying(j, [])])
  {
    OneDue(j, s.now);
    assert RemoveFirst([], j) == [] && [j][1..] == [];
    hide RemoveFirst;
    var s1 := NextDue(c, s, crew.loop);
    s' := NextDue(c, s1, crew.other);
    run := FirstStep(c, s1, RetryNext(crew.other), []);
    run := FirstStep(c, s, RetryNext(crew.loop), run);
  }

  lemma BothPut(c: Config, s: State, crew: Crew, q: string, j: Jid) returns (s': State, run: seq<Step>)
    requires Serves(c, crew, q) && Present(s, crew) && Untried(s, j, q)
    requires Loops(s, crew, Carrying(j, []), Carrying(j, [])) && Waiting(s.store, q) == []
    ensures run == LoopSteps(crew)[4..] && Valid(c, s, run) && s' == Final(c, s, run)
    ensures Untried(s', j, q) && Waiting(s'.store, q) == [j, j]
    ensures s'.actors == s.actors[crew.loop := Batch([])][crew.other := Batch([])]
  {
    var s1 := Requeued(s, crew.loop);
    s' := Requeued(s1, crew.other);
    run := FirstStep(c, s1, RetryEnqueue(crew.other), []);
    run := FirstStep(c, s, RetryEnqueue(crew.loop), run);
  }

  lemma {:induction false} Joined(c: Config, s: State, a: seq<Step>, b: seq<Step>)
    requires Valid(c, s, a) && Valid(c, Final(c, s, a), b)
    ensures Valid(c, s, a + b) && Final(c, s, a + b) == Final(c, Final(c, s, a), b)
    decreases |a|
  {
    hide Apply, Enabled;
    if a == [] {
      assert a + b == b;
    } else {
      assert (a + b)[1..] == a[1..] + b;
      Joined(c, Apply(c, s, a[0]), a[1..], b);
    }
  }

  lemma BothEnqueue(c: Config, s: State, crew: Crew, q: string, j: Jid) returns (s': State)
    requires Serves(c, crew, q) && Present(s, crew) && Untried(s, j, q)
    requires Loops(s, crew, Idle, Idle) && TeamIdle(s, crew)
    requires s.store.retry == [Timed(j, s.now)] && Waiting(s.store, q) == []
    ensures Valid(c, s, LoopSteps(crew)) && s' == Final(c, s, LoopSteps(crew))
    ensures Present(s', crew) && Untried(s', j, q) && TeamIdle(s', crew) && Waiting(s'.store, q) == [j, j]
  {
    var steps := LoopSteps(crew);
    var s1, read := BothRead(c, s, crew, q, j);
    var s2, taken := BothTake(c, s1, crew, q, j);
    var s3, put := BothPut(c, s2, crew, q, j);
    s' := s3;
    hide Valid, Final, Untried;
    Joined(c, s1, taken, put);
    Joined(c, s, read, taken + put);
    assert steps == read + (taken + put);
  }

  // ---- the whole run

  lemma LeaseBoth(c: Config, s: State, crew: Crew, q: string, j: Jid) returns (s': State)
    requires Serves(c, crew, q) && Present(s, crew) && Untried(s, j, q)
    requires TeamIdle(s, crew) && Waiting(s.store, q) == [j, j]
    ensures var run := LeaseSteps(crew.fetcher, q, crew.first) + LeaseSteps(crew.relay, q, crew.second);
      Valid(c, s, run) && s' == Final(c, s, run) && BothRun(s', crew.first, crew.second, j)
  {
    var s1 := LeaseOne(c, s, crew, crew.fetcher, q, crew.first, j);
    s' := LeaseOne(c, s1, crew, crew.relay, q, crew.second, j);
    hide Valid, Final, LeaseSteps;
    Joined(c, s, LeaseSteps(crew.fetcher, q, crew.first), LeaseSteps(crew.relay, q, crew.second));
  }

  lemma FirstDeferral(c: Config, s: State, crew: Crew, j: Jid, q: string) returns (s': State)
    requires Init(s) && Present(s, crew) && Serves(c, crew, q)
    ensures var run := [Submit(j, q, 0)] + (LeaseSteps(crew.fetcher, q, crew.first) + DeferSteps(crew, s.now));
      Valid(c, s, run) && s' == Final(c, s, run)
    ensures Present(s', crew) && Untried(s', j, q) && TeamIdle(s', crew) && Loops(s', crew, Idle, Idle)
    ensures s'.store.retry == [Timed(j, s'.now)] && Waiting(s'.store, q) == []
  {
    var s1 := Submitted(s, j, q, 0);
    assert Waiting(s1.store, q) == [j];
    var s2 := LeaseOne(c, s1, crew, crew.fetcher, q, crew.first, j);
    s' := Defer(c, s2, crew, q, j);
    var tail := LeaseSteps(crew.fetcher, q, crew.first) + DeferSteps(crew, s.now);
    hide Valid, Final, LeaseSteps, DeferSteps;
    Joined(c, s1, LeaseSteps(crew.fetcher, q, crew.first), DeferSteps(crew, s.now));
    var run := FirstStep(c, s, Submit(j, q, 0), tail);
  }

  lemma Regrouped(a: seq<Step>, b: seq<Step>, d: seq<Step>, e: seq<Step>, g: seq<Step>)
    ensures a + (b + (d + (e + g))) == (a + (b + d)) + (e + g)
  {
  }

  /** Two retry loops and two workers that serve a queue, of whatever processors, with no lease expired and no
      crash: the two workers run the same job at once. */
  lemma TwoLoopsDuplicate(c: Config, s: State, crew: Crew, j: Jid, q: string)
    requires Init(s) && Present(s, crew) && Serves(c, crew, q)
    ensures var run := DuplicatingRun(crew, s.now, j, q);
      && Valid(c, s, run) && BothRun(Final(c, s, run), crew.first, crew.second, j)
      && forall t :: t in run ==> !t.ReapTick? && !t.Crash?
  {
    var s1 := FirstDeferral(c, s, crew, j, q);
    var s2 := BothEnqueue(c, s1, crew, q, j);
    var s3 := LeaseBoth(c, s2, crew, q, j);
    var first := [Submit(j, q, 0)] + (LeaseSteps(crew.fetcher, q, crew.first) + DeferSteps(crew, s.now));
    var last := LeaseSteps(crew.fetcher, q, crew.first) + LeaseSteps(crew.relay, q, crew.second);
    hide Valid, Final, BothRun, Present, Serves, Untried, TeamIdle, Loops;
    Regrouped([Submit(j, q, 0)], LeaseSteps(crew.fetcher, q, crew.first), DeferSteps(crew, s.now),
              LoopSteps(crew), last);
    NoReapOrCrash(crew, s.now, j, q);
    hide LeaseSteps, DeferSteps, LoopSteps;
    Joined(c, s1, LoopSteps(crew), last);
    Joined(c, s, first, LoopSteps(crew) + last);
  }

  lemma NoReapOrCrash(crew: Crew, now: int, j: Jid, q: string)
    ensures forall t :: t in DuplicatingRun(crew, now, j, q) ==> !t.ReapTick? && !t.Crash?
  {
    assert forall f, w, t :: t in LeaseSteps(f, q, w) ==> !t.ReapTick? && !t.Crash?;
    assert forall t :: t in DeferSteps(crew, now) ==> !t.ReapTick? && !t.Crash?;
    assert forall t :: t in LoopSteps(crew) ==> !t.ReapTick? && !t.Crash?;
    hide LeaseSteps, DeferSteps, LoopSteps;
  }

  // ---- and both fail

  function FailSteps(w: Actor, w': Actor): seq<Step> {
    [Return(w, Failing), Return(w', Failing), Step.Record(w), Step.Record(w')]
  }

  lemma BothFail(c: Config, s: State, w: Actor, w': Actor, j: Jid) returns (s': State)
    requires BothRun(s, w, w', j) && w != w'
    ensures Valid(c, s, FailSteps(w, w')) && s' == Final(c, s, FailSteps(w, w'))
    ensures j in s'.jobs && s'.jobs[j].retryCount == s'.jobs[j].retry + 2
  {
    var s1 := Returned(s, w, Failing);
    var s2 := Returned(s1, w', Failing);
    var s3 := Recorded(s2, w);
    s' := Recorded(s3, w');
    var run := FirstStep(c, s3, Step.Record(w'), []);
    run := FirstStep(c, s2, Step.Record(w), run);
    run := FirstStep(c, s1, Return(w', Failing), run);
    run := FirstStep(c, s, Return(w, Failing), run);
    assert run == FailSteps(w, w');
  }

  /** And when both fail, the job's count passes `retry + 1`. */
  lemma TwoLoopsPassBound(c: Config, s: State, crew: Crew, j: Jid, q: string)
    requires Init(s) && Present(s, crew) && Serves(c, crew, q)
    ensures var run := DuplicatingRun(crew, s.now, j, q) + FailSteps(crew.first, crew.second);
      && Valid(c, s, run) && (forall t :: t in run ==> !t.ReapTick? && !t.Crash?)
      && j in Final(c, s, run).jobs && Final(c, s, run).jobs[j].retryCount == Final(c, s, run).jobs[j].retry + 2
  {
    TwoLoopsDuplicate(c, s, crew, j, q);
    var run := DuplicatingRun(crew, s.now, j, q);
    assert forall t :: t in FailSteps(crew.first, crew.second) ==> !t.ReapTick? && !t.Crash?;
    var s' := BothFail(c, Final(c, s, run), crew.first, crew.second, j);
    hide DuplicatingRun, FailSteps, Valid, Final;
    Joined(c, s, run, FailSteps(crew.first, crew.second));
  }

  // ---- an expired lease

  function ReapSteps(r: Actor, now: int): seq<Step> {
    [Tick(now + LEASE + 1), ReapTick(r), ReapNext(r)]
  }

  lemma OrphanFound(c: Config, s: State, r: Actor, j: Jid) returns (s': State, run: seq<Step>)
    requires r in s.actors && r.role == Reaper && s.actors[r] == Idle
    requires s.store.processing == [Timed(j, s.now + LEASE)]
    ensures run == ReapSteps(r, s.now)[..2] && Valid(c, s, run) && s' == Final(c, s, run)
    ensures s'.actors == s.actors[r := Reaped([j])] && s'.cancelled == s.cancelled && s'.jobs == s.jobs
    ensures s'.store == s.store.(processing := [])
  {
    var s1 := s.(now := s.now + LEASE + 1);
    OneExpired(s.store.processing, s1.now);
    hide Before, NotBefore, Jids;
    s' := OrphansTaken(s1, r);
    run := FirstStep(c, s1, ReapTick(r), []);
    run := FirstStep(c, s, Tick(s.now + LEASE + 1), run);
  }

  lemma OrphanPut(c: Config, s: State, r: Actor, q: string, j: Jid) returns (s': State, run: seq<Step>)
    requires r in s.actors && s.actors[r] == Reaped([j]) && Known(c, r, q)
    requires s.cancelled == {} && !s.store.closed && j in s.jobs && s.jobs[j].queue == q && Waiting(s.store, q) == []
    ensures run == [ReapNext(r)] && Valid(c, s, run) && s' == Final(c, s, run)
    ensures s'.actors == s.actors[r := Reaped([])] && s'.cancelled == {} && Waiting(s'.store, q) == [j]
    ensures s'.jobs == s.jobs
  {
    assert [j][1..] == [];
    s' := NextOrphan(c, s, r);
    run := FirstStep(c, s, ReapNext(r), []);
  }

  /** The reaper gives the job of a worker that is merely slow back to its queue. */
  lemma Reclaim(c: Config, s: State, r: Actor, q: string, j: Jid) returns (s': State)
    requires r in s.actors && r.role == Reaper && s.actors[r] == Idle && Known(c, r, q)
    requires s.cancelled == {} && !s.store.closed && j in s.jobs && s.jobs[j].queue == q
    requires s.store.processing == [Timed(j, s.now + LEASE)] && Waiting(s.store, q) == []
    ensures Valid(c, s, ReapSteps(r, s.now)) && s' == Final(c, s, ReapSteps(r, s.now))
    ensures s'.actors == s.actors[r := Reaped([])] && s'.cancelled == {} && Waiting(s'.store, q) == [j]
    ensures s'.jobs == s.jobs
  {
    var s1, found := OrphanFound(c, s, r, j);
    var put;
    s', put := OrphanPut(c, s1, r, q, j);
    hide Valid, Final;
    Joined(c, s, found, put);
    assert found + put == ReapSteps(r, s.now);
  }

  lemma LeasedTwice(
      c: Config, s: State, f: Actor, w: Actor, w': Actor, r: Actor, j: Jid, q: string) returns (run: seq<Step>)
    requires f in s.actors && w in s.actors && w' in s.actors && r in s.actors
    requires s.actors[f] == Idle && s.actors[w] == Idle && s.actors[w'] == Idle && s.actors[r] == Idle
    requires f.role == Fetcher && r.role == Reaper && Known(c, f, q) && Known(c, r, q)
    requires w.role.Worker? && w'.role.Worker? && w != w' && w.pid == w'.pid == f.pid
    requires s.cancelled == {} && !s.store.closed && j in s.jobs && s.jobs[j].queue == q
    requires s.jobs[j].retry == 0 && s.jobs[j].retryCount == 0
    requires s.store.processing == [] && Waiting(s.store, q) == [j]
    ensures Valid(c, s, run) && CrashFree(run) && BothRun(Final(c, s, run), w, w', j)
  {
    var s1, first := LeaseRun(c, s, f, q, w);
    assert s1.store.processing == [Timed(j, s1.now + LEASE)] && Waiting(s1.store, q) == [];
    hide Lease;
    var s2 := Reclaim(c, s1, r, q, j);
    var s3, second := LeaseRun(c, s2, f, q, w');
    var reaping := ReapSteps(r, s1.now);
    hide Valid, Final;
    Joined(c, s1, reaping, second);
    Joined(c, s, first, reaping + second);
    run := first + (reaping + second);
  }

  /** One expired lease is enough, whatever the number of retry loops and without a crash: two workers run the
      same job at once, and when both fail its count passes `retry + 1`. */
  lemma ExpiredLeaseDuplicates(
      c: Config, s: State, f: Actor, w: Actor, w': Actor, r: Actor, j: Jid, q: string) returns (run: seq<Step>)
    requires Init(s) && f in s.actors && w in s.actors && w' in s.actors && r in s.actors
    requires f.role == Fetcher && r.role == Reaper && Known(c, f, q) && Known(c, r, q)
    requires w.role.Worker? && w'.role.Worker? && w != w' && w.pid == w'.pid == f.pid
    ensures Valid(c, s, run) && CrashFree(run) && BothRun(Final(c, s, run), w, w', j)
    ensures var run' := run + FailSteps(w, w');
      && Valid(c, s, run') && CrashFree(run') && j in Final(c, s, run').jobs
      && Final(c, s, run').jobs[j].retryCount == Final(c, s, run').jobs[j].retry + 2
  {
    var s1 := Submitted(s, j, q, 0);
    assert Waiting(s1.store, q) == [j];
    hide Valid, Final, BothRun;
    var later := LeasedTwice(c, s1, f, w, w', r, j, q);
    run := FirstStep(c, s, Submit(j, q, 0), later);
    var s' := BothFail(c, Final(c, s, run), w, w', j);
    Joined(c, s, run, FailSteps(w, w'));
    assert CrashFree(FailSteps(w, w'));
    hide FailSteps;
  }

  // ---- a crash between the record and the dead set

  /** The failing worker has used up the last attempt and crashes before it has dead-lettered the job. */
  function CrashSteps(w: Actor): seq<Step> {
    [Return(w, Failing), Step.Record(w), Crash(w)]
  }

  lemma LastAttempt(c: Config, s: State, w: Actor, l: Timed) returns (s': State, run: seq<Step>)
    requires w in s.actors && s.actors[w] == Executing(l) && l.jid in s.jobs
    requires s.jobs[l.jid].retryCount == s.jobs[l.jid].retry
    ensures run == CrashSteps(w)[..2] && Valid(c, s, run) && s' == Final(c, s, run)
    ensures s'.actors == s.actors[w := Placing(l, ToDead)] && s'.now == s.now && s'.cancelled == s.cancelled
    ensures s'.store == s.store.(failed := s.store.failed + 1)
    ensures l.jid in s'.jobs && s'.jobs[l.jid].queue == s.jobs[l.jid].queue
    ensures s'.jobs[l.jid].retry == s.jobs[l.jid].retry && s'.jobs[l.jid].retryCount == s.jobs[l.jid].retry + 1
  {
    var s1 := Returned(s, w, Failing);
    s' := Recorded(s1, w);
    run := FirstStep(c, s1, Step.Record(w), []);
    run := FirstStep(c, s, Return(w, Failing), run);
  }

  lemma CrashAndReclaim(c: Config, s: State, w: Actor, r: Actor, j: Jid, q: string) returns (s': State, run: seq<Step>)
    requires w in s.actors && s.actors[w] == Placing(Timed(j, s.now + LEASE), ToDead)
    requires r in s.actors && r.role == Reaper && s.actors[r] == Idle && Known(c, r, q)
    requires s.cancelled == {} && !s.store.closed && j in s.jobs && s.jobs[j].queue == q
    requires s.store.processing == [Timed(j, s.now + LEASE)] && Waiting(s.store, q) == []
    ensures run == [Crash(w)] + ReapSteps(r, s.now) && Valid(c, s, run) && s' == Final(c, s, run)
    ensures s'.actors == s.actors[w := Crashed][r := Reaped([])] && s'.cancelled == {} && s'.jobs == s.jobs
    ensures Waiting(s'.store, q) == [j]
  {
    var s1 := Died(s, w);
    s' := Reclaim(c, s1, r, q, j);
    hide Valid, Final, ReapSteps;
    run := FirstStep(c, s, Crash(w), ReapSteps(r, s.now));
  }

  /** The reaper brings the job back, and it fails once more. */
  lemma FailsAgain(
      c: Config, s: State, f: Actor, w: Actor, w': Actor, r: Actor, j: Jid, q: string) returns (run: seq<Step>)
    requires f in s.actors && w in s.actors && w' in s.actors && r in s.actors && w != w'
    requires Feeds(c, f, w', q) && r.role == Reaper && Known(c, r, q)
    requires s.actors[f] == Idle && s.actors[w] == Placing(Timed(j, s.now + LEASE), ToDead)
    requires s.actors[w'] == Idle && s.actors[r] == Idle && s.cancelled == {} && !s.store.closed
    requires j in s.jobs && s.jobs[j].queue == q && s.jobs[j].retryCount == s.jobs[j].retry + 1
    requires s.store.processing == [Timed(j, s.now + LEASE)] && Waiting(s.store, q) == []
    ensures Valid(c, s, run) && j in Final(c, s, run).jobs
    ensures Final(c, s, run).jobs[j].retryCount == Final(c, s, run).jobs[j].retry + 2
  {
    var s1, reclaiming := CrashAndReclaim(c, s, w, r, j, q);
    hide Waiting;
    assert s1.actors[f] == Idle && s1.actors[w'] == Idle;
    var s2, leasing := LeaseRun(c, s1, f, q, w');
    hide Lease;
    var s3, failing := FailOnceMore(c, s2, w', j);
    hide Valid, Final, LeaseSteps, CrashSteps, ReapSteps;
    Joined(c, s1, leasing, failing);
    Joined(c, s, reclaiming, leasing + failing);
    run := reclaiming + (leasing + failing);
  }

  lemma FailOnceMore(c: Config, s: State, w: Actor, j: Jid) returns (s': State, run: seq<Step>)
    requires w in s.actors && s.actors[w].Executing? && s.actors[w].lease.jid == j && j in s.jobs
    ensures run == CrashSteps(w)[..2] && Valid(c, s, run) && s' == Final(c, s, run)
    ensures j in s'.jobs && s'.jobs[j].retry == s.jobs[j].retry && s'.jobs[j].retryCount == s.jobs[j].retryCount + 1
  {
    var s1 := Returned(s, w, Failing);
    s' := Recorded(s1, w);
    run := FirstStep(c, s1, Step.Record(w), []);
    run := FirstStep(c, s, Return(w, Failing), run);
  }

  /** With any number of retry loops: a worker that crashes between using up the last attempt and
      dead-lettering the job leaves a lease whose reclamation takes the count past `retry + 1`. */
  lemma CrashedBurialPassesBound(
      c: Config, s: State, f: Actor, w: Actor, w': Actor, r: Actor, j: Jid, q: string) returns (run: seq<Step>)
    requires Init(s) && f in s.actors && w in s.actors && w' in s.actors && r in s.actors && w != w'
    requires Feeds(c, f, w, q) && Feeds(c, f, w', q) && r.role == Reaper && Known(c, r, q)
    ensures Valid(c, s, run) && j in Final(c, s, run).jobs
    ensures Final(c, s, run).jobs[j].retryCount == Final(c, s, run).jobs[j].retry + 2
  {
    var s1 := Submitted(s, j, q, 0);
    assert Waiting(s1.store, q) == [j];
    var s2, leasing := LeaseRun(c, s1, f, q, w);
    assert s2.store.processing == [Timed(j, s.now + LEASE)] && Waiting(s2.store, q) == [];
    var s3, failing := LastAttempt(c, s2, w, Timed(j, s.now + LEASE));
    var later := FailsAgain(c, s3, f, w, w', r, j, q);
    hide Valid, Final, LeaseSteps, CrashSteps, ReapSteps, Lease;
    Joined(c, s2, failing, later);
    Joined(c, s1, leasing, failing + later);
    run := FirstStep(c, s, Submit(j, q, 0), leasing + (failing + later));
  }
}
