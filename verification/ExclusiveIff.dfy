/** Which configurations make execution exclusive. */
module ExclusiveIff {
  import opened Sequences
  import opened Payload
  import opened MemoryBroker
  import opened Lifecycle
  import opened LifecycleCensus
  import opened NoLoss
  import opened Shutdown
  import opened Exclusive
  import opened Duplicates

  // ---- jobs stay with their queue, and with the processors that serve it

  ghost predicate QueuesHome(store: Store, jobs: map<Jid, Record>) {
    forall q, j :: j in Waiting(store, q) ==> j in jobs && jobs[j].queue == q
  }

  ghost predicate SameHomes(jobs: map<Jid, Record>, jobs': map<Jid, Record>) {
    forall j :: j in jobs ==> j in jobs' && jobs'[j].queue == jobs[j].queue
  }

  /** A worker whose processor polls the queue. */
  predicate Served(c: Config, s: State, w: Actor, q: string) {
    w in s.actors && w.role.Worker? && Actor(w.pid, Fetcher) in s.actors && Known(c, w, q)
  }

  predicate HasHome(s: State, j: Jid, q: string) {
    j in s.jobs && s.jobs[j].queue == q
  }

  /** A goroutine has a job only if its processor serves the job's queue. */
  predicate PhaseHome(c: Config, s: State, a: Actor)
    requires a in s.actors
  {
    match s.actors[a]
    case Polling(q) => Known(c, a, q)
    case Holding(l, q) => Known(c, a, q) && HasHome(s, l.jid, q)
    case PuttingBack(l, q) => Known(c, a, q) && HasHome(s, l.jid, q)
    case Executing(l) => l.jid in s.jobs && Served(c, s, a, s.jobs[l.jid].queue)
    case _ => true
  }

  ghost predicate AtHome(c: Config, s: State) {
    QueuesHome(s.store, s.jobs) && forall a :: a in s.actors ==> PhaseHome(c, s, a)
  }

  lemma HomesKept(c: Config, s: State, t: Step)
    requires Enabled(c, s, t)
    ensures SameHomes(s.jobs, Apply(c, s, t).jobs)
  {
    if t.Submit? || t.Record? || t.RetryEnqueue? {
      hide Push, Delay;
    } else {
      JobsUntouched(c, s, t);
      hide Apply;
    }
  }

  lemma PushedHome(store: Store, jobs: map<Jid, Record>, q: string, j: Jid)
    requires QueuesHome(store, jobs) && j in jobs && jobs[j].queue == q
    ensures QueuesHome(Push(store, q, j), jobs)
  {
    var store' := Push(store, q, j);
    forall q', j' | j' in Waiting(store', q')
      ensures j' in jobs && jobs[j'].queue == q'
    {
      assert Waiting(store', q') == if q' == q then Waiting(store, q) + [j] else Waiting(store, q');
    }
  }

  lemma HomesGrow(store: Store, jobs: map<Jid, Record>, jobs': map<Jid, Record>)
    requires QueuesHome(store, jobs) && SameHomes(jobs, jobs')
    ensures QueuesHome(store, jobs')
  {
  }

  ghost predicate NoneNew(store: Store, store': Store) {
    forall q, j :: j in Waiting(store', q) ==> j in Waiting(store, q)
  }

  ghost predicate OneNew(s: State, s': State) {
    exists q, j :: HasHome(s', j, q) && s'.store.queues == Push(s.store, q, j).queues
  }

  lemma FewerHome(store: Store, store': Store, jobs: map<Jid, Record>)
    requires QueuesHome(store, jobs) && NoneNew(store, store')
    ensures QueuesHome(store', jobs)
  {
  }

  /** The steps that change the queues. */
  predicate Requeues(t: Step) {
    t.Submit? || t.DeleteQueue? || t.Dequeue? || t.PutBack? || t.RetryEnqueue? || t.ReapNext?
  }

  lemma QueuesUntouched(c: Config, s: State, t: Step)
    requires Enabled(c, s, t) && !Requeues(t)
    ensures Apply(c, s, t).store.queues == s.store.queues
  {
    hide RemoveFirst, Before, NotBefore, Due, Jids, Delay;
  }

  /** The queues after a step: no job new to them, or one more at its home. */
  lemma QueuesMove(c: Config, s: State, t: Step)
    requires Enabled(c, s, t) && AtHome(c, s) && Requeues(t)
    ensures NoneNew(s.store, Apply(c, s, t).store) || OneNew(s, Apply(c, s, t))
  {
    hide QueuesHome, Served, Delay;
    match t
    case Submit(j, q, _) => assert HasHome(Apply(c, s, t), j, q);
    case PutBack(a) =>
      assert PhaseHome(c, s, a);
      assert HasHome(Apply(c, s, t), s.actors[a].lease.jid, s.actors[a].queue);
    case RetryEnqueue(a) =>
      var j := s.actors[a].jid;
      assert HasHome(Apply(c, s, t), j, s.jobs[j].queue);
    case ReapNext(a) =>
      if s.actors[a].orphans != [] {
        var j := s.actors[a].orphans[0];
        assert HasHome(Apply(c, s, t), j, s.jobs[j].queue);
      }
    case _ =>
  }

  lemma SameQueuesNoneNew(store: Store, store': Store)
    requires store'.queues == store.queues
    ensures NoneNew(store, store')
  {
  }

  lemma OneNewHome(s: State, s': State)
    requires OneNew(s, s') && QueuesHome(s.store, s'.jobs)
    ensures QueuesHome(s'.store, s'.jobs)
  {
    var q, j :| HasHome(s', j, q) && s'.store.queues == Push(s.store, q, j).queues;
    hide QueuesHome, NoneNew, Push;
    PushedHome(s.store, s'.jobs, q, j);
    SameQueuesNoneNew(Push(s.store, q, j), s'.store);
    FewerHome(Push(s.store, q, j), s'.store, s'.jobs);
  }

  lemma QueuesHomeStep(c: Config, s: State, t: Step)
    requires Enabled(c, s, t) && AtHome(c, s)
    ensures QueuesHome(Apply(c, s, t).store, Apply(c, s, t).jobs)
  {
    assert QueuesHome(s.store, s.jobs);
    hide Apply, Enabled, AtHome, QueuesHome, SameHomes, Requeues, NoneNew, OneNew;
    var s' := Apply(c, s, t);
    HomesKept(c, s, t);
    HomesGrow(s.store, s.jobs, s'.jobs);
    if Requeues(t) {
      QueuesMove(c, s, t);
    } else {
      QueuesUntouched(c, s, t);
      SameQueuesNoneNew(s.store, s'.store);
    }
    if NoneNew(s.store, s'.store) {
      FewerHome(s.store, s'.store, s'.jobs);
    } else {
      OneNewHome(s, s');
    }
  }

  lemma PhaseKept(c: Config, s: State, s': State, a: Actor)
    requires a in s.actors && PhaseHome(c, s, a) && s'.actors.Keys == s.actors.Keys && SameHomes(s.jobs, s'.jobs)
    requires s'.actors[a] == s.actors[a]
    ensures PhaseHome(c, s', a)
  {
  }

  /** The steps by which a goroutine comes to have a job, or a queue to take one from. */
  predicate Receives(t: Step, b: Actor) {
    || ((t.Poll? || t.Dequeue? || t.Interrupt?) && t.actor == b)
    || (t.Handoff? && t.worker == b)
  }

  predicate HasJob(p: Phase) {
    p.Polling? || p.Holding? || p.PuttingBack? || p.Executing?
  }

  lemma ComesToHave(c: Config, s: State, t: Step, b: Actor)
    requires Enabled(c, s, t) && b in s.actors && b in Apply(c, s, t).actors
    ensures Apply(c, s, t).actors[b] == s.actors[b] || Receives(t, b) || !HasJob(Apply(c, s, t).actors[b])
  {
    hide Delay, RemoveFirst, Before, NotBefore, Due, Jids, Push, Lease, Add, Accepts, Known, Waiting;
  }

  lemma LeasedAtHome(c: Config, s: State, a: Actor)
    requires Enabled(c, s, Dequeue(a)) && QueuesHome(s.store, s.jobs) && PhaseHome(c, s, a)
    ensures PhaseHome(c, Apply(c, s, Dequeue(a)), a)
  {
    assert Waiting(s.store, s.actors[a].queue)[0] in Waiting(s.store, s.actors[a].queue);
    hide Lease, Waiting;
  }

  lemma HandedAtHome(c: Config, s: State, a: Actor, w: Actor)
    requires Enabled(c, s, Handoff(a, w)) && PhaseHome(c, s, a) && Fits(a.role, s.actors[a])
    ensures PhaseHome(c, Apply(c, s, Handoff(a, w)), w)
  {
    assert a == Actor(w.pid, Fetcher);
  }

  lemma ReceivedAtHome(c: Config, s: State, t: Step, b: Actor)
    requires Enabled(c, s, t) && AtHome(c, s) && Roles(s) && Receives(t, b) && b in s.actors
    ensures b in Apply(c, s, t).actors && PhaseHome(c, Apply(c, s, t), b)
  {
    assert PhaseHome(c, s, t.actor) && Fits(t.actor.role, s.actors[t.actor]);
    assert QueuesHome(s.store, s.jobs);
    hide AtHome, Roles, QueuesHome, Served;
    match t
    case Dequeue(a) => LeasedAtHome(c, s, a);
    case Handoff(a, w) => HandedAtHome(c, s, a, w);
    case _ =>
  }

  lemma PhaseHomeStep(c: Config, s: State, t: Step, b: Actor)
    requires Enabled(c, s, t) && AtHome(c, s) && Roles(s) && b in Apply(c, s, t).actors
    requires Apply(c, s, t).actors.Keys == s.actors.Keys && SameHomes(s.jobs, Apply(c, s, t).jobs)
    ensures PhaseHome(c, Apply(c, s, t), b)
  {
    assert PhaseHome(c, s, b);
    ComesToHave(c, s, t, b);
    hide Apply, Enabled, AtHome, Roles, SameHomes, Receives, HasHome, Served;
    if Receives(t, b) {
      ReceivedAtHome(c, s, t, b);
    } else if Apply(c, s, t).actors[b] == s.actors[b] {
      PhaseKept(c, s, Apply(c, s, t), b);
    }
  }

  lemma AtHomeStep(c: Config, s: State, t: Step)
    requires Enabled(c, s, t) && AtHome(c, s) && Roles(s)
    ensures AtHome(c, Apply(c, s, t)) && Roles(Apply(c, s, t))
  {
    RolesStep(c, s, t);
    HomesKept(c, s, t);
    QueuesHomeStep(c, s, t);
    hide Apply, Enabled, QueuesHome, PhaseHome, Roles, SameHomes;
    forall b | b in Apply(c, s, t).actors
      ensures PhaseHome(c, Apply(c, s, t), b)
    {
      PhaseHomeStep(c, s, t, b);
    }
  }

  lemma {:induction false} AtHomeRun(c: Config, s: State, run: seq<Step>)
    requires Valid(c, s, run) && AtHome(c, s) && Roles(s)
    ensures AtHome(c, Final(c, s, run))
    decreases |run|
  {
    hide Apply, Enabled, AtHome, Roles;
    if run == [] {
    } else {
      AtHomeStep(c, s, run[0]);
      AtHomeRun(c, Apply(c, s, run[0]), run[1..]);
    }
  }

  // ---- the theorem

  predicate Runs(s: State, a: Actor, j: Jid) {
    a in s.actors && s.actors[a].Executing? && s.actors[a].lease.jid == j
  }

  /** No two workers are inside the handler with the same job. */
  ghost predicate NoneTwice(s: State) {
    forall a, b, j :: Runs(s, a, j) && Runs(s, b, j) ==> a == b
  }

  /** No queue is served by two retry loops and by two workers. */
  ghost predicate Apart(c: Config, s: State) {
    forall q, w, w' :: !LoopsApart(c, s, q) && Served(c, s, w, q) && Served(c, s, w', q) ==> w == w'
  }

  /** No reap of the run brings back a job that somebody still has, as when no lease expires. */
  ghost predicate AllHarmless(c: Config, s: State, run: seq<Step>)
    requires Valid(c, s, run)
  {
    forall j :: HarmlessRun(c, s, run, j)
  }

  lemma ApartIsExclusive(c: Config, s: State, run: seq<Step>)
    requires Init(s) && Apart(c, s) && Valid(c, s, run) && AllHarmless(c, s, run)
    ensures NoneTwice(Final(c, s, run))
  {
    var s' := Final(c, s, run);
    AtHomeRun(c, s, run);
    RolesRun(c, s, run);
    hide Valid, Final, QueuesHome, Init, Roles, LoopsApart, Known, HarmlessRun;
    forall a, b, j | Runs(s', a, j) && Runs(s', b, j)
      ensures a == b
    {
      assert PhaseHome(c, s', a) && PhaseHome(c, s', b);
      var q := s'.jobs[j].queue;
      assert Served(c, s, a, q) && Served(c, s, b, q);
      if LoopsApart(c, s, q) {
        ExclusiveExecution(c, s, run, j, a, b);
      }
    }
  }

  lemma {:induction false} NoReapIsHarmless(c: Config, s: State, run: seq<Step>, j: Jid)
    requires Valid(c, s, run) && forall t :: t in run ==> !t.ReapTick?
    ensures HarmlessRun(c, s, run, j)
    decreases |run|
  {
    hide Apply, Enabled, CensusOf;
    if run == [] {
    } else {
      NoReapIsHarmless(c, Apply(c, s, run[0]), run[1..], j);
    }
  }

  /** Two loops and two workers for one queue: a run without a reap in which both run the same job. */
  lemma NotApartDuplicates(c: Config, s: State, q: string, w: Actor, w': Actor, j: Jid) returns (run: seq<Step>)
    requires Init(s) && !LoopsApart(c, s, q) && Served(c, s, w, q) && Served(c, s, w', q) && w != w'
    ensures Valid(c, s, run) && (forall t :: t in run ==> !t.ReapTick? && !t.Crash?) && !NoneTwice(Final(c, s, run))
  {
    var l, l' :| IsLoopFor(c, s, l, q) && IsLoopFor(c, s, l', q) && l != l';
    var crew := Crew(Actor(w.pid, Fetcher), w, Actor(w'.pid, Fetcher), w', l, l');
    run := DuplicatingRun(crew, s.now, j, q);
    TwoLoopsDuplicate(c, s, crew, j, q);
    hide Valid, Final, DuplicatingRun;
    var s' := Final(c, s, run);
    assert Runs(s', w, j) && Runs(s', w', j);
  }

  /** From a start with these goroutines and this configuration, no two workers ever run the same job in any
      run without harmful reaps, crashes or not, if and only if no queue is served both by two retry loops and
      by two workers. */
  lemma ExclusiveIffApart(c: Config, s: State)
    requires Init(s)
    ensures (forall run :: Valid(c, s, run) && AllHarmless(c, s, run) ==> NoneTwice(Final(c, s, run))) <==> Apart(c, s)
  {
    if Apart(c, s) {
      forall run | Valid(c, s, run) && AllHarmless(c, s, run)
        ensures NoneTwice(Final(c, s, run))
      {
        ApartIsExclusive(c, s, run);
      }
    } else {
      var q, w, w' :| !LoopsApart(c, s, q) && Served(c, s, w, q) && Served(c, s, w', q) && w != w';
      var run := NotApartDuplicates(c, s, q, w, w', "");
      forall j
        ensures HarmlessRun(c, s, run, j)
      {
        NoReapIsHarmless(c, s, run, j);
      }
      assert AllHarmless(c, s, run);
    }
  }
}
