/** Clean shutdown: what is left in the broker once every goroutine has stopped. */
module Shutdown {
  import opened Sequences
  import opened MemoryBroker
  import opened Lifecycle
  import opened LifecycleCensus
  import opened NoLoss
  import opened Survival

  /** The phases each kind of goroutine goes through. A fetcher acks only what it put back. */
  predicate Fits(r: Role, p: Phase) {
    match p
    case Idle | Stopped | Crashed => true
    case Polling(_) | Holding(_, _) | PuttingBack(_, _) => r == Fetcher
    case Executing(_) | Recording(_, _) => r.Worker?
    case Placing(_, to) => r.Worker? || (r == Fetcher && to.ToRetry?)
    case Acking(_, placed) => r.Worker? || (r == Fetcher && placed)
    case Batch(_) | Carrying(_, _) | Refused(_, _, _) => r == RetryLoop
    case Reaped(_) => r == Reaper
  }

  ghost predicate Roles(s: State) {
    forall a :: a in s.actors ==> Fits(a.role, s.actors[a])
  }

  lemma RolesMove(s: State, s': State, a: Actor)
    requires Roles(s) && a in s.actors && a in s'.actors && Fits(a.role, s'.actors[a])
    requires s'.actors == s.actors[a := s'.actors[a]]
    ensures Roles(s')
  {
  }

  lemma RolesByRetry(c: Config, s: State, t: Step)
    requires Enabled(c, s, t) && Roles(s)
    requires t.RetryTick? || t.RetryNext? || t.RetryEnqueue? || t.RetryPlace?
    ensures Roles(Apply(c, s, t)) && Apply(c, s, t).actors.Keys == s.actors.Keys
  {
    assert Fits(t.actor.role, s.actors[t.actor]);
    hide Roles, RemoveFirst, Due, Jids;
    RolesMove(s, Apply(c, s, t), t.actor);
  }

  lemma RolesByReaper(c: Config, s: State, t: Step)
    requires Enabled(c, s, t) && Roles(s)
    requires t.ReapTick? || t.ReapNext?
    ensures Roles(Apply(c, s, t)) && Apply(c, s, t).actors.Keys == s.actors.Keys
  {
    assert Fits(t.actor.role, s.actors[t.actor]);
    hide Roles, Before, NotBefore, Jids;
    RolesMove(s, Apply(c, s, t), t.actor);
  }

  lemma RolesByWorker(c: Config, s: State, t: Step)
    requires Enabled(c, s, t) && Roles(s)
    requires t.Handoff? || t.PutBack? || t.Return? || t.Record? || t.Place? || t.Ack?
    ensures Roles(Apply(c, s, t)) && Apply(c, s, t).actors.Keys == s.actors.Keys
  {
    assert Fits(t.actor.role, s.actors[t.actor]);
    hide Roles;
    if t.Handoff? {
      var s1 := Move(s, t.actor, Idle);
      RolesMove(s, s1, t.actor);
      RolesMove(s1, Apply(c, s, t), t.worker);
    } else {
      RolesMove(s, Apply(c, s, t), t.actor);
    }
  }

  lemma RolesByOther(c: Config, s: State, t: Step)
    requires Enabled(c, s, t) && Roles(s)
    requires || t.Tick? || t.Submit? || t.Cancel? || t.Close? || t.DeleteQueue?
             || t.Poll? || t.PollTimeout? || t.Dequeue? || t.Interrupt? || t.Exit? || t.Crash?
    ensures Roles(Apply(c, s, t)) && Apply(c, s, t).actors.Keys == s.actors.Keys
  {
    if t.Poll? || t.PollTimeout? || t.Dequeue? || t.Interrupt? || t.Exit? || t.Crash? {
      assert Fits(t.actor.role, s.actors[t.actor]);
      RolesMove(s, Apply(c, s, t), t.actor);
    }
  }

  lemma RolesStep(c: Config, s: State, t: Step)
    requires Enabled(c, s, t) && Roles(s)
    ensures Roles(Apply(c, s, t)) && Apply(c, s, t).actors.Keys == s.actors.Keys
  {
    hide Apply, Enabled, Roles;
    match t
    case RetryTick(_) | RetryNext(_) | RetryEnqueue(_) | RetryPlace(_) => RolesByRetry(c, s, t);
    case ReapTick(_) | ReapNext(_) => RolesByReaper(c, s, t);
    case Handoff(_, _) | PutBack(_) | Return(_, _) | Record(_) | Place(_) | Ack(_) => RolesByWorker(c, s, t);
    case _ => RolesByOther(c, s, t);
  }

  /** Every lease in the processing set has a goroutine that will still ack its JID. */
  ghost predicate LeasesOwed(s: State, j: Jid) {
    var n := CensusOf(s, j);
    n.at.leased <= n.go.pre + n.go.won + n.go.owed
  }

  lemma LeasesOwedStep(c: Config, s: State, t: Step, j: Jid)
    requires Enabled(c, s, t) && !t.Crash? && LeasesOwed(s, j)
    ensures LeasesOwed(Apply(c, s, t), j)
  {
    hide Apply, Enabled, CensusOf;
    CensusStep(c, s, t, j);
  }

  ghost predicate NoneCrashed(s: State) {
    forall a :: a in s.actors ==> s.actors[a] != Crashed
  }

  lemma NoneCrashedStep(c: Config, s: State, t: Step)
    requires Enabled(c, s, t) && !t.Crash? && NoneCrashed(s)
    ensures NoneCrashed(Apply(c, s, t))
  {
    hide RemoveFirst, Before, NotBefore, Due, Jids, Push, Lease, Add;
  }

  lemma {:induction false} NoneCrashedRun(c: Config, s: State, run: seq<Step>)
    requires Valid(c, s, run) && CrashFree(run) && NoneCrashed(s)
    ensures NoneCrashed(Final(c, s, run))
    decreases |run|
  {
    hide Apply, Enabled, NoneCrashed;
    if run == [] {
    } else {
      NoneCrashedStep(c, s, run[0]);
      NoneCrashedRun(c, Apply(c, s, run[0]), run[1..]);
    }
  }

  lemma {:induction false} LeasesOwedRun(c: Config, s: State, run: seq<Step>, j: Jid)
    requires Valid(c, s, run) && CrashFree(run) && LeasesOwed(s, j)
    ensures LeasesOwed(Final(c, s, run), j)
    decreases |run|
  {
    hide Apply, Enabled, LeasesOwed;
    if run == [] {
    } else {
      LeasesOwedStep(c, s, run[0], j);
      LeasesOwedRun(c, Apply(c, s, run[0]), run[1..], j);
    }
  }

  lemma {:induction false} RolesRun(c: Config, s: State, run: seq<Step>)
    requires Valid(c, s, run) && Roles(s)
    ensures Roles(Final(c, s, run)) && Final(c, s, run).actors.Keys == s.actors.Keys
    decreases |run|
  {
    hide Apply, Enabled, Roles;
    if run == [] {
    } else {
      RolesStep(c, s, run[0]);
      RolesRun(c, Apply(c, s, run[0]), run[1..]);
    }
  }

  lemma StoppedCensus(s: State, j: Jid)
    requires forall a :: a in s.actors ==> s.actors[a] == Stopped
    ensures var n := CensusOf(s, j); n.go.pre == n.go.won == n.go.owed == n.go.hand == n.go.due == 0
  {
    if a :| a in s.actors {
      MapSumOnly(s.actors, PreOf(j), a);
      MapSumOnly(s.actors, WonOf(j), a);
      MapSumOnly(s.actors, OwedOf(j), a);
      MapSumOnly(s.actors, HandOf(j), a);
      MapSumOnly(s.actors, DueOf(j), a);
    } else {
      assert s.actors == map[];
    }
  }

  /** The job rests in the broker, where the next start will find it. */
  ghost predicate AtRest(s: State, j: Jid) {
    || (exists q :: q in s.store.queues && j in s.store.queues[q])
    || (exists e :: e in s.store.retry && e.jid == j)
    || j in s.store.dead
  }

  /** In a run without crashes, also one in which leases expire, jobs are leased twice and the reaper drops
      orphans: when every goroutine has stopped, nothing is left in the processing set, and each job whose
      queue was not deleted under it has succeeded or rests in a queue, the retry set or the dead set. */
  lemma CleanShutdown(c: Config, s: State, run: seq<Step>)
    requires Init(s) && Valid(c, s, run) && CrashFree(run)
    requires forall a :: a in Final(c, s, run).actors ==> Final(c, s, run).actors[a] == Stopped
    ensures Final(c, s, run).store.processing == []
    ensures forall j :: j in Final(c, s, run).jobs && NeverDeleted(c, s, run, j) ==>
      j in Final(c, s, run).succeeded || AtRest(Final(c, s, run), j)
  {
    hide MapSum;
    var s' := Final(c, s, run);
    if s'.store.processing != [] {
      var j := s'.store.processing[0].jid;
      InitialCensus(s, j);
      LeasesOwedRun(c, s, run, j);
      StoppedCensus(s', j);
    }
    forall j | j in s'.jobs && NeverDeleted(c, s, run, j)
      ensures j in s'.succeeded || AtRest(s', j)
    {
      NothingLostWithoutCrash(c, s, run, j);
    }
  }

  // ---- what the fetcher does before its ack

  lemma {:induction false} LastStep(c: Config, s: State, run: seq<Step>)
    requires Valid(c, s, run) && run != []
    ensures Valid(c, s, run[..|run| - 1]) && Enabled(c, Final(c, s, run[..|run| - 1]), run[|run| - 1])
    ensures Final(c, s, run) == Apply(c, Final(c, s, run[..|run| - 1]), run[|run| - 1])
    decreases |run|
  {
    hide Apply, Enabled;
    if |run| > 1 {
      LastStep(c, Apply(c, s, run[0]), run[1..]);
      assert run[..|run| - 1][1..] == run[1..][..|run[1..]| - 1];
    }
  }

  /** The step puts the job that fetcher `a` holds at the end of the queue it was taken from, or into the
      retry set. */
  ghost predicate PutsBack(c: Config, s: State, t: Step, a: Actor, j: Jid)
    requires Enabled(c, s, t)
  {
    var s' := Apply(c, s, t);
    && a in s.actors
    && (|| (&& t == PutBack(a) && s.actors[a].PuttingBack? && s.actors[a].lease.jid == j
            && Waiting(s'.store, s.actors[a].queue) == Waiting(s.store, s.actors[a].queue) + [j])
        || (&& t == Place(a) && s.actors[a].Placing? && s.actors[a].lease.jid == j
            && exists at :: s'.store.retry == s.store.retry + [Timed(j, at)]))
  }

  lemma AckedBy(c: Config, s: State, t: Step, a: Actor)
    requires Enabled(c, s, t) && a in s.actors && a in Apply(c, s, t).actors && a.role == Fetcher
    requires Apply(c, s, t).actors[a].Acking? && Fits(a.role, s.actors[a])
    ensures s.actors[a] == Apply(c, s, t).actors[a] || t == PutBack(a) || t == Place(a)
  {
    hide RemoveFirst, Before, NotBefore, Due, Jids, Push, Lease, Add;
  }

  lemma PutBackPuts(c: Config, s: State, t: Step, a: Actor)
    requires Enabled(c, s, t) && (t == PutBack(a) || t == Place(a)) && a.role == Fetcher
    requires Fits(a.role, s.actors[a]) && Apply(c, s, t).actors[a].Acking?
    ensures PutsBack(c, s, t, a, Apply(c, s, t).actors[a].jid)
  {
    if t == Place(a) {
      var p := s.actors[a];
      assert Apply(c, s, t).store.retry == s.store.retry + [Timed(p.lease.jid, p.to.at)];
    }
  }

  lemma BecomesAcking(c: Config, s: State, t: Step, a: Actor)
    requires Enabled(c, s, t) && Roles(s) && a in Apply(c, s, t).actors && a.role == Fetcher
    requires Apply(c, s, t).actors[a].Acking?
    ensures a in s.actors
    ensures s.actors[a] == Apply(c, s, t).actors[a] || PutsBack(c, s, t, a, Apply(c, s, t).actors[a].jid)
  {
    RolesStep(c, s, t);
    assert Fits(a.role, s.actors[a]);
    hide Apply, Enabled, Roles, PutsBack;
    AckedBy(c, s, t, a);
    if s.actors[a] != Apply(c, s, t).actors[a] {
      PutBackPuts(c, s, t, a);
    }
  }

  /** A fetcher that is about to ack has put its job back in an earlier step of the run: at the end of the
      queue it was taken from, or into the retry set if the broker had been closed. */
  lemma {:induction false} FetcherPutsBackFirst(c: Config, s: State, run: seq<Step>, a: Actor) returns (i: nat)
    requires Init(s) && Valid(c, s, run)
    requires a in Final(c, s, run).actors && a.role == Fetcher && Final(c, s, run).actors[a].Acking?
    ensures i < |run| && Valid(c, s, run[..i]) && Enabled(c, Final(c, s, run[..i]), run[i])
    ensures PutsBack(c, Final(c, s, run[..i]), run[i], a, Final(c, s, run).actors[a].jid)
    decreases |run|
  {
    var init := run[..|run| - 1];
    LastStep(c, s, run);
    RolesRun(c, s, init);
    hide Apply, Enabled, Roles, PutsBack;
    BecomesAcking(c, Final(c, s, init), run[|run| - 1], a);
    if Final(c, s, init).actors[a] == Final(c, s, run).actors[a] {
      i := FetcherPutsBackFirst(c, s, init, a);
      assert init[..i] == run[..i];
    } else {
      i := |run| - 1;
    }
  }

  // ---- only a stop makes a fetcher leave

  lemma CancelledStays(c: Config, s: State, t: Step)
    requires Enabled(c, s, t)
    ensures s.cancelled <= Apply(c, s, t).cancelled
  {
    hide RemoveFirst, Before, NotBefore, Due, Jids, Push, Lease, Add;
  }

  /** A fetcher in such a phase has left its loop, or is leaving it. */
  predicate Leaving(p: Phase) {
    p.PuttingBack? || p.Placing? || p.Acking? || p == Stopped
  }

  lemma LeavingFrom(c: Config, s: State, t: Step, a: Actor)
    requires Enabled(c, s, t) && a in Apply(c, s, t).actors && a.role == Fetcher && Leaving(Apply(c, s, t).actors[a])
    requires a in s.actors && Fits(a.role, s.actors[a])
    ensures Leaving(s.actors[a]) || a.pid in s.cancelled
  {
    hide RemoveFirst, Before, NotBefore, Due, Jids, Push, Lease, Add;
  }

  ghost predicate StopsOnCancel(s: State) {
    forall a :: a in s.actors && a.role == Fetcher && Leaving(s.actors[a]) ==> a.pid in s.cancelled
  }

  lemma StopsOnCancelStep(c: Config, s: State, t: Step)
    requires Enabled(c, s, t) && Roles(s) && StopsOnCancel(s)
    ensures StopsOnCancel(Apply(c, s, t))
  {
    RolesStep(c, s, t);
    CancelledStays(c, s, t);
    hide Apply, Enabled, Leaving, Fits;
    forall a | a in Apply(c, s, t).actors && a.role == Fetcher && Leaving(Apply(c, s, t).actors[a])
      ensures a.pid in Apply(c, s, t).cancelled
    {
      LeavingFrom(c, s, t, a);
    }
  }

  lemma {:induction false} StopsOnCancelRun(c: Config, s: State, run: seq<Step>)
    requires Valid(c, s, run) && Roles(s) && StopsOnCancel(s)
    ensures StopsOnCancel(Final(c, s, run))
    decreases |run|
  {
    hide Apply, Enabled, StopsOnCancel, Roles;
    if run == [] {
    } else {
      StopsOnCancelStep(c, s, run[0]);
      RolesStep(c, s, run[0]);
      StopsOnCancelRun(c, Apply(c, s, run[0]), run[1..]);
    }
  }

  /** In every run a fetcher gives a job back, or has left, only if its processor has been cancelled. */
  lemma LeavesOnlyWhenCancelled(c: Config, s: State, run: seq<Step>, a: Actor)
    requires Init(s) && Valid(c, s, run) && a in Final(c, s, run).actors && a.role == Fetcher
    requires Final(c, s, run).actors[a].PuttingBack? || Final(c, s, run).actors[a].Acking?
             || Final(c, s, run).actors[a] == Stopped
    ensures a.pid in Final(c, s, run).cancelled
  {
    StopsOnCancelRun(c, s, run);
  }

  /** Nobody stops before the cancellation, and no worker before its fetcher. */
  ghost predicate StopsInOrder(s: State) {
    forall a :: a in s.actors && s.actors[a] == Stopped ==>
      if a.role.Worker? then Actor(a.pid, Fetcher) in s.actors && s.actors[Actor(a.pid, Fetcher)] == Stopped
      else a.pid in s.cancelled
  }

  /** A goroutine stops by leaving its loop, or after the ack of a fetcher that gave its job back. */
  lemma BecomesStopped(c: Config, s: State, t: Step, a: Actor)
    requires Enabled(c, s, t) && a in s.actors && a in Apply(c, s, t).actors
    requires Apply(c, s, t).actors[a] == Stopped && s.actors[a] != Stopped
    ensures t == Exit(a) || (t == Ack(a) && a.role == Fetcher)
  {
    hide RemoveFirst, Before, NotBefore, Due, Jids, Push, Lease, Add, Waiting, Known;
  }

  lemma StoppedFrom(c: Config, s: State, t: Step, a: Actor)
    requires Enabled(c, s, t) && StopsOnCancel(s) && a in s.actors && a in Apply(c, s, t).actors
    requires Apply(c, s, t).actors[a] == Stopped && s.actors[a] != Stopped
    ensures if a.role.Worker? then Actor(a.pid, Fetcher) in s.actors && s.actors[Actor(a.pid, Fetcher)] == Stopped
            else a.pid in s.cancelled
  {
    BecomesStopped(c, s, t, a);
    hide Apply;
  }

  lemma StopsInOrderStep(c: Config, s: State, t: Step)
    requires Enabled(c, s, t) && Roles(s) && StopsOnCancel(s) && StopsInOrder(s)
    ensures StopsInOrder(Apply(c, s, t))
  {
    var s' := Apply(c, s, t);
    RolesStep(c, s, t);
    CancelledStays(c, s, t);
    hide Apply, Enabled, Roles, StopsOnCancel;
    forall a | a in s'.actors && s'.actors[a] == Stopped
      ensures if a.role.Worker?
              then Actor(a.pid, Fetcher) in s'.actors && s'.actors[Actor(a.pid, Fetcher)] == Stopped
              else a.pid in s'.cancelled
    {
      if s.actors[a] != Stopped {
        StoppedFrom(c, s, t, a);
      }
      if a.role.Worker? {
        StoppedStays(c, s, t, Actor(a.pid, Fetcher));
      }
    }
  }

  lemma StoppedStays(c: Config, s: State, t: Step, a: Actor)
    requires Enabled(c, s, t) && a in s.actors && s.actors[a] == Stopped
    ensures a in Apply(c, s, t).actors && Apply(c, s, t).actors[a] == Stopped
  {
    hide RemoveFirst, Before, NotBefore, Due, Jids, Push, Lease, Add, Waiting, Known;
  }

  /** In every run a goroutine has stopped only if its processor has been cancelled, and a worker only if its
      fetcher has stopped before it, so that nothing can be handed to it any more. */
  lemma {:induction false} WorkersStopLast(c: Config, s: State, run: seq<Step>)
    requires Valid(c, s, run) && Roles(s) && StopsOnCancel(s) && StopsInOrder(s)
    ensures StopsInOrder(Final(c, s, run))
    decreases |run|
  {
    hide Apply, Enabled, StopsOnCancel, StopsInOrder, Roles;
    if run == [] {
    } else {
      StopsOnCancelStep(c, s, run[0]);
      StopsInOrderStep(c, s, run[0]);
      RolesStep(c, s, run[0]);
      WorkersStopLast(c, Apply(c, s, run[0]), run[1..]);
    }
  }

  /** And once it is cancelled its fetcher does not start another poll. */
  lemma {:induction false} NoPollAfterCancel(c: Config, s: State, run: seq<Step>, pid: nat)
    requires Valid(c, s, run) && pid in s.cancelled
    ensures forall t :: t in run ==> !(t.Poll? && t.actor.pid == pid)
    decreases |run|
  {
    if run == [] {
    } else {
      assert run == [run[0]] + run[1..];
      assert !(run[0].Poll? && run[0].actor.pid == pid);
      CancelledStays(c, s, run[0]);
      hide Apply, Enabled;
      NoPollAfterCancel(c, Apply(c, s, run[0]), run[1..], pid);
    }
  }

  // ---- a closed broker

  /** A closed broker takes no job in. A job given back goes to the retry set at once, a retry loop's job is
      charged and goes back where it came from, an orphan is dropped, and no client is served. */
  lemma ClosedRefuses(c: Config, s: State, t: Step)
    requires Enabled(c, s, t) && s.store.closed
    ensures !t.Submit? && Apply(c, s, t).store.closed
    ensures t.PutBack? ==>
      Apply(c, s, t) == Move(s, t.actor, Placing(s.actors[t.actor].lease, ToRetry(s.now)))
    ensures t.RetryEnqueue? ==>
      && Apply(c, s, t).store == s.store && Apply(c, s, t).actors[t.actor].Refused?
      && Apply(c, s, t).actors[t.actor].jid == s.actors[t.actor].jid
    ensures t.ReapNext? ==> Apply(c, s, t).store == s.store
    ensures forall q :: |Waiting(Apply(c, s, t).store, q)| <= |Waiting(s.store, q)|
  {
    hide RemoveFirst, Before, NotBefore, Due, Jids;
  }

  /** Once the broker is closed no queue grows any more. */
  lemma {:induction false} ClosedQueuesShrink(c: Config, s: State, run: seq<Step>, q: string)
    requires Valid(c, s, run) && s.store.closed
    ensures Final(c, s, run).store.closed && |Waiting(Final(c, s, run).store, q)| <= |Waiting(s.store, q)|
    decreases |run|
  {
    if run == [] {
    } else {
      ClosedRefuses(c, s, run[0]);
      hide Apply, Enabled, Waiting;
      ClosedQueuesShrink(c, Apply(c, s, run[0]), run[1..], q);
    }
  }

  // ---- the engine: cancel, wait, close

  datatype StopPhase = Running | Draining | Returned | Closed

  /** An engine with the broker its processor works on; `stop` is how far its `Stop` has got. */
  datatype Engine = Engine(state: State, stop: StopPhase)

  datatype EngineStep = Work(step: Step) | CallStop | StopReturns | CloseBroker

  predicate Ended(p: Phase) {
    p == Stopped || p == Crashed
  }

  /** What the processor's wait group waits for. */
  ghost predicate AllEnded(s: State, pid: nat) {
    forall a :: a in s.actors && a.pid == pid ==> Ended(s.actors[a])
  }

  ghost predicate EngineEnabled(c: Config, pid: nat, e: Engine, t: EngineStep) {
    match t
    case Work(step) => Enabled(c, e.state, step) && !step.Close? && step != Cancel(pid)
    case CallStop => e.stop == Running
    case StopReturns => e.stop == Draining && AllEnded(e.state, pid)
    case CloseBroker => e.stop == Returned
  }

  /** The protocol steps an engine step consists of. */
  function StepsOf(pid: nat, t: EngineStep): seq<Step> {
    match t
    case Work(step) => [step]
    case CallStop => [Cancel(pid)]
    case StopReturns => []
    case CloseBroker => [Close]
  }

  function EngineApply(c: Config, pid: nat, e: Engine, t: EngineStep): Engine
    requires EngineEnabled(c, pid, e, t)
  {
    match t
    case Work(step) => e.(state := Apply(c, e.state, step))
    case CallStop => Engine(Apply(c, e.state, Cancel(pid)), Draining)
    case StopReturns => e.(stop := Returned)
    case CloseBroker => Engine(Apply(c, e.state, Close), Closed)
  }

  ghost predicate EngineValid(c: Config, pid: nat, e: Engine, run: seq<EngineStep>)
    decreases |run|
  {
    run == [] || (EngineEnabled(c, pid, e, run[0]) && EngineValid(c, pid, EngineApply(c, pid, e, run[0]), run[1..]))
  }

  ghost function EngineFinal(c: Config, pid: nat, e: Engine, run: seq<EngineStep>): Engine
    requires EngineValid(c, pid, e, run)
    decreases |run|
  {
    if run == [] then e else EngineFinal(c, pid, EngineApply(c, pid, e, run[0]), run[1..])
  }

  function ProtocolRun(pid: nat, run: seq<EngineStep>): seq<Step> {
    if run == [] then [] else StepsOf(pid, run[0]) + ProtocolRun(pid, run[1..])
  }

  /** An engine's run is a run of the protocol. */
  lemma {:induction false} EngineRunsProtocol(c: Config, pid: nat, e: Engine, run: seq<EngineStep>)
    requires EngineValid(c, pid, e, run)
    ensures Valid(c, e.state, ProtocolRun(pid, run))
    ensures Final(c, e.state, ProtocolRun(pid, run)) == EngineFinal(c, pid, e, run).state
    decreases |run|
  {
    if run == [] {
    } else {
      var e' := EngineApply(c, pid, e, run[0]);
      EngineRunsProtocol(c, pid, e', run[1..]);
      var steps, rest := StepsOf(pid, run[0]), ProtocolRun(pid, run[1..]);
      assert steps != [] ==> (steps + rest)[1..] == rest;
      assert steps == [] ==> steps + rest == rest;
      hide Apply, AllEnded;
    }
  }

  lemma ActorEnds(c: Config, s: State, t: Step, a: Actor)
    requires Enabled(c, s, t) && a in Apply(c, s, t).actors
    ensures a in s.actors && (Ended(s.actors[a]) ==> Ended(Apply(c, s, t).actors[a]))
  {
    hide RemoveFirst, Before, NotBefore, Due, Jids, Push, Lease, Add;
  }

  lemma EndedStays(c: Config, s: State, t: Step, pid: nat)
    requires Enabled(c, s, t) && AllEnded(s, pid)
    ensures AllEnded(Apply(c, s, t), pid)
  {
    hide Apply, Enabled, Ended;
    forall a | a in Apply(c, s, t).actors && a.pid == pid
      ensures Ended(Apply(c, s, t).actors[a])
    {
      ActorEnds(c, s, t, a);
    }
  }

  /** Stop has returned, or the broker is closed, only when the engine's goroutines have ended. */
  ghost predicate InOrder(e: Engine, pid: nat) {
    && (e.stop == Returned || e.stop == Closed ==> AllEnded(e.state, pid))
    && (e.state.store.closed <==> e.stop == Closed)
  }

  lemma OnlyCloseCloses(c: Config, s: State, t: Step)
    requires Enabled(c, s, t) && !t.Close?
    ensures Apply(c, s, t).store.closed == s.store.closed
  {
    hide RemoveFirst, Before, NotBefore, Due, Jids;
  }

  lemma InOrderStep(c: Config, pid: nat, e: Engine, t: EngineStep)
    requires EngineEnabled(c, pid, e, t) && InOrder(e, pid)
    ensures InOrder(EngineApply(c, pid, e, t), pid)
  {
    if t.Work? {
      OnlyCloseCloses(c, e.state, t.step);
      if AllEnded(e.state, pid) {
        EndedStays(c, e.state, t.step, pid);
      }
      hide Apply, AllEnded;
    }
  }

  lemma {:induction false} ClosedLast(c: Config, pid: nat, e: Engine, run: seq<EngineStep>)
    requires EngineValid(c, pid, e, run) && InOrder(e, pid)
    ensures InOrder(EngineFinal(c, pid, e, run), pid)
    decreases |run|
  {
    hide EngineApply, EngineEnabled, InOrder;
    if run == [] {
    } else {
      InOrderStep(c, pid, e, run[0]);
      ClosedLast(c, pid, EngineApply(c, pid, e, run[0]), run[1..]);
    }
  }

  /** So under the engine a job given back at shutdown is always accepted: it goes to the end of the very
      queue it was taken from, and only then does the fetcher ack. */
  lemma PutBackLandsInItsQueue(c: Config, pid: nat, e: Engine, run: seq<EngineStep>, a: Actor)
    requires Init(e.state) && e.stop == Running && EngineValid(c, pid, e, run) && a.pid == pid
    requires Enabled(c, EngineFinal(c, pid, e, run).state, PutBack(a))
    ensures var before := EngineFinal(c, pid, e, run).state;
      var p := before.actors[a];
      var after := Apply(c, before, PutBack(a));
      && after.actors[a] == Acking(p.lease.jid, true)
      && Waiting(after.store, p.queue) == Waiting(before.store, p.queue) + [p.lease.jid]
  {
    ClosedLast(c, pid, e, run);
  }

  lemma {:induction false} ProtocolCrashFree(pid: nat, run: seq<EngineStep>)
    requires forall t :: t in run ==> !(t.Work? && t.step.Crash?)
    ensures CrashFree(ProtocolRun(pid, run))
  {
    if run == [] {
    } else {
      assert run == [run[0]] + run[1..];
      ProtocolCrashFree(pid, run[1..]);
    }
  }

  /** Once the `Stop` of an engine without crashes is through: the broker is closed, its processing set is
      empty, and every accepted job whose queue was not deleted under it has succeeded or is at rest. */
  lemma EngineShutdown(c: Config, pid: nat, e: Engine, run: seq<EngineStep>)
    requires Init(e.state) && e.stop == Running && (forall a :: a in e.state.actors ==> a.pid == pid)
    requires EngineValid(c, pid, e, run) && forall t :: t in run ==> !(t.Work? && t.step.Crash?)
    requires EngineFinal(c, pid, e, run).stop == Closed
    ensures EngineFinal(c, pid, e, run).state.store.closed && EngineFinal(c, pid, e, run).state.store.processing == []
    ensures Valid(c, e.state, ProtocolRun(pid, run))
    ensures var s' := EngineFinal(c, pid, e, run).state;
      forall j :: j in s'.jobs && NeverDeleted(c, e.state, ProtocolRun(pid, run), j) ==>
        j in s'.succeeded || AtRest(s', j)
  {
    var steps := ProtocolRun(pid, run);
    EngineRunsProtocol(c, pid, e, run);
    ClosedLast(c, pid, e, run);
    ProtocolCrashFree(pid, run);
    NoneCrashedRun(c, e.state, steps);
    RolesRun(c, e.state, steps);
    hide AtRest, Valid, Final, EngineValid, EngineFinal, NeverDeleted, Roles;
    CleanShutdown(c, e.state, steps);
  }
}
