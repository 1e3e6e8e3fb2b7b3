/** A shutdown that happens: the fetcher is stopped with a job in its hands, and everybody leaves. */
module Stopping {
  import opened MemoryBroker
  import opened Lifecycle
  import opened NoLoss
  import opened Shutdown

  const L := Actor(0, RetryLoop)

  function StoppingRun(j: Jid, q: string): seq<EngineStep> {
    [Work(Submit(j, q, 5)), Work(Poll(F, q)), Work(Dequeue(F)), CallStop, Work(Interrupt(F)), Work(PutBack(F)),
     Work(Ack(F)), Work(Exit(W)), Work(Exit(L)), Work(Exit(R)), StopReturns, CloseBroker]
  }

  lemma FirstEngineStep(c: Config, e: Engine, t: EngineStep, rest: seq<EngineStep>) returns (run: seq<EngineStep>)
    requires EngineEnabled(c, 0, e, t) && EngineValid(c, 0, EngineApply(c, 0, e, t), rest)
    ensures run == [t] + rest && EngineValid(c, 0, e, run)
    ensures EngineFinal(c, 0, e, run) == EngineFinal(c, 0, EngineApply(c, 0, e, t), rest)
  {
    hide EngineApply, EngineEnabled;
    run := [t] + rest;
    assert run[1..] == rest;
  }

  /** The fetcher in phase `p`, and all others idle. */
  predicate Crew(s: State, p: Phase) {
    && s.actors.Keys == {F, W, L, R} && s.actors[F] == p
    && s.actors[W] == Idle && s.actors[L] == Idle && s.actors[R] == Idle
  }

  /** The stop is through, and the job alone in its queue. */
  ghost predicate Through(e: Engine, j: Jid, q: string) {
    e.stop == Closed && e.state.store.closed && e.state.store.processing == [] && Waiting(e.state.store, q) == [j]
  }

  predicate Resting(s: Store, j: Jid, q: string) {
    s.processing == [] && Waiting(s, q) == [j]
  }

  lemma Closes(c: Config, e: Engine, j: Jid, q: string) returns (run: seq<EngineStep>)
    requires e.stop == Draining && AllEnded(e.state, 0) && Resting(e.state.store, j, q)
    ensures run == [StopReturns, CloseBroker] && EngineValid(c, 0, e, run)
    ensures Through(EngineFinal(c, 0, e, run), j, q)
  {
    var e1 := e.(stop := Returned);
    run := FirstEngineStep(c, e1, CloseBroker, []);
    hide AllEnded;
    run := FirstEngineStep(c, e, StopReturns, run);
  }

  lemma AllLeave(c: Config, e: Engine, j: Jid, q: string) returns (run: seq<EngineStep>)
    requires e.stop == Draining && 0 in e.state.cancelled && Crew(e.state, Stopped)
    requires Resting(e.state.store, j, q)
    ensures run == StoppingRun(j, q)[7..] && EngineValid(c, 0, e, run)
    ensures Through(EngineFinal(c, 0, e, run), j, q)
  {
    hide Through, EngineValid, EngineFinal, Resting;
    var e1 := e.(state := Move(e.state, W, Stopped));
    var e2 := e1.(state := Move(e1.state, L, Stopped));
    var e3 := e2.(state := Move(e2.state, R, Stopped));
    run := Closes(c, e3, j, q);
    hide AllEnded;
    run := FirstEngineStep(c, e2, Work(Exit(R)), run);
    run := FirstEngineStep(c, e1, Work(Exit(L)), run);
    run := FirstEngineStep(c, e, Work(Exit(W)), run);
  }

  lemma AcksIt(c: Config, e: Engine, j: Jid, q: string, l: Timed) returns (run: seq<EngineStep>)
    requires e.stop == Draining && 0 in e.state.cancelled && Crew(e.state, Acking(j, true))
    requires l.jid == j && e.state.store.processing == [l] && Waiting(e.state.store, q) == [j]
    ensures run == StoppingRun(j, q)[6..] && EngineValid(c, 0, e, run)
    ensures Through(EngineFinal(c, 0, e, run), j, q)
  {
    hide Through, EngineValid, EngineFinal, AllEnded;
    assert [l][1..] == [];
    var e1 := e.(state := Acked(e.state, F));
    run := AllLeave(c, e1, j, q);
    run := FirstEngineStep(c, e, Work(Ack(F)), run);
  }

  lemma PutsItBack(c: Config, e: Engine, j: Jid, q: string, l: Timed) returns (run: seq<EngineStep>)
    requires e.stop == Draining && 0 in e.state.cancelled && Crew(e.state, PuttingBack(l, q))
    requires !e.state.store.closed && l.jid == j && e.state.store.processing == [l] && Waiting(e.state.store, q) == []
    ensures run == StoppingRun(j, q)[5..] && EngineValid(c, 0, e, run)
    ensures Through(EngineFinal(c, 0, e, run), j, q)
  {
    hide Through, EngineValid, EngineFinal, AllEnded;
    var e1 := e.(state := GivenBack(e.state, F));
    run := AcksIt(c, e1, j, q, l);
    run := FirstEngineStep(c, e, Work(PutBack(F)), run);
  }

  lemma IsStopped(c: Config, e: Engine, j: Jid, q: string, l: Timed) returns (run: seq<EngineStep>)
    requires e.stop == Running && Crew(e.state, Holding(l, q))
    requires !e.state.store.closed && l.jid == j && e.state.store.processing == [l] && Waiting(e.state.store, q) == []
    ensures run == StoppingRun(j, q)[3..] && EngineValid(c, 0, e, run)
    ensures Through(EngineFinal(c, 0, e, run), j, q)
  {
    hide Through, EngineValid, EngineFinal, AllEnded, Waiting;
    var e1 := EngineApply(c, 0, e, CallStop);
    var e2 := e1.(state := Move(e1.state, F, PuttingBack(l, q)));
    run := PutsItBack(c, e2, j, q, l);
    run := FirstEngineStep(c, e1, Work(Interrupt(F)), run);
    run := FirstEngineStep(c, e, CallStop, run);
  }

  lemma LeaseEffect(s: State, j: Jid, q: string)
    requires Crew(s, Polling(q)) && s.store.processing == [] && Waiting(s.store, q) == [j]
    ensures var s' := Leased(s, F);
      && s'.actors[F].Holding? && s'.actors[F].lease.jid == j && Crew(s', Holding(s'.actors[F].lease, q))
      && s'.store.processing == [s'.actors[F].lease] && Waiting(s'.store, q) == []
      && s'.store.closed == s.store.closed
  {
  }

  lemma Leases(c: Config, e: Engine, j: Jid, q: string) returns (run: seq<EngineStep>)
    requires e.stop == Running && Crew(e.state, Idle) && Known(c, F, q) && 0 !in e.state.cancelled
    requires !e.state.store.closed && e.state.store.processing == [] && Waiting(e.state.store, q) == [j]
    ensures run == StoppingRun(j, q)[1..] && EngineValid(c, 0, e, run)
    ensures Through(EngineFinal(c, 0, e, run), j, q)
  {
    hide Through, EngineValid, EngineFinal, AllEnded, Leased;
    var e1 := e.(state := Move(e.state, F, Polling(q)));
    LeaseEffect(e1.state, j, q);
    hide Waiting;
    var e2 := e1.(state := Leased(e1.state, F));
    run := IsStopped(c, e2, j, q, e2.state.actors[F].lease);
    run := FirstEngineStep(c, e1, Work(Dequeue(F)), run);
    run := FirstEngineStep(c, e, Work(Poll(F, q)), run);
  }

  /** A stop does come to its end, also with a job in the fetcher's hands, which is then back in its queue. */
  lemma StopCanFinish(c: Config, e: Engine, j: Jid, q: string)
    requires Init(e.state) && e.stop == Running && e.state.actors.Keys == {F, W, L, R} && Known(c, F, q)
    ensures EngineValid(c, 0, e, StoppingRun(j, q))
    ensures Through(EngineFinal(c, 0, e, StoppingRun(j, q)), j, q)
  {
    hide Through, EngineValid, EngineFinal, AllEnded;
    var e1 := e.(state := Submitted(e.state, j, q, 5));
    assert Waiting(e1.state.store, q) == [j];
    hide Waiting;
    var run := Leases(c, e1, j, q);
    run := FirstEngineStep(c, e, Work(Submit(j, q, 5)), run);
    Parts(j, q);
  }

  lemma Parts(j: Jid, q: string)
    ensures StoppingRun(j, q) == [Work(Submit(j, q, 5))] + StoppingRun(j, q)[1..]
  {
  }
}
