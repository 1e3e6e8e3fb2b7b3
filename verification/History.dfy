/** What the history and the records in a state say about the run that led to it. */
module History {
  import opened Options
  import opened Payload
  import opened MemoryBroker
  import opened Lifecycle
  import opened NoLoss
  import opened Shutdown

  // ---- which jobs have succeeded

  /** The step is the return of a handler that succeeded with job `j`. */
  predicate Succeeds(s: State, t: Step, j: Jid) {
    && t.Return? && t.outcome == Succeeded
    && t.actor in s.actors && s.actors[t.actor].Executing? && s.actors[t.actor].lease.jid == j
  }

  ghost predicate SucceedsAt(c: Config, s: State, run: seq<Step>, i: nat, j: Jid) {
    i < |run| && Valid(c, s, run[..i]) && Succeeds(Final(c, s, run[..i]), run[i], j)
  }

  lemma SuccessStep(c: Config, s: State, t: Step, j: Jid)
    requires Enabled(c, s, t)
    ensures j in Apply(c, s, t).succeeded <==> j in s.succeeded || Succeeds(s, t, j)
  {
    hide Delay, RemoveFirst, Before, NotBefore, Due, Jids, Push, Lease, Add;
  }

  lemma SucceedsAtPrefix(c: Config, s: State, run: seq<Step>, i: nat, j: Jid)
    requires run != []
    ensures i < |run| - 1 ==> (SucceedsAt(c, s, run[..|run| - 1], i, j) <==> SucceedsAt(c, s, run, i, j))
  {
    hide Succeeds, Valid, Final;
    if i < |run| - 1 {
      assert run[..|run| - 1][..i] == run[..i];
    }
  }

  /** In every run: a job counts as succeeded if and only if some handler call with it returned success. */
  lemma {:induction false} SucceededIff(c: Config, s: State, run: seq<Step>, j: Jid)
    requires Init(s) && Valid(c, s, run)
    ensures j in Final(c, s, run).succeeded <==> exists i: nat :: SucceedsAt(c, s, run, i, j)
    decreases |run|
  {
    if run == [] {
    } else {
      var init, n := run[..|run| - 1], |run| - 1;
      LastStep(c, s, run);
      SucceededIff(c, s, init, j);
      SuccessStep(c, Final(c, s, init), run[n], j);
      assert SucceedsAt(c, s, run, n, j) <==> Succeeds(Final(c, s, init), run[n], j);
      if i: nat :| SucceedsAt(c, s, init, i, j) {
        SucceedsAtPrefix(c, s, run, i, j);
        assert SucceedsAt(c, s, run, i, j);
      }
      if i: nat :| SucceedsAt(c, s, run, i, j) && i < n {
        SucceedsAtPrefix(c, s, run, i, j);
        assert SucceedsAt(c, s, init, i, j);
      }
      hide Valid, Final, Apply, Enabled, Succeeds;
    }
  }

  // ---- what a job's record says

  /** The failures and refusals of a job so far, the time of the first, and the waits they imposed. */
  datatype Ledger = Ledger(failures: nat, refusals: nat, first: Option<int>, waits: nat)

  const NOTHING := Ledger(0, 0, None, 0)

  /** A handler call with the job has failed, and not because the circuit was open. */
  predicate Fails(s: State, t: Step, j: Jid) {
    && t.Record? && t.actor in s.actors && s.actors[t.actor].Recording?
    && s.actors[t.actor].lease.jid == j && s.actors[t.actor].outcome == Failing
  }

  /** The retry loop's re-enqueue of the job is refused: its context is cancelled or the broker closed. */
  predicate IsRefused(s: State, t: Step, j: Jid) {
    && t.RetryEnqueue? && t.actor in s.actors && s.actors[t.actor].Carrying? && s.actors[t.actor].jid == j
    && (t.actor.pid in s.cancelled || s.store.closed)
  }

  /** The ledger of a job with `retry` attempts after one more step: attempt `n` costs `2^n` seconds if the
      handler failed and a minute if the re-enqueue was refused, and nothing once they are used up. */
  function Enter(s: State, t: Step, j: Jid, retry: nat, l: Ledger): Ledger {
    var count := l.failures + l.refusals + 1;
    var first := if l.first.Some? then l.first else Some(s.now);
    if Fails(s, t, j) then
      Ledger(l.failures + 1, l.refusals, first, l.waits + if count <= retry then Pow2(count) * 1_000_000_000 else 0)
    else if IsRefused(s, t, j) then
      Ledger(l.failures, l.refusals + 1, first, l.waits + if count <= retry then 60 * 1_000_000_000 else 0)
    else l
  }

  ghost function LedgerOf(c: Config, s: State, run: seq<Step>, j: Jid, retry: nat, l: Ledger): Ledger
    requires Valid(c, s, run)
    decreases |run|
  {
    if run == [] then l else LedgerOf(c, Apply(c, s, run[0]), run[1..], j, retry, Enter(s, run[0], j, retry, l))
  }

  predicate Agrees(s: State, j: Jid, q: string, retry: nat, l: Ledger) {
    && j in s.jobs && retry <= MAX_RETRY_COUNT
    && s.jobs[j].queue == q && s.jobs[j].retry == retry && s.jobs[j].retryCount == l.failures + l.refusals
    && s.jobs[j].failures == l.failures && s.jobs[j].refusals == l.refusals
    && s.jobs[j].charged == l.first && s.jobs[j].imposed == l.waits
  }

  lemma AgreesAfterRecord(c: Config, s: State, a: Actor, j: Jid, q: string, retry: nat, l: Ledger)
    requires Enabled(c, s, Step.Record(a)) && Agrees(s, j, q, retry, l)
    ensures Agrees(Apply(c, s, Step.Record(a)), j, q, retry, Enter(s, Step.Record(a), j, retry, l))
  {
    var count := s.jobs[j].retryCount + 1;
    if count <= retry {
      DelayDoublesAndFits(count);
    }
    hide Delay, Pow2;
  }

  lemma AgreesAfterEnqueue(c: Config, s: State, a: Actor, j: Jid, q: string, retry: nat, l: Ledger)
    requires Enabled(c, s, RetryEnqueue(a)) && Agrees(s, j, q, retry, l)
    ensures Agrees(Apply(c, s, RetryEnqueue(a)), j, q, retry, Enter(s, RetryEnqueue(a), j, retry, l))
  {
    hide Push, Pow2;
  }

  lemma AgreesStep(c: Config, s: State, t: Step, j: Jid, q: string, retry: nat, l: Ledger)
    requires Enabled(c, s, t) && Agrees(s, j, q, retry, l)
    ensures Agrees(Apply(c, s, t), j, q, retry, Enter(s, t, j, retry, l))
  {
    match t
    case Record(a) =>
      hide Apply, Enabled, Agrees, Enter;
      AgreesAfterRecord(c, s, a, j, q, retry, l);
    case RetryEnqueue(a) =>
      hide Apply, Enabled, Agrees, Enter;
      AgreesAfterEnqueue(c, s, a, j, q, retry, l);
    case Submit(_, _, _) => hide Push, Pow2;
    case _ =>
      JobsUntouched(c, s, t);
      hide Apply, Pow2;
  }

  lemma {:induction false} AgreesRun(c: Config, s: State, run: seq<Step>, j: Jid, q: string, retry: nat, l: Ledger)
    requires Valid(c, s, run) && Agrees(s, j, q, retry, l)
    ensures Agrees(Final(c, s, run), j, q, retry, LedgerOf(c, s, run, j, retry, l))
    decreases |run|
  {
    hide Apply, Enabled, Agrees, Enter;
    if run == [] {
    } else {
      AgreesStep(c, s, run[0], j, q, retry, l);
      AgreesRun(c, Apply(c, s, run[0]), run[1..], j, q, retry, Enter(s, run[0], j, retry, l));
    }
  }

  /** A JID is submitted once. */
  lemma {:induction false} NotSubmittedAgain(c: Config, s: State, run: seq<Step>, j: Jid)
    requires Valid(c, s, run) && j in s.jobs
    ensures forall t :: t in run ==> !(t.Submit? && t.jid == j)
    decreases |run|
  {
    if run == [] {
    } else {
      StepHistory(c, s, run[0], j);
      assert !(run[0].Submit? && run[0].jid == j);
      hide Apply, Enabled;
      NotSubmittedAgain(c, Apply(c, s, run[0]), run[1..], j);
    }
  }

  lemma FirstRecord(c: Config, s: State, j: Jid, q: string, retry: nat)
    requires Enabled(c, s, Submit(j, q, retry))
    ensures Agrees(Apply(c, s, Submit(j, q, retry)), j, q, retry, NOTHING)
    ensures Enter(s, Submit(j, q, retry), j, retry, NOTHING) == NOTHING
  {
  }

  lemma NothingBefore(c: Config, s: State, t: Step, j: Jid, retry: nat)
    requires Enabled(c, s, t) && j !in s.jobs
    ensures Enter(s, t, j, retry, NOTHING) == NOTHING
  {
  }

  /** In every run that submits a job: its record has the queue and the retry setting that the client gave, and
      counts exactly the failures and refusals of the run, the time of the first, and the waits imposed. */
  lemma {:induction false} RecordTellsRun(c: Config, s: State, run: seq<Step>, j: Jid, q: string, retry: nat)
    requires Valid(c, s, run) && j !in s.jobs && Submit(j, q, retry) in run
    ensures Agrees(Final(c, s, run), j, q, retry, LedgerOf(c, s, run, j, retry, NOTHING))
    decreases |run|
  {
    var t, s' := run[0], Apply(c, s, run[0]);
    assert run == [t] + run[1..];
    if t == Submit(j, q, retry) {
      FirstRecord(c, s, j, q, retry);
      AgreesRun(c, s', run[1..], j, q, retry, NOTHING);
    } else {
      StepHistory(c, s, t, j);
      NothingBefore(c, s, t, j, retry);
      hide Apply, Enabled, Agrees, Enter;
      if j in s'.jobs {
        NotSubmittedAgain(c, s', run[1..], j);
      }
      RecordTellsRun(c, s', run[1..], j, q, retry);
    }
  }

  /** And only what a run submits has a record. */
  lemma {:induction false} AcceptedWasSubmitted(c: Config, s: State, run: seq<Step>, j: Jid)
    requires Valid(c, s, run) && j !in s.jobs && j in Final(c, s, run).jobs
    ensures exists q, retry :: Submit(j, q, retry) in run
    decreases |run|
  {
    if run == [] {
    } else {
      var t, s' := run[0], Apply(c, s, run[0]);
      assert run == [t] + run[1..];
      StepHistory(c, s, t, j);
      hide Apply, Enabled;
      if j in s'.jobs {
        assert t == Submit(j, t.queue, t.retry);
      } else {
        AcceptedWasSubmitted(c, s', run[1..], j);
      }
    }
  }
}
