/** Runs over Redis do with counts and times what the lifecycle protocol does. */
module RedisLifecycle {
  import opened Options
  import opened Payload
  import opened Redis
  import opened RedisRuns
  import opened RedisNoLoss
  import Lifecycle

  // ---- one outcome

  predicate SameCounts(r: Lifecycle.Record, j: Job) {
    r.retry == j.retry && r.retryCount == j.retryCount
  }

  /** The key space with the job put where the protocol says. */
  function Sent(c: Codec, ks: KeySpace, j: Job, to: Lifecycle.Destination, now: int): KeySpace {
    match to
    case ToRetry(at) => ks.(retry := ks.retry[c.marshal(j) := Unix(at)])
    case ToDead => ks.(dead := ks.dead[c.marshal(j) := Unix(now)])
  }

  /** A failure changes the counts, and sends the job to the set and the time, as in the protocol. */
  lemma FailureAgrees(c: Codec, s: State, id: nat, r: Lifecycle.Record)
    requires Enabled(c, s, Settle(id, Failing)) && SameCounts(r, s.holders[id].job)
    ensures var (r', to) := Lifecycle.AfterFailure(r, s.now);
      var s' := Apply(c, s, Settle(id, Failing));
      SameCounts(r', s'.holders[id].job) && s'.keys == Sent(c, s.keys, s'.holders[id].job, to, s.now)
  {
    hide Delay, Unix;
  }

  /** So does a refused re-enqueue; an accepted one changes no count. */
  lemma RefusalAgrees(c: Codec, s: State, id: nat, r: Lifecycle.Record)
    requires Enabled(c, s, RetryPut(id, false)) && SameCounts(r, LoopOf(s, id).hand.value)
    ensures var (r', to) := Lifecycle.AfterRefusal(r, s.now);
      var j := LoopOf(s, id).hand.value;
      var j' := j.(retryCount := r'.retryCount, state := if to.ToDead? then Dead else Pending);
      Apply(c, s, RetryPut(id, false)).keys == Sent(c, s.keys, j', to, s.now)
  {
    hide Unix;
  }

  /** What each outcome does to a sound job, in numbers. A failure with attempts left is due `2^n` seconds later
      as attempt `n`; the last one goes to the dead set; an open circuit costs five seconds and no attempt. */
  lemma OutcomeInNumbers(c: Codec, s: State, id: nat, outcome: Outcome)
    requires Enabled(c, s, Settle(id, outcome)) && Sound(c, s.holders[id].job)
    ensures var j := s.holders[id].job;
      var ks := Apply(c, s, Settle(id, outcome)).keys;
      var retried := j.(retryCount := j.retryCount + 1, state := Failed);
      var buried := j.(retryCount := j.retryCount + 1, state := Dead);
      var pending := j.(state := Pending);
      && ks.processing == s.keys.processing
      && (outcome == Succeeded ==> ks == s.keys)
      && (outcome.PutBack? ==>
            ks == s.keys.(lists := s.keys.lists[outcome.queue := [c.marshal(pending)] + List(s.keys, outcome.queue)]))
      && (outcome == PutBackRefused ==>
            ks == s.keys.(retry := s.keys.retry[c.marshal(pending) := s.now / 1_000_000_000]))
      && (outcome == CircuitOpen ==>
            ks == s.keys.(retry := s.keys.retry[c.marshal(pending) := (s.now + 5_000_000_000) / 1_000_000_000]))
      && (outcome == Failing && j.retryCount < j.retry ==>
            var at := s.now + Pow2(j.retryCount + 1) * 1_000_000_000;
            ks == s.keys.(retry := s.keys.retry[c.marshal(retried) := at / 1_000_000_000]))
      && (outcome == Failing && j.retryCount >= j.retry ==>
            ks == s.keys.(dead := s.keys.dead[c.marshal(buried) := s.now / 1_000_000_000]))
  {
    var j := s.holders[id].job;
    if j.retryCount < j.retry {
      DelayDoublesAndFits(j.retryCount + 1);
    }
    hide Delay, Pow2;
  }

  // ---- what is in the dead set

  /** The job has used up its allowance, as far as decoding, which clamps the count at 25, can tell. */
  predicate Spent(j: Job) {
    j.retryCount > j.retry || (j.retry == 25 && j.retryCount == 25)
  }

  ghost predicate AllSpent(c: Codec, z: SortedSet) {
    forall m :: m in z ==> Decode(c, m).Some? && Spent(Decode(c, m).value)
  }

  ghost predicate DeadSpent(c: Codec, s: State) {
    AllSpent(c, s.keys.dead)
  }

  lemma BuriedSpent(c: Codec, j: Job)
    requires Lawful(c) && c.canonical(j.args) && 0 <= j.retry <= 25 && j.retryCount > j.retry
    ensures var b := c.marshal(j); Decode(c, b).Some? && Spent(Decode(c, b).value)
  {
    var plain := j.(raw := []);
    assert c.marshal(j) == c.marshal(plain) && c.unmarshal(c.marshal(plain)) == Some(plain);
  }

  lemma SpentGrows(c: Codec, z: SortedSet, j: Job, score: int)
    requires Lawful(c) && AllSpent(c, z) && c.canonical(j.args) && 0 <= j.retry <= 25 && j.retryCount > j.retry
    ensures AllSpent(c, z[c.marshal(j) := score])
  {
    BuriedSpent(c, j);
    hide Lawful, Decode, Spent;
  }

  lemma SettledSpent(c: Codec, s: State, j: Job, outcome: Outcome)
    requires Lawful(c) && Sound(c, j) && AllSpent(c, s.keys.dead)
    ensures AllSpent(c, Settled(c, s, j, outcome).dead)
  {
    var j' := Mutated(j, outcome);
    hide Lawful, AllSpent, Unix, Delay;
    if outcome == Failing && j'.retryCount > j'.retry {
      SpentGrows(c, s.keys.dead, j', Unix(s.now));
    }
  }

  lemma PutReadSpent(c: Codec, s: State, j: Job, accepted: bool)
    requires Lawful(c) && Sound(c, j) && AllSpent(c, s.keys.dead)
    ensures AllSpent(c, PutRead(c, s, j, accepted).dead)
  {
    hide Lawful, AllSpent, Unix;
    if !accepted && j.retryCount + 1 > j.retry {
      SpentGrows(c, s.keys.dead, j.(state := Dead, retryCount := j.retryCount + 1), Unix(s.now));
    }
  }

  lemma DeadSpentStep(c: Codec, s: State, t: Step)
    requires Lawful(c) && Faithful(c, s) && Enabled(c, s, t) && DeadSpent(c, s)
    ensures DeadSpent(c, Apply(c, s, t))
  {
    if t.Settle? {
      assert HolderOk(c, s.holders[t.id]);
      hide Lawful, AllSpent, Settled, Decode;
      SettledSpent(c, s, s.holders[t.id].job, t.outcome);
    } else if t.RetryPut? {
      assert LoopOk(c, s.loops[t.id]);
      hide Lawful, AllSpent, PutRead, Decode;
      PutReadSpent(c, s, LoopOf(s, t.id).hand.value, t.accepted);
    } else {
      SetsUntouched(c, s, t);
      hide Apply, Lawful, AllSpent, Faithful;
    }
  }

  lemma {:induction false} DeadSpentRun(c: Codec, s: State, run: seq<Step>)
    requires Lawful(c) && Faithful(c, s) && Valid(c, s, run) && DeadSpent(c, s)
    ensures DeadSpent(c, Final(c, s, run))
    decreases |run|
  {
    hide Lawful, Faithful, Apply, Enabled, DeadSpent;
    if run == [] {
    } else {
      FaithfulStep(c, s, run[0]);
      DeadSpentStep(c, s, run[0]);
      DeadSpentRun(c, Apply(c, s, run[0]), run[1..]);
    }
  }

  /** In every run, every member of the dead set is a job that has used up its allowance. */
  lemma OnlySpentAreDead(c: Codec, s: State, run: seq<Step>, m: Bytes)
    requires Lawful(c) && Init(s) && Valid(c, s, run) && m in Final(c, s, run).keys.dead
    ensures Decode(c, m).Some? && Spent(Decode(c, m).value)
  {
    DeadSpentRun(c, s, run);
    hide Decode;
  }

  // ---- which jobs have succeeded

  predicate Succeeds(s: State, t: Step, x: string) {
    t.Settle? && t.outcome == Succeeded && t.id in s.holders && !s.holders[t.id].settled && s.holders[t.id].job.jid == x
  }

  ghost predicate SucceedsIn(c: Codec, s: State, run: seq<Step>, x: string)
    requires Valid(c, s, run)
    decreases |run|
  {
    run != [] && (Succeeds(s, run[0], x) || SucceedsIn(c, Apply(c, s, run[0]), run[1..], x))
  }

  lemma SuccessStep(c: Codec, s: State, t: Step, x: string)
    requires Enabled(c, s, t)
    ensures x in Apply(c, s, t).succeeded <==> x in s.succeeded || Succeeds(s, t, x)
  {
    hide IsRange, Decode, Reads, Orphans, Settled, PutRead;
  }

  /** In every run: a job counts as succeeded if and only if a holder of it was settled with success. */
  lemma {:induction false} SucceededIff(c: Codec, s: State, run: seq<Step>, x: string)
    requires Valid(c, s, run)
    ensures x in Final(c, s, run).succeeded <==> x in s.succeeded || SucceedsIn(c, s, run, x)
    decreases |run|
  {
    hide Apply, Enabled, Succeeds;
    if run == [] {
    } else {
      SuccessStep(c, s, run[0], x);
      SucceededIff(c, Apply(c, s, run[0]), run[1..], x);
    }
  }

  // ---- leases end

  /** No lease runs longer than five minutes from now. */
  ghost predicate Ending(s: State) {
    forall m :: m in s.keys.processing ==> s.keys.processing[m] <= (s.now + 300_000_000_000) / 1_000_000_000
  }

  lemma EndingStep(c: Codec, s: State, t: Step)
    requires Enabled(c, s, t) && Ending(s)
    ensures Ending(Apply(c, s, t))
  {
    if t.Tick? {
      UnixMonotone(s.now + LEASE, t.now + LEASE);
    }
    hide IsRange, Decode, Reads, Orphans, Settled, PutRead;
  }

  /** In every run: what is leased now is expired for any reap five minutes from now or later. */
  lemma {:induction false} LeasesEnd(c: Codec, s: State, run: seq<Step>)
    requires Valid(c, s, run) && Ending(s)
    ensures Ending(Final(c, s, run))
    decreases |run|
  {
    hide Apply, Enabled, Ending;
    if run == [] {
    } else {
      EndingStep(c, s, run[0]);
      LeasesEnd(c, Apply(c, s, run[0]), run[1..]);
    }
  }

  // ---- the processor's code over the broker object

  /** What a worker or a fetcher calls once it knows the outcome, before its ack. */
  method SettleJob(b: RedisBroker, j: Job, outcome: Outcome, now: int) returns (j': Job)
    modifies b
    ensures j' == Mutated(j, outcome)
    ensures forall s: State :: s.keys == old(b.View()) && s.now == now ==> b.View() == Settled(b.codec, s, j, outcome)
  {
    j' := j;
    match outcome
    case Succeeded => j' := j'.(state := Success);
    case CircuitOpen =>
      j' := j'.(state := Pending);
      b.AddToRetry(j', now + 5 * SECOND);
    case PutBack(q) =>
      j' := j'.(state := Pending);
      b.Enqueue(q, j');
    case PutBackRefused =>
      j' := j'.(state := Pending);
      b.AddToRetry(j', now);
    case Failing =>
      j' := j'.(state := Failed, retryCount := j.retryCount + 1);
      if j'.retryCount <= j'.retry {
        var shift := if j'.retryCount < 0 then 0 else j'.retryCount;
        b.AddToRetry(j', now + Delay(shift));
      } else {
        j' := j'.(state := Dead);
        b.AddToDead(j', now);
      }
  }

  /** What the retry loop calls for a job it has read and removed. */
  method PutJob(b: RedisBroker, j: Job, accepted: bool, now: int)
    modifies b
    ensures forall s: State :: s.keys == old(b.View()) && s.now == now ==> b.View() == PutRead(b.codec, s, j, accepted)
  {
    var j' := j.(state := Pending);
    if accepted {
      b.Enqueue(j.queue, j');
    } else {
      j' := j'.(retryCount := j.retryCount + 1);
      if j'.retryCount > j.retry {
        b.AddToDead(j'.(state := Dead), now);
      } else {
        b.AddToRetry(j', now + 60 * SECOND);
      }
    }
  }

  /** The calls behind a step of a run, made on the broker object: its contents become those of the next state. */
  method Carry(b: RedisBroker, s: State, t: Step)
    requires Enabled(b.codec, s, t) && s.keys == b.View() && !t.Client? && !t.RetryRead? && !t.Reap?
    modifies b
    ensures b.View() == Apply(b.codec, s, t).keys
  {
    match t
    case Dequeue(id, q) =>
      var names := [q];
      var r := b.TryDequeue(names, s.now);
      assert List(s.keys, names[0]) != [];
    case Settle(id, outcome) => var j := SettleJob(b, s.holders[id].job, outcome, s.now);
    case Ack(id) => b.Ack(s.holders[id].job);
    case RetryRemove(id) => b.RemoveFromRetry(LoopOf(s, id).batch[0].job);
    case RetryPut(id, accepted) => PutJob(b, LoopOf(s, id).hand.value, accepted, s.now);
    case ReapPut(index, accepted) =>
      if accepted {
        b.Enqueue(s.reaped[index].queue, s.reaped[index]);
      }
    case _ =>
  }

  /** A reap on the object is a reap of the run, with the same orphans. */
  method CarryReap(b: RedisBroker, s: State) returns (orphaned: seq<Job>, ghost members: seq<Bytes>)
    requires s.keys == b.View()
    modifies b
    ensures Enabled(b.codec, s, Reap(members)) && b.View() == Apply(b.codec, s, Reap(members)).keys
    ensures Apply(b.codec, s, Reap(members)).reaped == s.reaped + orphaned
  {
    orphaned, members := b.ReapOrphanedJobs(s.now);
    hide IsRange, Orphans;
  }

  function JobsOf(batch: seq<Read>): seq<Job> {
    if batch == [] then [] else [batch[0].job] + JobsOf(batch[1..])
  }

  lemma {:induction false} ReadsAreDecodable(c: Codec, members: seq<Bytes>)
    ensures JobsOf(Reads(c, members)) == Decodable(c, members)
  {
    if members == [] {
    } else {
      var first: seq<Read> := match Decode(c, members[0]) case None => [] case Some(j) => [Read(j, members[0])];
      var rest := Reads(c, members[1..]);
      ReadsAreDecodable(c, members[1..]);
      assert Reads(c, members) == first + rest;
      if first == [] {
        assert first + rest == rest;
      } else {
        assert (first + rest)[1..] == rest;
      }
    }
  }

  /** A poll of the object is a read of the run, with the same jobs in the same order. */
  method CarryRead(b: RedisBroker, s: State, id: nat) returns (jobs: seq<Job>, ghost members: seq<Bytes>)
    requires s.keys == b.View() && LoopOf(s, id) == Loop([], None)
    ensures Enabled(b.codec, s, RetryRead(id, members))
    ensures JobsOf(LoopOf(Apply(b.codec, s, RetryRead(id, members)), id).batch) == jobs
  {
    jobs, members := b.GetRetryJobs(100, s.now);
    ReadsAreDecodable(b.codec, members);
    hide IsRange, Reads, Decodable;
  }

  /** Deleting a queue's key on the object is the deletion of its list. */
  method CarryDelete(b: RedisBroker, q: string)
    modifies b
    ensures b.View() == Redis.Do(old(b.View()), DeleteCall(q))
  {
    var ok := b.DeleteKey("queue:" + q);
    assert ("queue:" + q)[6..] == q;
  }
}
