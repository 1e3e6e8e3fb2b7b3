/** Crashes over Redis: what the processing set and the reaper bring back, and what they cannot. */
module RedisCrash {
  import opened Options
  import opened Payload
  import opened Redis
  import opened RedisRuns
  import opened RedisNoLoss

  ghost predicate SettledHolds(s: State, m: Bytes) {
    exists id :: id in s.holders && s.holders[id].settled && s.holders[id].leased == m
  }

  predicate IsLease(c: Codec, s: State, m: Bytes, x: string) {
    m in s.keys.processing && Names(c, m, x)
  }

  /** A lease on the job that no pending ack will take away. */
  ghost predicate Leased(c: Codec, s: State, x: string) {
    exists m :: IsLease(c, s, m, x) && !SettledHolds(s, m)
  }

  /** The job is in a reaper's hands. */
  ghost predicate Pooled(s: State, x: string) {
    exists i :: 0 <= i < |s.reaped| && s.reaped[i].jid == x
  }

  ghost predicate Safe(c: Codec, s: State, x: string) {
    Kept(c, s, x) || Leased(c, s, x) || Pooled(s, x)
  }

  ghost predicate PoolSound(c: Codec, s: State) {
    forall i :: 0 <= i < |s.reaped| ==> c.canonical(s.reaped[i].args)
  }

  /** The reaper's re-enqueue of the job is refused. */
  predicate Dropped(s: State, t: Step, x: string) {
    t.ReapPut? && !t.accepted && t.index < |s.reaped| && s.reaped[t.index].jid == x
  }

  // ---- the pool

  lemma {:induction false} OrphansSound(c: Codec, members: seq<Bytes>)
    requires Lawful(c)
    ensures forall i :: 0 <= i < |Orphans(c, members)| ==> c.canonical(Orphans(c, members)[i].args)
  {
    if members == [] {
    } else {
      if Decode(c, members[0]).Some? {
        DecodedIsSound(c, members[0]);
      }
      OrphansSound(c, members[1..]);
    }
  }

  lemma PoolSoundStep(c: Codec, s: State, t: Step)
    requires Lawful(c) && Enabled(c, s, t) && PoolSound(c, s)
    ensures PoolSound(c, Apply(c, s, t))
  {
    if t.Reap? {
      OrphansSound(c, t.members);
    }
    hide Lawful, IsRange, Decode, Reads, Orphans, Settled, PutRead, LPush;
  }

  lemma {:induction false} OrphanOf(c: Codec, members: seq<Bytes>, m: Bytes, x: string)
    requires m in members && Names(c, m, x)
    ensures exists i :: 0 <= i < |Orphans(c, members)| && Orphans(c, members)[i].jid == x
  {
    var first: seq<Job> :=
      match Decode(c, members[0]) case None => [] case Some(j) => [j.(state := Pending, raw := [])];
    var rest := Orphans(c, members[1..]);
    assert Orphans(c, members) == first + rest;
    if members[0] == m {
      assert (first + rest)[0].jid == x;
    } else {
      assert members == [members[0]] + members[1..];
      OrphanOf(c, members[1..], m, x);
      var i :| 0 <= i < |rest| && rest[i].jid == x;
      assert (first + rest)[|first| + i] == rest[i];
    }
  }

  // ---- each place in turn

  lemma PooledStep(c: Codec, s: State, t: Step, x: string)
    requires Lawful(c) && Enabled(c, s, t) && PoolSound(c, s) && Pooled(s, x) && !Dropped(s, t, x)
    ensures Pooled(Apply(c, s, t), x) || Kept(c, Apply(c, s, t), x)
  {
    var i :| 0 <= i < |s.reaped| && s.reaped[i].jid == x;
    if t.ReapPut? && t.index == i {
      Encoded(c, s.reaped[i]);
      hide Names, Lawful;
      PushedWaits(c, s.keys, s.reaped[i].queue, c.marshal(s.reaped[i]), x);
    } else {
      PoolMoves(c, s, t, i);
      hide Apply, Lawful, Enabled, Kept;
    }
  }

  lemma PoolMoves(c: Codec, s: State, t: Step, i: nat)
    requires Enabled(c, s, t) && i < |s.reaped| && !(t.ReapPut? && t.index == i)
    ensures exists k :: 0 <= k < |Apply(c, s, t).reaped| && Apply(c, s, t).reaped[k] == s.reaped[i]
  {
    hide IsRange, Decode, Reads, Orphans, Settled, PutRead, LPush;
    var k := if t.ReapPut? && t.index < i then i - 1 else i;
    assert Apply(c, s, t).reaped[k] == s.reaped[i];
  }

  /** A lease that no settled holder has stays, or is reaped, or its holder is settled now. */
  lemma LeaseStep(c: Codec, s: State, t: Step, m: Bytes, x: string)
    requires Lawful(c) && Faithful(c, s) && Enabled(c, s, t) && IsLease(c, s, m, x) && !SettledHolds(s, m)
    ensures Safe(c, Apply(c, s, t), x)
  {
    var s' := Apply(c, s, t);
    if t.Reap? && m in t.members {
      OrphanOf(c, t.members, m, x);
      ReapedIsPooled(c, s, t.members, x);
    } else if t.Settle? && s.holders[t.id].leased == m {
      assert HolderOk(c, s.holders[t.id]);
      hide Lawful, Faithful, Apply;
      SettledIsPlaced(c, s, t.id, t.outcome);
    } else {
      LeaseUntouched(c, s, t, m);
      hide Apply, Lawful, Faithful, Kept, SettledHolds;
      assert IsLease(c, s', m, x) && !SettledHolds(s', m);
    }
  }

  lemma ReapedIsPooled(c: Codec, s: State, members: seq<Bytes>, x: string)
    requires Enabled(c, s, Reap(members))
    requires exists i :: 0 <= i < |Orphans(c, members)| && Orphans(c, members)[i].jid == x
    ensures Pooled(Apply(c, s, Reap(members)), x)
  {
    hide IsRange, Orphans;
    var orphans := Orphans(c, members);
    var i :| 0 <= i < |orphans| && orphans[i].jid == x;
    assert (s.reaped + orphans)[|s.reaped| + i] == orphans[i];
  }

  lemma AckTakesOther(c: Codec, s: State, id: nat, m: Bytes)
    requires Faithful(c, s) && Enabled(c, s, Ack(id)) && m in s.keys.processing && !SettledHolds(s, m)
    ensures m in Apply(c, s, Ack(id)).keys.processing && !SettledHolds(Apply(c, s, Ack(id)), m)
  {
    assert HolderOk(c, s.holders[id]);
    hide Decode, FixedPoint, LoopOk, Sound;
  }

  lemma LeaseUntouched(c: Codec, s: State, t: Step, m: Bytes)
    requires Faithful(c, s) && Enabled(c, s, t) && m in s.keys.processing && !SettledHolds(s, m)
    requires !(t.Reap? && m in t.members) && !(t.Settle? && s.holders[t.id].leased == m)
    ensures m in Apply(c, s, t).keys.processing && !SettledHolds(Apply(c, s, t), m)
  {
    hide Faithful;
    if t.Ack? {
      hide Apply, Enabled, SettledHolds;
      AckTakesOther(c, s, t.id, m);
    } else {
      hide IsRange, Decode, Reads, Orphans, PutRead, Unix, Delay;
    }
  }

  /** A crash takes the job out of one holder's hands, and leaves its lease. */
  lemma CrashStep(c: Codec, s: State, id: nat, x: string)
    requires Faithful(c, s) && Exact(s) && Enabled(c, s, Crash(id)) && Kept(c, s, x)
    ensures Safe(c, Apply(c, s, Crash(id)), x)
  {
    var s' := Apply(c, s, Crash(id));
    if s.holders[id].job.jid == x && !s.holders[id].settled {
      var m := s.holders[id].leased;
      assert HolderOk(c, s.holders[id]);
      assert IsLease(c, s', m, x) && !SettledHolds(s', m);
    } else if k :| k in s.holders && !s.holders[k].settled && s.holders[k].job.jid == x {
      assert k in s'.holders && s'.holders[k] == s.holders[k];
    }
  }

  lemma SafeStep(c: Codec, s: State, t: Step, x: string)
    requires Lawful(c) && Faithful(c, s) && Exact(s) && PoolSound(c, s) && Enabled(c, s, t)
    requires Safe(c, s, x) && !Dropped(s, t, x)
    ensures Safe(c, Apply(c, s, t), x)
  {
    hide Lawful, Faithful, Exact, PoolSound, Enabled, Apply, Kept, Pooled, Dropped, IsLease, SettledHolds;
    if Pooled(s, x) {
      PooledStep(c, s, t, x);
    } else if Kept(c, s, x) {
      if t.Crash? {
        CrashStep(c, s, t.id, x);
      } else {
        KeptStep(c, s, t, x);
      }
    } else {
      var m :| IsLease(c, s, m, x) && !SettledHolds(s, m);
      LeaseStep(c, s, t, m, x);
    }
  }

  ghost predicate NeverDropped(c: Codec, s: State, run: seq<Step>, x: string)
    requires Valid(c, s, run)
    decreases |run|
  {
    run == [] || (!Dropped(s, run[0], x) && NeverDropped(c, Apply(c, s, run[0]), run[1..], x))
  }

  lemma {:induction false} SafeRun(c: Codec, s: State, run: seq<Step>, x: string)
    requires Lawful(c) && Faithful(c, s) && Exact(s) && PoolSound(c, s) && Valid(c, s, run)
    requires FreshRun(c, s, run) && NeverDropped(c, s, run, x) && (Safe(c, s, x) || Accepted(c, run, x))
    ensures Safe(c, Final(c, s, run), x)
    decreases |run|
  {
    hide Lawful, Faithful, Exact, PoolSound, Enabled, Apply, Safe, Dropped, Names, Unexpired, HeldBytes;
    if run == [] {
    } else {
      FaithfulStep(c, s, run[0]);
      ExactStepIff(c, s, run[0]);
      PoolSoundStep(c, s, run[0]);
      if Safe(c, s, x) {
        SafeStep(c, s, run[0], x);
      } else {
        var i :| 0 <= i < |run| && run[i].Client? && Names(c, run[i].payload, x);
        if i == 0 {
          ClientIsSafe(c, s, run[0], x);
        } else {
          assert run[1..][i - 1] == run[i];
        }
      }
      SafeRun(c, Apply(c, s, run[0]), run[1..], x);
    }
  }

  lemma ClientIsSafe(c: Codec, s: State, t: Step, x: string)
    requires Enabled(c, s, t) && t.Client? && Names(c, t.payload, x)
    ensures Safe(c, Apply(c, s, t), x)
  {
    ClientIsKept(c, s, t, x);
    hide Kept;
  }

  /** With crashes: in every run in which no held lease expires and no dequeue pops bytes that are still held, a
      client's job that can be decoded has succeeded, or is in one of the places of a run without crashes, or is
      leased without an ack that could take the lease away, or is in a reaper's hands, unless a reaper's
      re-enqueue of it was refused. */
  lemma NoJobLostInCrashes(c: Codec, s: State, run: seq<Step>, x: string)
    requires Lawful(c) && Init(s) && Valid(c, s, run) && Accepted(c, run, x)
    requires FreshRun(c, s, run) && NeverDropped(c, s, run, x)
    ensures Safe(c, Final(c, s, run), x)
  {
    SafeRun(c, s, run, x);
  }

  // ---- a job that is lost

  function Keys(lists: map<string, seq<Bytes>>, processing: SortedSet, retry: SortedSet): KeySpace {
    KeySpace(lists, processing, retry, map[])
  }

  /** The client's job, and what is known of its bytes. */
  ghost predicate Plain(c: Codec, j: Job, b: Bytes) {
    && Decode(c, b) == Some(j) && b != [] && c.marshal(j) == b && c.marshal(j.(raw := b)) == b
    && j.state == Pending && j.raw == []
  }

  lemma LeaseIt(c: Codec, s: State, id: nat, j: Job, b: Bytes)
    requires Plain(c, j, b) && s.keys.lists == map[j.queue := [b]] && id !in s.holders
    ensures Enabled(c, s, Dequeue(id, j.queue))
    ensures Apply(c, s, Dequeue(id, j.queue)) == s.(
      keys := s.keys.(lists := map[j.queue := []], processing := s.keys.processing[b := Unix(s.now + LEASE)]),
      holders := s.holders[id := Holder(j.(raw := b), b, s.now, false)])
  {
    hide Decode, Unix;
    assert [b][..0] == [];
  }

  lemma DeferIt(c: Codec, s: State, id: nat, j: Job, b: Bytes)
    requires Plain(c, j, b) && id in s.holders && s.holders[id].job == j.(raw := b) && !s.holders[id].settled
    ensures Enabled(c, s, Settle(id, CircuitOpen))
    ensures Apply(c, s, Settle(id, CircuitOpen)) == s.(
      keys := s.keys.(retry := s.keys.retry[b := Unix(s.now + 5 * SECOND)]),
      holders := s.holders[id := s.holders[id].(settled := true)])
  {
    hide Decode, Unix;
    assert Mutated(j.(raw := b), CircuitOpen) == j.(raw := b);
  }

  lemma ReadIt(c: Codec, s: State, j: Job, b: Bytes)
    requires Plain(c, j, b) && s.loops == map[] && s.keys.retry == map[b := Unix(s.now)] && s.now >= 0
    ensures Enabled(c, s, RetryRead(0, [b]))
    ensures Apply(c, s, RetryRead(0, [b])) == s.(loops := map[0 := Loop([Read(j, b)], None)])
  {
    OnlyMember(b, Unix(s.now), Unix(s.now));
    assert [b][1..] == [] && Reads(c, [b]) == [Read(j, b)];
    hide IsRange, Unix, Decode, Reads;
  }

  lemma TakeIt(c: Codec, s: State, j: Job, b: Bytes)
    requires Plain(c, j, b) && s.loops == map[0 := Loop([Read(j, b)], None)] && s.keys.retry.Keys == {b}
    ensures Enabled(c, s, RetryRemove(0))
    ensures Apply(c, s, RetryRemove(0)) == s.(keys := s.keys.(retry := map[]), loops := map[0 := Loop([], Some(j))])
  {
    hide Decode;
    assert s.keys.retry - {b} == map[];
    assert [Read(j, b)][1..] == [] && s.loops[0 := Loop([], Some(j))] == map[0 := Loop([], Some(j))];
  }

  lemma PutIt(c: Codec, s: State, j: Job, b: Bytes)
    requires Plain(c, j, b) && s.loops == map[0 := Loop([], Some(j))] && s.keys.lists == map[j.queue := []]
    ensures Enabled(c, s, RetryPut(0, true))
    ensures Apply(c, s, RetryPut(0, true)) == s.(
      keys := s.keys.(lists := map[j.queue := [b]]), loops := map[0 := Loop([], None)])
  {
    hide Decode;
    assert j.(state := Pending) == j && [b] + [] == [b];
    assert s.keys.lists[j.queue := [b]] == map[j.queue := [b]];
  }

  lemma AckIt(c: Codec, s: State, id: nat, b: Bytes)
    requires id in s.holders && s.holders[id].settled && s.holders[id].job.raw == b && b != []
    ensures Enabled(c, s, Ack(id))
    ensures Apply(c, s, Ack(id)) == s.(
      keys := s.keys.(processing := s.keys.processing - {b}), holders := s.holders - {id})
  {
  }

  /** Nobody and nothing has a job any more. */
  ghost predicate Vanished(s: State) {
    && (forall q :: List(s.keys, q) == [])
    && s.keys.processing == map[] && s.keys.retry == map[] && s.keys.dead == map[]
    && s.holders == map[] && s.reaped == [] && s.succeeded == {}
    && forall id :: id in s.loops ==> s.loops[id].hand == None
  }

  lemma SecondLease(c: Codec, s: State, j: Job, b: Bytes, h: Holder) returns (run: seq<Step>)
    requires Plain(c, j, b) && h.settled && h.job.raw == b && s.holders == map[0 := h]
    requires s.keys.lists == map[j.queue := [b]] && s.keys.retry == map[] && s.keys.dead == map[]
    requires s.keys.processing.Keys == {b} && s.loops == map[0 := Loop([], None)] && s.reaped == [] && s.succeeded == {}
    ensures run == DeferralRun(j.queue, b, 0)[7..] + [Crash(1)] && Valid(c, s, run) && Vanished(Final(c, s, run))
  {
    LeaseIt(c, s, 1, j, b);
    var s1 := Apply(c, s, Dequeue(1, j.queue));
    AckIt(c, s1, 0, b);
    var s2 := Apply(c, s1, Ack(0));
    hide Plain, Apply, Enabled;
    assert s2.holders.Keys == {1} && s2.keys.processing == map[];
    run := CrashIt(c, s2, j);
    hide Vanished;
    run := Then(c, s1, Ack(0), run);
    run := Then(c, s, Dequeue(1, j.queue), run);
  }

  lemma CrashIt(c: Codec, s: State, j: Job) returns (run: seq<Step>)
    requires s.keys.lists == map[j.queue := []] && s.keys.retry == map[] && s.keys.dead == map[]
    requires s.keys.processing == map[] && s.loops == map[0 := Loop([], None)] && s.reaped == [] && s.succeeded == {}
    requires s.holders.Keys == {1}
    ensures run == [Crash(1)] && Valid(c, s, run) && Vanished(Final(c, s, run))
  {
    assert s.holders - {1} == map[];
    run := Then(c, s, Crash(1), []);
  }

  lemma Retried(c: Codec, s: State, j: Job, b: Bytes, h: Holder) returns (run: seq<Step>)
    requires Plain(c, j, b) && h.settled && h.job.raw == b && s.holders == map[0 := h] && s.now >= 0
    requires s.keys.lists == map[j.queue := []] && s.keys.retry == map[b := Unix(s.now)] && s.keys.dead == map[]
    requires s.keys.processing.Keys == {b} && s.loops == map[] && s.reaped == [] && s.succeeded == {}
    ensures run == DeferralRun(j.queue, b, 0)[4..] + [Crash(1)] && Valid(c, s, run) && Vanished(Final(c, s, run))
  {
    ReadIt(c, s, j, b);
    var s1 := Apply(c, s, RetryRead(0, [b]));
    TakeIt(c, s1, j, b);
    var s2 := Apply(c, s1, RetryRemove(0));
    PutIt(c, s2, j, b);
    var s3 := Apply(c, s2, RetryPut(0, true));
    hide Plain, Apply, Enabled, Vanished, Unix;
    run := SecondLease(c, s3, j, b, h);
    run := Then(c, s2, RetryPut(0, true), run);
    run := Then(c, s1, RetryRemove(0), run);
    run := Then(c, s, RetryRead(0, [b]), run);
  }

  lemma Waited(c: Codec, s: State, j: Job, b: Bytes) returns (run: seq<Step>)
    requires Plain(c, j, b) && s.now >= 0 && s.loops == map[] && s.reaped == [] && s.succeeded == {}
    requires s.holders == map[0 := Holder(j.(raw := b), b, s.now, false)] && s.keys.processing.Keys == {b}
    requires s.keys.lists == map[j.queue := []] && s.keys.retry == map[] && s.keys.dead == map[]
    ensures run == DeferralRun(j.queue, b, s.now)[2..] + [Crash(1)] && Valid(c, s, run) && Vanished(Final(c, s, run))
  {
    DeferIt(c, s, 0, j, b);
    var s1 := Apply(c, s, Settle(0, CircuitOpen));
    var s2 := s1.(now := s.now + 5 * SECOND);
    assert Enabled(c, s1, Tick(s2.now)) && Apply(c, s1, Tick(s2.now)) == s2;
    hide Plain, Apply, Enabled, Vanished, Unix, Valid, Final;
    run := Retried(c, s2, j, b, s1.holders[0]);
    run := Then(c, s1, Tick(s2.now), run);
    run := Then(c, s, Settle(0, CircuitOpen), run);
  }

  lemma DeferredOnce(c: Codec, s: State, j: Job, b: Bytes) returns (run: seq<Step>)
    requires Plain(c, j, b) && s.now >= 0 && s.holders == map[] && s.loops == map[]
    requires s.reaped == [] && s.succeeded == {} && s.keys == Keys(map[j.queue := [b]], map[], map[])
    ensures run == DeferralRun(j.queue, b, s.now)[1..] + [Crash(1)] && Valid(c, s, run) && Vanished(Final(c, s, run))
  {
    LeaseIt(c, s, 0, j, b);
    var s1 := Apply(c, s, Dequeue(0, j.queue));
    hide Plain, Apply, Enabled, Vanished, Unix, Valid, Final;
    run := Waited(c, s1, j, b);
    run := Then(c, s, Dequeue(0, j.queue), run);
  }

  /** Where an ack takes another holder's lease, a crash of that holder loses the job for good: with any client
      job there is such a run from the start, without a reap and with a single retry loop. */
  lemma CrashAfterDeferralLoses(c: Codec, j: Job, s: State)
    requires Lawful(c) && Sound(c, j) && j.state == Pending && j.raw == [] && Init(s) && s.now >= 0
    ensures var run := DeferralRun(j.queue, c.marshal(j), s.now) + [Crash(1)];
      Valid(c, s, run) && Accepted(c, run, j.jid) && !Safe(c, Final(c, s, run), j.jid)
  {
    var b, q := c.marshal(j), j.queue;
    ClientBytes(c, j);
    hide Lawful, Sound, Decode;
    var s1 := Apply(c, s, Client(q, b));
    assert [b] + [] == [b] && s.keys.lists[q := [b]] == map[q := [b]];
    assert s1.keys == Keys(map[q := [b]], map[], map[]);
    var run := DeferredOnce(c, s1, j, b);
    hide Plain, Apply, Enabled, Vanished;
    run := Then(c, s, Client(q, b), run);
    DeferralParts(q, b, s.now);
    hide DeferralRun;
    assert run == DeferralRun(q, b, s.now) + [Crash(1)];
    VanishedIsLost(c, Final(c, s, run), j.jid);
    assert run[0] == Client(q, b);
  }

  lemma VanishedIsLost(c: Codec, s: State, x: string)
    requires Vanished(s)
    ensures !Safe(c, s, x)
  {
    hide Names;
  }
}
