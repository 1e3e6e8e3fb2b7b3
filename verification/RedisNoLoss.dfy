/** No job is lost over Redis, although equal payloads merge and the reaper drops orphans. */
module RedisNoLoss {
  import opened Options
  import opened Payload
  import opened Redis
  import opened RedisRuns

  /** The bytes encode a job with JID `x`. */
  predicate Names(c: Codec, b: Bytes, x: string) {
    Decode(c, b).Some? && Decode(c, b).value.jid == x
  }

  ghost predicate InList(c: Codec, ks: KeySpace, q: string, i: int, x: string) {
    0 <= i < |List(ks, q)| && Names(c, List(ks, q)[i], x)
  }

  ghost predicate InSet(c: Codec, z: SortedSet, x: string) {
    exists m :: m in z && Names(c, m, x)
  }

  ghost predicate Waiting(c: Codec, ks: KeySpace, x: string) {
    exists q, i :: InList(c, ks, q, i, x)
  }

  ghost predicate Unsettled(s: State, x: string) {
    exists id :: id in s.holders && !s.holders[id].settled && s.holders[id].job.jid == x
  }

  ghost predicate InHand(s: State, x: string) {
    exists id :: id in s.loops && s.loops[id].hand.Some? && s.loops[id].hand.value.jid == x
  }

  /** A job with JID `x` has succeeded, or is in a queue, the retry or the dead set, or is held by a goroutine
      that has still to settle it, or is in a retry loop's hand. */
  ghost predicate Kept(c: Codec, s: State, x: string) {
    || x in s.succeeded || Waiting(c, s.keys, x) || InSet(c, s.keys.retry, x) || InSet(c, s.keys.dead, x)
    || Unsettled(s, x) || InHand(s, x)
  }

  lemma Encoded(c: Codec, j: Job)
    requires Lawful(c) && c.canonical(j.args)
    ensures Names(c, c.marshal(j), j.jid)
  {
    var plain := j.(raw := []);
    assert c.marshal(j) == c.marshal(plain) && c.unmarshal(c.marshal(plain)) == Some(plain);
  }

  lemma PushedWaits(c: Codec, ks: KeySpace, q: string, b: Bytes, x: string)
    requires Names(c, b, x)
    ensures Waiting(c, LPush(ks, q, b), x)
  {
    assert InList(c, LPush(ks, q, b), q, 0, x);
  }

  lemma PushKeeps(c: Codec, ks: KeySpace, q: string, b: Bytes, x: string)
    requires Waiting(c, ks, x)
    ensures Waiting(c, LPush(ks, q, b), x)
  {
    var q', i :| InList(c, ks, q', i, x);
    assert InList(c, LPush(ks, q, b), q', if q' == q then i + 1 else i, x);
  }

  lemma AddedIsIn(c: Codec, z: SortedSet, m: Bytes, score: int, x: string)
    requires Names(c, m, x)
    ensures InSet(c, z[m := score], x)
  {
    assert m in z[m := score];
  }

  lemma AddingKeeps(c: Codec, z: SortedSet, m: Bytes, score: int, x: string)
    requires InSet(c, z, x)
    ensures InSet(c, z[m := score], x)
  {
    var m' :| m' in z && Names(c, m', x);
    assert m' in z[m := score];
  }

  // ---- each place in turn

  lemma DequeuedIsHeld(c: Codec, s: State, id: nat, q: string, x: string)
    requires Enabled(c, s, Dequeue(id, q)) && Waiting(c, s.keys, x)
    ensures Kept(c, Apply(c, s, Dequeue(id, q)), x)
  {
    hide Decode;
    var s' := Apply(c, s, Dequeue(id, q));
    var q', i :| InList(c, s.keys, q', i, x);
    if q' == q && i == |List(s.keys, q)| - 1 {
      assert id in s'.holders && !s'.holders[id].settled && s'.holders[id].job.jid == x;
    } else {
      assert InList(c, s'.keys, q', i, x);
    }
  }

  lemma SettledIsPlaced(c: Codec, s: State, id: nat, outcome: Outcome)
    requires Lawful(c) && Faithful(c, s) && Enabled(c, s, Settle(id, outcome))
    ensures Kept(c, Apply(c, s, Settle(id, outcome)), s.holders[id].job.jid)
  {
    var j := Mutated(s.holders[id].job, outcome);
    assert HolderOk(c, s.holders[id]);
    Encoded(c, j);
    hide Names, Lawful, Faithful;
    match outcome
    case Succeeded =>
    case PutBack(q) => PushedWaits(c, s.keys, q, c.marshal(j), j.jid);
    case CircuitOpen => AddedIsIn(c, s.keys.retry, c.marshal(j), Unix(s.now + 5 * SECOND), j.jid);
    case PutBackRefused => AddedIsIn(c, s.keys.retry, c.marshal(j), Unix(s.now), j.jid);
    case Failing =>
      var at := s.now + Delay(j.retryCount);
      AddedIsIn(c, s.keys.retry, c.marshal(j), Unix(at), j.jid);
      AddedIsIn(c, s.keys.dead, c.marshal(j), Unix(s.now), j.jid);
  }

  lemma RemovedIsInHand(c: Codec, s: State, id: nat, x: string)
    requires Lawful(c) && Faithful(c, s) && Enabled(c, s, RetryRemove(id)) && InSet(c, s.keys.retry, x)
    ensures Kept(c, Apply(c, s, RetryRemove(id)), x)
  {
    var s' := Apply(c, s, RetryRemove(id));
    var j := LoopOf(s, id).batch[0].job;
    assert ReadOk(c, LoopOf(s, id).batch[0]);
    Encoded(c, j);
    hide Lawful, Faithful;
    var m :| m in s.keys.retry && Names(c, m, x);
    if m == c.marshal(j) {
      assert id in s'.loops && s'.loops[id].hand == Some(j);
    } else {
      assert m in s'.keys.retry;
    }
  }

  /** What the retry loop does with the job in its hand puts it somewhere. */
  lemma PutSomewhere(c: Codec, s: State, j: Job, accepted: bool)
    requires Lawful(c) && Sound(c, j)
    ensures var ks := PutRead(c, s, j, accepted);
      Waiting(c, ks, j.jid) || InSet(c, ks.retry, j.jid) || InSet(c, ks.dead, j.jid)
  {
    var j1 := j.(state := Pending);
    var j2 := j1.(retryCount := j.retryCount + 1);
    if accepted {
      Encoded(c, j1);
      hide Names, Lawful;
      PushedWaits(c, s.keys, j.queue, c.marshal(j1), j.jid);
    } else if j2.retryCount > j.retry {
      Encoded(c, j2.(state := Dead));
      hide Names, Lawful;
      AddedIsIn(c, s.keys.dead, c.marshal(j2.(state := Dead)), Unix(s.now), j.jid);
    } else {
      Encoded(c, j2);
      hide Names, Lawful;
      AddedIsIn(c, s.keys.retry, c.marshal(j2), Unix(s.now + 60 * SECOND), j.jid);
    }
  }

  lemma HandIsPut(c: Codec, s: State, id: nat, accepted: bool)
    requires Lawful(c) && Faithful(c, s) && Enabled(c, s, RetryPut(id, accepted))
    ensures Kept(c, Apply(c, s, RetryPut(id, accepted)), LoopOf(s, id).hand.value.jid)
  {
    assert LoopOk(c, s.loops[id]);
    hide PutRead, Lawful, Faithful, InSet, Waiting, Unsettled, InHand;
    PutSomewhere(c, s, LoopOf(s, id).hand.value, accepted);
  }

  // ---- every step

  lemma WaitingStep(c: Codec, s: State, t: Step, x: string)
    requires Enabled(c, s, t) && Waiting(c, s.keys, x)
    ensures Kept(c, Apply(c, s, t), x)
  {
    hide Names, Waiting, IsRange, Decode, Reads, Orphans;
    match t
    case Dequeue(id, q) => DequeuedIsHeld(c, s, id, q, x);
    case Client(q, b) => PushKeeps(c, s.keys, q, b, x);
    case Settle(id, outcome) =>
      if outcome.PutBack? {
        PushKeeps(c, s.keys, outcome.queue, c.marshal(Mutated(s.holders[id].job, outcome)), x);
      } else {
        SameLists(c, s.keys, Apply(c, s, t).keys, x);
      }
    case RetryPut(id, accepted) =>
      if accepted {
        var j := LoopOf(s, id).hand.value;
        PushKeeps(c, s.keys, j.queue, c.marshal(j.(state := Pending)), x);
      } else {
        SameLists(c, s.keys, Apply(c, s, t).keys, x);
      }
    case ReapPut(index, accepted) =>
      PushKeeps(c, s.keys, s.reaped[index].queue, c.marshal(s.reaped[index]), x);
    case _ => SameLists(c, s.keys, Apply(c, s, t).keys, x);
  }

  lemma SameLists(c: Codec, ks: KeySpace, ks': KeySpace, x: string)
    requires Waiting(c, ks, x) && ks'.lists == ks.lists
    ensures Waiting(c, ks', x)
  {
    var q, i :| InList(c, ks, q, i, x);
    assert InList(c, ks', q, i, x);
  }

  lemma RetryStep(c: Codec, s: State, t: Step, x: string)
    requires Lawful(c) && Faithful(c, s) && Enabled(c, s, t) && InSet(c, s.keys.retry, x)
    ensures Kept(c, Apply(c, s, t), x)
  {
    hide Lawful, Faithful, Names, IsRange, Decode, Reads, Orphans;
    match t
    case RetryRemove(id) => RemovedIsInHand(c, s, id, x);
    case _ => RetryGrows(c, s, t, x);
  }

  /** Only settling and putting back write to the retry and dead sets, and only the loop's removal takes away. */
  lemma SetsUntouched(c: Codec, s: State, t: Step)
    requires Enabled(c, s, t) && !t.Settle? && !t.RetryPut?
    ensures Apply(c, s, t).keys.dead == s.keys.dead
    ensures !t.RetryRemove? ==> Apply(c, s, t).keys.retry == s.keys.retry
  {
    hide IsRange, Decode, Reads, Orphans, Unix;
  }

  lemma RetryGrows(c: Codec, s: State, t: Step, x: string)
    requires Enabled(c, s, t) && !t.RetryRemove? && InSet(c, s.keys.retry, x)
    ensures InSet(c, Apply(c, s, t).keys.retry, x)
  {
    var m :| m in s.keys.retry && Names(c, m, x);
    hide Names, IsRange, Decode, Reads, Orphans, Unix, Delay;
    if t.Settle? || t.RetryPut? {
      assert m in Apply(c, s, t).keys.retry;
    } else {
      SetsUntouched(c, s, t);
      hide Apply;
    }
  }

  lemma DeadStep(c: Codec, s: State, t: Step, x: string)
    requires Enabled(c, s, t) && InSet(c, s.keys.dead, x)
    ensures InSet(c, Apply(c, s, t).keys.dead, x)
  {
    var m :| m in s.keys.dead && Names(c, m, x);
    hide Names, IsRange, Decode, Reads, Orphans, Unix, Delay;
    if t.Settle? || t.RetryPut? {
      assert m in Apply(c, s, t).keys.dead;
    } else {
      SetsUntouched(c, s, t);
      hide Apply;
    }
  }

  lemma HolderUntouched(c: Codec, s: State, t: Step, id: nat)
    requires Enabled(c, s, t) && id in s.holders && !s.holders[id].settled
    requires !((t.Settle? || t.Crash?) && t.id == id)
    ensures id in Apply(c, s, t).holders && Apply(c, s, t).holders[id] == s.holders[id]
  {
    hide IsRange, Decode, Reads, Orphans, Settled, PutRead, LPush, PopAndLease;
  }

  lemma LoopUntouched(c: Codec, s: State, t: Step, id: nat)
    requires Enabled(c, s, t) && id in s.loops && s.loops[id].hand.Some? && !(t.RetryPut? && t.id == id)
    ensures id in Apply(c, s, t).loops && Apply(c, s, t).loops[id] == s.loops[id]
  {
    hide IsRange, Decode, Reads, Orphans, Settled, PutRead, LPush, PopAndLease;
  }

  lemma HeldStep(c: Codec, s: State, t: Step, x: string)
    requires Lawful(c) && Faithful(c, s) && Enabled(c, s, t) && !t.Crash? && Unsettled(s, x)
    ensures Kept(c, Apply(c, s, t), x)
  {
    var id :| id in s.holders && !s.holders[id].settled && s.holders[id].job.jid == x;
    hide Lawful, Faithful, Names, IsRange, Decode, Reads, Orphans;
    if t.Settle? && t.id == id {
      SettledIsPlaced(c, s, id, t.outcome);
    } else {
      HolderUntouched(c, s, t, id);
      hide Apply, InSet, Waiting, InHand;
    }
  }

  lemma HandStep(c: Codec, s: State, t: Step, x: string)
    requires Lawful(c) && Faithful(c, s) && Enabled(c, s, t) && InHand(s, x)
    ensures Kept(c, Apply(c, s, t), x)
  {
    var id :| id in s.loops && s.loops[id].hand.Some? && s.loops[id].hand.value.jid == x;
    hide Lawful, Faithful, Names, IsRange, Decode, Reads, Orphans;
    if t.RetryPut? && t.id == id {
      HandIsPut(c, s, id, t.accepted);
    } else {
      LoopUntouched(c, s, t, id);
      hide Apply, InSet, Waiting, Unsettled;
    }
  }

  lemma KeptStep(c: Codec, s: State, t: Step, x: string)
    requires Lawful(c) && Faithful(c, s) && Enabled(c, s, t) && !t.Crash? && Kept(c, s, x)
    ensures Kept(c, Apply(c, s, t), x)
  {
    SuccessStays(c, s, t);
    hide Lawful, Faithful, Enabled, Apply, Waiting, InSet, Unsettled, InHand;
    if Waiting(c, s.keys, x) {
      WaitingStep(c, s, t, x);
    } else if InSet(c, s.keys.retry, x) {
      RetryStep(c, s, t, x);
    } else if InSet(c, s.keys.dead, x) {
      DeadStep(c, s, t, x);
    } else if Unsettled(s, x) {
      HeldStep(c, s, t, x);
    } else if InHand(s, x) {
      HandStep(c, s, t, x);
    }
  }

  lemma SuccessStays(c: Codec, s: State, t: Step)
    requires Enabled(c, s, t)
    ensures s.succeeded <= Apply(c, s, t).succeeded
  {
    hide IsRange, Decode, Reads, Orphans, Settled, PutRead;
  }

  lemma ClientIsKept(c: Codec, s: State, t: Step, x: string)
    requires Enabled(c, s, t) && t.Client? && Names(c, t.payload, x)
    ensures Kept(c, Apply(c, s, t), x)
  {
    PushedWaits(c, s.keys, t.queue, t.payload, x);
  }

  /** Some client step of the run brings in a job with JID `x`. */
  ghost predicate Accepted(c: Codec, run: seq<Step>, x: string) {
    exists i :: 0 <= i < |run| && run[i].Client? && Names(c, run[i].payload, x)
  }

  lemma {:induction false} KeptRun(c: Codec, s: State, run: seq<Step>, x: string)
    requires Lawful(c) && Faithful(c, s) && Valid(c, s, run) && (Kept(c, s, x) || Accepted(c, run, x))
    requires forall t :: t in run ==> !t.Crash?
    ensures Kept(c, Final(c, s, run), x)
    decreases |run|
  {
    hide Lawful, Faithful, Enabled, Apply, Kept, Names;
    if run == [] {
    } else {
      FaithfulStep(c, s, run[0]);
      if Kept(c, s, x) {
        KeptStep(c, s, run[0], x);
      } else {
        var i :| 0 <= i < |run| && run[i].Client? && Names(c, run[i].payload, x);
        if i == 0 {
          ClientIsKept(c, s, run[0], x);
        } else {
          assert run[1..][i - 1] == run[i];
        }
      }
      KeptRun(c, Apply(c, s, run[0]), run[1..], x);
    }
  }

  /** In every run without crashes, with expired leases, merged payloads and orphans that a reaper drops: a
      client's job that can be decoded has succeeded, or is in a queue, the retry or the dead set, or is held by a
      goroutine that has still to settle it, or is in a retry loop's hand. */
  lemma NoJobLostOverRedis(c: Codec, s: State, run: seq<Step>, x: string)
    requires Lawful(c) && Init(s) && Valid(c, s, run) && Accepted(c, run, x) && forall t :: t in run ==> !t.Crash?
    ensures Kept(c, Final(c, s, run), x)
  {
    KeptRun(c, s, run, x);
  }
}
