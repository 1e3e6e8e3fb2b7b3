/** Whole runs of processors over the Redis broker: what the bytes written, read and removed have to do
    with each other while jobs are mutated in memory. */
module RedisRuns {
  import opened Options
  import opened Payload
  import opened Redis

  /** A goroutine with a dequeued job. `leased` and `at` are history: the member its own dequeue leased,
      and when. */
  datatype Holder = Holder(job: Job, leased: Bytes, at: int, settled: bool)

  /** A job read from the retry set; `member` is history: the bytes it was decoded from. */
  datatype Read = Read(job: Job, member: Bytes)

  /** A retry loop: what is left of its batch, and the job it has taken out of the set. */
  datatype Loop = Loop(batch: seq<Read>, hand: Option<Job>)

  /** `reaped` holds the orphans of all reapers; `succeeded` is history: the JIDs of jobs that succeeded. */
  datatype State = State(
    now: int, keys: KeySpace, holders: map<nat, Holder>, loops: map<nat, Loop>, reaped: seq<Job>,
    succeeded: set<string>)

  datatype Outcome = Succeeded | Failing | CircuitOpen | PutBack(queue: string) | PutBackRefused

  datatype Step =
    | Tick(now: int)
    | Client(queue: string, payload: Bytes)
    | Dequeue(id: nat, queue: string)
    | Settle(id: nat, outcome: Outcome)
    | Ack(id: nat)
    | RetryRead(id: nat, members: seq<Bytes>)
    | RetrySkip(id: nat)
    | RetryRemove(id: nat)
    | RetryPut(id: nat, accepted: bool)
    | Reap(members: seq<Bytes>)
    | ReapPut(index: nat, accepted: bool)
    | Crash(id: nat)

  const RETRY_BATCH := 100

  function LoopOf(s: State, id: nat): Loop {
    if id in s.loops then s.loops[id] else Loop([], None)
  }

  ghost predicate Enabled(c: Codec, s: State, t: Step) {
    match t
    case Tick(now) => s.now <= now
    case Client(_, _) => true
    case Dequeue(id, q) => id !in s.holders && List(s.keys, q) != []
    case Settle(id, _) => id in s.holders && !s.holders[id].settled
    case Ack(id) => id in s.holders && s.holders[id].settled
    case RetryRead(id, members) =>
      LoopOf(s, id) == Loop([], None) && IsRange(s.keys.retry, Unix(s.now), RETRY_BATCH, members)
    case RetrySkip(id) => LoopOf(s, id).batch != [] && LoopOf(s, id).hand == None
    case RetryRemove(id) => LoopOf(s, id).batch != [] && LoopOf(s, id).hand == None
    case RetryPut(id, _) => LoopOf(s, id).hand.Some?
    case Reap(members) => IsRange(s.keys.processing, Unix(s.now), REAP_BATCH, members)
    case ReapPut(index, _) => index < |s.reaped|
    case Crash(id) => id in s.holders
  }

  function Retrying(c: Codec, ks: KeySpace, j: Job, at: int): KeySpace {
    ks.(retry := ks.retry[c.marshal(j) := Unix(at)])
  }

  function Burying(c: Codec, ks: KeySpace, j: Job, now: int): KeySpace {
    ks.(dead := ks.dead[c.marshal(j) := Unix(now)])
  }

  /** The job as the outcome leaves it in memory. */
  function Mutated(j: Job, outcome: Outcome): Job {
    match outcome
    case Succeeded => j.(state := Success)
    case CircuitOpen => j.(state := Pending)
    case PutBack(_) => j.(state := Pending)
    case PutBackRefused => j.(state := Pending)
    case Failing =>
      j.(retryCount := j.retryCount + 1, state := if j.retryCount + 1 <= j.retry then Failed else Dead)
  }

  function Settled(c: Codec, s: State, j: Job, outcome: Outcome): KeySpace {
    var j' := Mutated(j, outcome);
    match outcome
    case Succeeded => s.keys
    case CircuitOpen => Retrying(c, s.keys, j', s.now + 5 * SECOND)
    case PutBack(q) => LPush(s.keys, q, c.marshal(j'))
    case PutBackRefused => Retrying(c, s.keys, j', s.now)
    case Failing =>
      if j'.retryCount <= j'.retry
      then Retrying(c, s.keys, j', s.now + Delay(if j'.retryCount < 0 then 0 else j'.retryCount))
      else Burying(c, s.keys, j', s.now)
  }

  function Reads(c: Codec, members: seq<Bytes>): seq<Read> {
    if members == [] then []
    else (match Decode(c, members[0]) case None => [] case Some(j) => [Read(j, members[0])]) + Reads(c, members[1..])
  }

  /** The retry loop's job after its removal: enqueued, or put back with one more attempt used. */
  function PutRead(c: Codec, s: State, j: Job, accepted: bool): KeySpace {
    var j1 := j.(state := Pending);
    if accepted then LPush(s.keys, j.queue, c.marshal(j1))
    else
      var j2 := j1.(retryCount := j.retryCount + 1);
      if j2.retryCount > j.retry then Burying(c, s.keys, j2.(state := Dead), s.now)
      else Retrying(c, s.keys, j2, s.now + 60 * SECOND)
  }

  function Apply(c: Codec, s: State, t: Step): State
    requires Enabled(c, s, t)
  {
    match t
    case Tick(now) => s.(now := now)
    case Client(q, b) => s.(keys := LPush(s.keys, q, b))
    case Dequeue(id, q) =>
      var b := Popped(s.keys, q);
      var s' := s.(keys := PopAndLease(s.keys, q, s.now));
      (match Decode(c, b)
       case None => s'
       case Some(j) => s'.(holders := s.holders[id := Holder(j.(raw := b), b, s.now, false)]))
    case Settle(id, outcome) =>
      var h := s.holders[id];
      s.(keys := Settled(c, s, h.job, outcome),
         holders := s.holders[id := h.(job := Mutated(h.job, outcome), settled := true)],
         succeeded := if outcome == Succeeded then s.succeeded + {h.job.jid} else s.succeeded)
    case Ack(id) =>
      s.(keys := s.keys.(processing := s.keys.processing - {RawOrSerialize(c, s.holders[id].job)}),
         holders := s.holders - {id})
    case RetryRead(id, members) => s.(loops := s.loops[id := Loop(Reads(c, members), None)])
    case RetrySkip(id) => s.(loops := s.loops[id := Loop(LoopOf(s, id).batch[1..], None)])
    case RetryRemove(id) =>
      var batch := LoopOf(s, id).batch;
      s.(keys := s.keys.(retry := s.keys.retry - {c.marshal(batch[0].job)}),
         loops := s.loops[id := Loop(batch[1..], Some(batch[0].job))])
    case RetryPut(id, accepted) =>
      s.(keys := PutRead(c, s, LoopOf(s, id).hand.value, accepted),
         loops := s.loops[id := LoopOf(s, id).(hand := None)])
    case Reap(members) =>
      s.(keys := s.keys.(processing := s.keys.processing - Members(members)),
         reaped := s.reaped + Orphans(c, members))
    case ReapPut(index, accepted) =>
      var j := s.reaped[index];
      s.(keys := if accepted then LPush(s.keys, j.queue, c.marshal(j)) else s.keys,
         reaped := s.reaped[..index] + s.reaped[index + 1..])
    case Crash(id) => s.(holders := s.holders - {id})
  }

  ghost predicate Init(s: State) {
    && s.keys.lists == map[] && s.keys.processing == map[] && s.keys.retry == map[] && s.keys.dead == map[]
    && s.holders == map[] && s.loops == map[] && s.reaped == [] && s.succeeded == {}
  }

  ghost predicate Valid(c: Codec, s: State, run: seq<Step>)
    decreases |run|
  {
    run == [] || (Enabled(c, s, run[0]) && Valid(c, Apply(c, s, run[0]), run[1..]))
  }

  ghost function Final(c: Codec, s: State, run: seq<Step>): State
    requires Valid(c, s, run)
    decreases |run|
  {
    if run == [] then s else Final(c, Apply(c, s, run[0]), run[1..])
  }

  // ---- what is in the retry set

  /** A job as decoding leaves it, up to the fields processing may change. */
  predicate Sound(c: Codec, j: Job) {
    c.canonical(j.args) && Normal(j)
  }

  /** A holder's bytes are those it leased, and its job is sound until it is settled. */
  ghost predicate HolderOk(c: Codec, h: Holder) {
    && h.job.raw == h.leased && h.leased != [] && (!h.settled ==> Sound(c, h.job))
    && Decode(c, h.leased).Some? && Decode(c, h.leased).value.jid == h.job.jid
  }

  ghost predicate ReadOk(c: Codec, r: Read) {
    Sound(c, r.job) && c.marshal(r.job) == r.member
  }

  ghost predicate LoopOk(c: Codec, l: Loop) {
    (forall i :: 0 <= i < |l.batch| ==> ReadOk(c, l.batch[i])) && (l.hand.Some? ==> Sound(c, l.hand.value))
  }

  ghost predicate Faithful(c: Codec, s: State) {
    && (forall m :: m in s.keys.retry ==> FixedPoint(c, m))
    && (forall id :: id in s.holders ==> HolderOk(c, s.holders[id]))
    && (forall id :: id in s.loops ==> LoopOk(c, s.loops[id]))
  }

  lemma DecodedIsSound(c: Codec, b: Bytes)
    requires Lawful(c) && Decode(c, b).Some?
    ensures Sound(c, Decode(c, b).value) && b != []
  {
    NormaliseProjects(c.unmarshal(b).value);
  }

  /** Every job added to the retry set keeps its count within the clamp, so it is written as a fixed
      point: a failure stays within `retry`, a deferral does not count, a refusal stays within `retry`. */
  lemma WritesFixedPoints(c: Codec, s: State, j: Job, outcome: Outcome)
    requires Lawful(c) && Sound(c, j) && forall m :: m in s.keys.retry ==> FixedPoint(c, m)
    ensures forall m :: m in Settled(c, s, j, outcome).retry ==> FixedPoint(c, m)
  {
    hide FixedPoint, Lawful;
    var j' := Mutated(j, outcome);
    if !(outcome == Failing && j'.retryCount > j'.retry) {
      FixedPointIff(c, j');
    }
  }

  lemma RefusalWritesFixedPoint(c: Codec, s: State, j: Job, accepted: bool)
    requires Lawful(c) && Sound(c, j) && forall m :: m in s.keys.retry ==> FixedPoint(c, m)
    ensures forall m :: m in PutRead(c, s, j, accepted).retry ==> FixedPoint(c, m)
  {
    hide FixedPoint, Lawful;
    if j.retryCount + 1 <= j.retry {
      FixedPointIff(c, j.(state := Pending, retryCount := j.retryCount + 1));
    }
  }

  lemma {:induction false} ReadsOk(c: Codec, members: seq<Bytes>)
    requires Lawful(c) && forall m :: m in members ==> FixedPoint(c, m)
    ensures forall i :: 0 <= i < |Reads(c, members)| ==> ReadOk(c, Reads(c, members)[i])
  {
    if members == [] {
    } else {
      assert members == [members[0]] + members[1..] && FixedPoint(c, members[0]);
      ReadsOk(c, members[1..]);
      DecodedIsSound(c, members[0]);
    }
  }

  lemma FaithfulHolders(c: Codec, s: State, t: Step)
    requires Lawful(c) && Enabled(c, s, t) && Faithful(c, s)
    ensures forall id :: id in Apply(c, s, t).holders ==> HolderOk(c, Apply(c, s, t).holders[id])
  {
    hide Lawful, FixedPoint, Settled, PutRead, Reads, Orphans, Members, IsRange, LoopOk;
    match t
    case Dequeue(id, q) =>
      if Decode(c, Popped(s.keys, q)).Some? {
        DecodedIsSound(c, Popped(s.keys, q));
      }
    case _ =>
  }

  lemma FaithfulRetry(c: Codec, s: State, t: Step)
    requires Lawful(c) && Enabled(c, s, t) && Faithful(c, s)
    ensures forall m :: m in Apply(c, s, t).keys.retry ==> FixedPoint(c, m)
  {
    match t
    case Settle(id, outcome) => WritesFixedPoints(c, s, s.holders[id].job, outcome);
    case RetryPut(id, accepted) => RefusalWritesFixedPoint(c, s, LoopOf(s, id).hand.value, accepted);
    case _ =>
    hide Lawful, FixedPoint, Settled, PutRead, Reads, Orphans, Members, IsRange, HolderOk, ReadOk;
  }

  lemma FaithfulLoops(c: Codec, s: State, t: Step)
    requires Lawful(c) && Enabled(c, s, t) && Faithful(c, s)
    ensures forall id :: id in Apply(c, s, t).loops ==> LoopOk(c, Apply(c, s, t).loops[id])
  {
    if t.RetryRead? {
      ReadsOk(c, t.members);
    }
    hide Lawful, FixedPoint, Settled, PutRead, Reads, Orphans, Members, IsRange, HolderOk, ReadOk;
  }

  lemma FaithfulStep(c: Codec, s: State, t: Step)
    requires Lawful(c) && Enabled(c, s, t) && Faithful(c, s)
    ensures Faithful(c, Apply(c, s, t))
  {
    FaithfulHolders(c, s, t);
    FaithfulRetry(c, s, t);
    FaithfulLoops(c, s, t);
    hide Apply, Enabled, Lawful;
  }

  lemma {:induction false} FaithfulRun(c: Codec, s: State, run: seq<Step>)
    requires Lawful(c) && Valid(c, s, run) && Faithful(c, s)
    ensures Faithful(c, Final(c, s, run))
    decreases |run|
  {
    hide Lawful, Faithful, Apply, Enabled;
    if run == [] {
    } else {
      FaithfulStep(c, s, run[0]);
      FaithfulRun(c, Apply(c, s, run[0]), run[1..]);
    }
  }

  /** In every run, with any number of retry loops: every member of the retry set is a fixed point of decode,
      clamp, encode; and removing a job that was read from it removes exactly the member it was read from. */
  lemma RetryRemovalHitsItsTarget(c: Codec, s: State, run: seq<Step>, id: nat)
    requires Lawful(c) && Init(s) && Valid(c, s, run)
    ensures forall m :: m in Final(c, s, run).keys.retry ==> FixedPoint(c, m)
    ensures Enabled(c, Final(c, s, run), RetryRemove(id)) ==>
      var before := Final(c, s, run);
      Apply(c, before, RetryRemove(id)).keys
      == before.keys.(retry := before.keys.retry - {LoopOf(before, id).batch[0].member})
  {
    FaithfulRun(c, s, run);
  }

  // ---- what an ack removes

  /** However the job was mutated since: its ack removes the member its own dequeue leased, nothing else;
      and if that is another holder's lease too, then of the same job. */
  lemma AckRemovesOwnMember(c: Codec, s: State, run: seq<Step>, id: nat)
    requires Lawful(c) && Init(s) && Valid(c, s, run) && Enabled(c, Final(c, s, run), Ack(id))
    ensures var before := Final(c, s, run);
      && Apply(c, before, Ack(id)).keys
         == before.keys.(processing := before.keys.processing - {before.holders[id].leased})
      && forall other :: other in before.holders && before.holders[other].leased == before.holders[id].leased ==>
           before.holders[other].job.jid == before.holders[id].job.jid
  {
    FaithfulRun(c, s, run);
  }

  /** Every un-acked dequeue has a member of its own in the processing set. */
  ghost predicate Exact(s: State) {
    && (forall id :: id in s.holders ==> s.holders[id].leased in s.keys.processing)
    && (forall id, id' :: id in s.holders && id' in s.holders && id != id' ==>
          s.holders[id].leased != s.holders[id'].leased)
  }

  /** The bytes are those of an un-acked dequeue. */
  ghost predicate HeldBytes(s: State, b: Bytes) {
    exists id :: id in s.holders && s.holders[id].leased == b
  }

  lemma DequeueLeases(c: Codec, s: State, id: nat, q: string)
    requires Enabled(c, s, Dequeue(id, q))
    ensures var s' := Apply(c, s, Dequeue(id, q));
      var b := Popped(s.keys, q);
      && s'.keys.processing.Keys == s.keys.processing.Keys + {b}
      && (Decode(c, b) == None ==> s'.holders == s.holders)
      && (Decode(c, b).Some? ==>
            s'.holders == s.holders[id := s'.holders[id]] && id in s'.holders && s'.holders[id].leased == b)
  {
    hide Decode;
  }

  lemma ExactWithNew(s: State, s': State, id: nat, b: Bytes)
    requires Exact(s) && id !in s.holders && s'.keys.processing.Keys == s.keys.processing.Keys + {b}
    requires id in s'.holders && s'.holders == s.holders[id := s'.holders[id]] && s'.holders[id].leased == b
    ensures Exact(s') <==> !HeldBytes(s, b)
  {
    if other :| other in s.holders && s.holders[other].leased == b {
      assert other != id && s'.holders[other].leased == s'.holders[id].leased;
    }
  }

  /** A dequeue keeps the leases exact if and only if the bytes it pops are not held already. */
  lemma DequeueExactIff(c: Codec, s: State, id: nat, q: string)
    requires Lawful(c) && Faithful(c, s) && Enabled(c, s, Dequeue(id, q)) && Exact(s)
    ensures Exact(Apply(c, s, Dequeue(id, q))) <==> !HeldBytes(s, Popped(s.keys, q))
  {
    DequeueLeases(c, s, id, q);
    hide Apply, Decode, Lawful, FixedPoint, LoopOk, Sound;
    var s' := Apply(c, s, Dequeue(id, q));
    var b := Popped(s.keys, q);
    if Decode(c, b).Some? {
      hide Exact, HeldBytes, Faithful;
      ExactWithNew(s, s', id, b);
    } else {
      assert forall other :: other in s.holders ==> HolderOk(c, s.holders[other]);
    }
  }

  lemma AckKeepsExact(c: Codec, s: State, id: nat)
    requires Enabled(c, s, Ack(id)) && Exact(s) && HolderOk(c, s.holders[id])
    ensures Exact(Apply(c, s, Ack(id)))
  {
  }

  lemma CrashKeepsExact(c: Codec, s: State, id: nat)
    requires Enabled(c, s, Crash(id)) && Exact(s)
    ensures Exact(Apply(c, s, Crash(id)))
  {
  }

  /** No reap finds a lease of an un-acked dequeue expired. */
  ghost predicate Unexpired(s: State, t: Step) {
    t.Reap? ==> forall b :: b in t.members ==> !HeldBytes(s, b)
  }

  lemma OtherKeepsLeases(c: Codec, s: State, t: Step)
    requires Enabled(c, s, t) && Unexpired(s, t) && !t.Dequeue? && !t.Ack? && !t.Crash?
    ensures Apply(c, s, t).holders.Keys == s.holders.Keys
    ensures forall id :: id in s.holders ==> Apply(c, s, t).holders[id].leased == s.holders[id].leased
    ensures forall id :: id in s.holders && s.holders[id].leased in s.keys.processing ==>
      s.holders[id].leased in Apply(c, s, t).keys.processing
  {
    hide Decode, Reads, Orphans, IsRange;
  }

  lemma OtherKeepsExact(c: Codec, s: State, t: Step)
    requires Enabled(c, s, t) && Unexpired(s, t) && !t.Dequeue? && !t.Ack? && !t.Crash? && Exact(s)
    ensures Exact(Apply(c, s, t))
  {
    OtherKeepsLeases(c, s, t);
    hide Apply, Enabled, Unexpired;
  }

  /** No lease of an un-acked dequeue expires, and no dequeue pops bytes that are held already. */
  ghost predicate FreshRun(c: Codec, s: State, run: seq<Step>)
    requires Valid(c, s, run)
    decreases |run|
  {
    run == [] ||
    (&& Unexpired(s, run[0])
     && (run[0].Dequeue? ==> !HeldBytes(s, Popped(s.keys, run[0].queue)))
     && FreshRun(c, Apply(c, s, run[0]), run[1..]))
  }

  lemma ReapExactIff(c: Codec, s: State, members: seq<Bytes>)
    requires Enabled(c, s, Reap(members)) && Exact(s)
    ensures Exact(Apply(c, s, Reap(members))) <==> Unexpired(s, Reap(members))
  {
    hide IsRange, Orphans;
    var s' := Apply(c, s, Reap(members));
    if b :| b in members && HeldBytes(s, b) {
      var id :| id in s.holders && s.holders[id].leased == b;
      assert id in s'.holders && s'.holders[id].leased !in s'.keys.processing;
    }
  }

  lemma ExactStepIff(c: Codec, s: State, t: Step)
    requires Lawful(c) && Enabled(c, s, t) && Faithful(c, s) && Exact(s)
    ensures Exact(Apply(c, s, t)) <==>
      Unexpired(s, t) && (t.Dequeue? ==> !HeldBytes(s, Popped(s.keys, t.queue)))
  {
    hide Lawful, Apply, Exact, HolderOk;
    match t
    case Dequeue(id, q) => DequeueExactIff(c, s, id, q);
    case Ack(id) => AckKeepsExact(c, s, id);
    case Crash(id) => CrashKeepsExact(c, s, id);
    case Reap(members) => ReapExactIff(c, s, members);
    case _ => OtherKeepsExact(c, s, t);
  }

  lemma {:induction false} ExactRun(c: Codec, s: State, run: seq<Step>)
    requires Lawful(c) && Valid(c, s, run) && FreshRun(c, s, run) && Faithful(c, s) && Exact(s)
    ensures Exact(Final(c, s, run))
    decreases |run|
  {
    hide Lawful, Faithful, Apply, Enabled, Exact, Unexpired, HeldBytes;
    if run == [] {
    } else {
      FaithfulStep(c, s, run[0]);
      ExactStepIff(c, s, run[0]);
      ExactRun(c, Apply(c, s, run[0]), run[1..]);
    }
  }

  ghost predicate AlwaysExact(c: Codec, s: State, run: seq<Step>)
    requires Valid(c, s, run)
    decreases |run|
  {
    Exact(s) && (run != [] ==> AlwaysExact(c, Apply(c, s, run[0]), run[1..]))
  }

  /** All through a run every un-acked dequeue has a lease of its own if and only if no such lease expires
      and no dequeue pops bytes that are held already. */
  lemma {:induction false} AlwaysExactIff(c: Codec, s: State, run: seq<Step>)
    requires Lawful(c) && Valid(c, s, run) && Faithful(c, s) && Exact(s)
    ensures AlwaysExact(c, s, run) <==> FreshRun(c, s, run)
    decreases |run|
  {
    hide Lawful, Faithful, Apply, Enabled, Exact, Unexpired, HeldBytes;
    if run == [] {
    } else {
      FaithfulStep(c, s, run[0]);
      ExactStepIff(c, s, run[0]);
      if Exact(Apply(c, s, run[0])) {
        AlwaysExactIff(c, Apply(c, s, run[0]), run[1..]);
      }
    }
  }

  /** In such runs each ack takes its own lease and leaves every other holder's in place. */
  lemma AckExact(c: Codec, s: State, run: seq<Step>, id: nat)
    requires Lawful(c) && Init(s) && Valid(c, s, run) && FreshRun(c, s, run)
    requires Enabled(c, Final(c, s, run), Ack(id))
    ensures var before := Final(c, s, run);
      var after := Apply(c, before, Ack(id));
      && before.holders[id].leased in before.keys.processing && before.holders[id].leased !in after.keys.processing
      && forall other :: other in before.holders && other != id ==>
           before.holders[other].leased in after.keys.processing
  {
    FaithfulRun(c, s, run);
    ExactRun(c, s, run);
    hide Lawful, Valid, Final, FreshRun, Init, Decode, Sound, FixedPoint, LoopOk;
  }

  // ---- where it goes wrong

  /** A holder whose lease somebody else's ack took away. */
  ghost predicate LeaseTaken(s: State) {
    exists id :: id in s.holders && !s.holders[id].settled && s.holders[id].leased !in s.keys.processing
  }

  /** A client's job is dequeued and turned away by an open circuit. Five seconds later, its worker not yet
      having acked, the retry loop reads it and puts it back, and a second worker dequeues it. */
  function DeferralRun(q: string, b: Bytes, now: int): seq<Step> {
    [Client(q, b), Dequeue(0, q), Settle(0, CircuitOpen), Tick(now + 5 * SECOND),
     RetryRead(0, [b]), RetryRemove(0), RetryPut(0, true), Dequeue(1, q), Ack(0)]
  }

  lemma SecondHolder(c: Codec, s: State, j: Job, q: string, b: Bytes) returns (run: seq<Step>)
    requires Decode(c, b) == Some(j) && b != [] && List(s.keys, q) == [b]
    requires s.holders.Keys == {0} && s.holders[0].settled && s.holders[0].job.raw == b
    ensures run == DeferralRun(q, b, 0)[7..] && Valid(c, s, run) && LeaseTaken(Final(c, s, run))
  {
    var s1 := Apply(c, s, Dequeue(1, q));
    var s2 := Apply(c, s1, Ack(0));
    assert 1 in s2.holders && !s2.holders[1].settled && s2.holders[1].leased == b && b !in s2.keys.processing;
    run := Then(c, s1, Ack(0), []);
    run := Then(c, s, Dequeue(1, q), run);
  }

  lemma OnlyMember(b: Bytes, score: int, max: int)
    requires 0 <= score <= max
    ensures IsRange(map[b := score], max, RETRY_BATCH, [b])
  {
  }

  lemma PutBackInQueue(c: Codec, s: State, j: Job, q: string, b: Bytes) returns (run: seq<Step>)
    requires Decode(c, b) == Some(j) && b != [] && c.marshal(j) == b && j.state == Pending && j.queue == q
    requires List(s.keys, q) == [] && LoopOf(s, 0) == Loop([Read(j, b)], None)
    requires s.holders.Keys == {0} && s.holders[0].settled && s.holders[0].job.raw == b
    ensures run == DeferralRun(q, b, 0)[5..] && Valid(c, s, run) && LeaseTaken(Final(c, s, run))
  {
    hide Decode, LeaseTaken, Valid, Final;
    var s1 := Apply(c, s, RetryRemove(0));
    assert j.(state := Pending) == j;
    var s2 := Apply(c, s1, RetryPut(0, true));
    assert List(s2.keys, q) == [b];
    hide LPush;
    run := SecondHolder(c, s2, j, q, b);
    run := Then(c, s1, RetryPut(0, true), run);
    run := Then(c, s, RetryRemove(0), run);
  }

  lemma DeferredAgain(c: Codec, s: State, j: Job, q: string, b: Bytes) returns (run: seq<Step>)
    requires Decode(c, b) == Some(j) && b != [] && c.marshal(j) == b && j.state == Pending && j.queue == q
    requires List(s.keys, q) == [] && s.loops == map[] && 0 <= Unix(s.now) && s.keys.retry == map[b := Unix(s.now)]
    requires s.holders.Keys == {0} && s.holders[0].settled && s.holders[0].job.raw == b
    ensures run == DeferralRun(q, b, 0)[4..] && Valid(c, s, run) && LeaseTaken(Final(c, s, run))
  {
    OnlyMember(b, Unix(s.now), Unix(s.now));
    assert [b][1..] == [] && Reads(c, [b]) == [Read(j, b)];
    hide IsRange, Unix, LeaseTaken, Valid, Final, Reads, Decode;
    var s1 := Apply(c, s, RetryRead(0, [b]));
    run := PutBackInQueue(c, s1, j, q, b);
    run := Then(c, s, RetryRead(0, [b]), run);
  }

  /** The first holder of the only job, about to be turned away. */
  lemma Deferred(c: Codec, s: State, j: Job, q: string, b: Bytes) returns (run: seq<Step>)
    requires Decode(c, b) == Some(j) && b != [] && c.marshal(j) == c.marshal(j.(raw := b)) == b
    requires j.state == Pending && j.queue == q && s.now >= 0
    requires List(s.keys, q) == [] && s.loops == map[] && s.keys.retry == map[]
    requires s.holders == map[0 := Holder(j.(raw := b), b, s.now, false)]
    ensures run == DeferralRun(q, b, s.now)[2..] && Valid(c, s, run) && LeaseTaken(Final(c, s, run))
  {
    hide LeaseTaken, Decode;
    var s1 := Apply(c, s, Settle(0, CircuitOpen));
    assert Mutated(j.(raw := b), CircuitOpen) == j.(raw := b);
    var s2 := Apply(c, s1, Tick(s.now + 5 * SECOND));
    assert s2.keys.retry == map[b := Unix(s2.now)];
    run := DeferredAgain(c, s2, j, q, b);
    run := Then(c, s1, Tick(s.now + 5 * SECOND), run);
    run := Then(c, s, Settle(0, CircuitOpen), run);
  }

  /** The only job, waiting. */
  lemma Queued(c: Codec, s: State, j: Job, q: string, b: Bytes) returns (run: seq<Step>)
    requires Decode(c, b) == Some(j) && b != [] && c.marshal(j) == c.marshal(j.(raw := b)) == b
    requires j.state == Pending && j.queue == q && s.now >= 0
    requires List(s.keys, q) == [b] && s.loops == map[] && s.keys.retry == map[] && s.holders == map[]
    ensures run == DeferralRun(q, b, s.now)[1..] && Valid(c, s, run) && LeaseTaken(Final(c, s, run))
  {
    hide LeaseTaken, Valid, Final, Unix;
    var s1 := Apply(c, s, Dequeue(0, q));
    hide Decode;
    run := Deferred(c, s1, j, q, b);
    run := Then(c, s, Dequeue(0, q), run);
  }

  lemma DeferralParts(q: string, b: Bytes, now: int)
    ensures DeferralRun(q, b, now) == [Client(q, b)] + DeferralRun(q, b, now)[1..]
    ensures forall t :: t in DeferralRun(q, b, now) ==> !t.Reap?
  {
  }

  lemma ClientBytes(c: Codec, j: Job)
    requires Lawful(c) && Sound(c, j) && j.raw == []
    ensures var b := c.marshal(j);
      Decode(c, b) == Some(j) && b != [] && c.marshal(j.(raw := b)) == b
  {
    var b := c.marshal(j);
    assert j.(raw := b).(raw := []) == j;
    assert c.marshal(j.(raw := b)) == b;
  }

  /** A circuit-open job is deferred under the bytes it was leased under. If the retry loop gets it back to
      a second holder before the first has acked, that ack takes the second holder's lease: with any client
      job, in a run from the start without a single reap. */
  lemma DeferralLosesLease(c: Codec, j: Job, s: State)
    requires Lawful(c) && Sound(c, j) && j.state == Pending && j.raw == [] && Init(s) && s.now >= 0
    ensures var run := DeferralRun(j.queue, c.marshal(j), s.now);
      Valid(c, s, run) && LeaseTaken(Final(c, s, run)) && forall t :: t in run ==> !t.Reap?
  {
    var b, q := c.marshal(j), j.queue;
    ClientBytes(c, j);
    hide Lawful, LeaseTaken, Valid, Final, Decode, Sound, DeferralRun;
    var s1 := Apply(c, s, Client(q, b));
    var run := Queued(c, s1, j, q, b);
    run := Then(c, s, Client(q, b), run);
    DeferralParts(q, b, s.now);
  }

  lemma Then(c: Codec, s: State, t: Step, rest: seq<Step>) returns (run: seq<Step>)
    requires Enabled(c, s, t) && Valid(c, Apply(c, s, t), rest)
    ensures run == [t] + rest && Valid(c, s, run) && Final(c, s, run) == Final(c, Apply(c, s, t), rest)
  {
    hide Apply, Enabled;
    run := [t] + rest;
    assert run[1..] == rest;
  }

  // ---- leases

  ghost predicate Timely(s: State) {
    forall id :: id in s.holders ==>
      s.holders[id].at <= s.now
      && (s.holders[id].leased in s.keys.processing ==>
            s.keys.processing[s.holders[id].leased] >= Unix(s.holders[id].at + LEASE))
  }

  lemma UnixMonotone(a: int, b: int)
    requires a <= b
    ensures Unix(a) <= Unix(b)
  {
  }

  lemma TimelyDequeue(c: Codec, s: State, id: nat, q: string)
    requires Enabled(c, s, Dequeue(id, q)) && Timely(s)
    ensures Timely(Apply(c, s, Dequeue(id, q)))
  {
    forall id | id in s.holders
      ensures Unix(s.holders[id].at + LEASE) <= Unix(s.now + LEASE)
    {
      UnixMonotone(s.holders[id].at + LEASE, s.now + LEASE);
    }
    hide Unix, Decode;
  }

  lemma TimelyStep(c: Codec, s: State, t: Step)
    requires Enabled(c, s, t) && Timely(s)
    ensures Timely(Apply(c, s, t))
  {
    hide Unix, IsRange, Reads, Orphans, Decode;
    if t.Dequeue? {
      hide Apply, Timely, Enabled;
      TimelyDequeue(c, s, t.id, t.queue);
    }
  }

  lemma {:induction false} TimelyRun(c: Codec, s: State, run: seq<Step>)
    requires Valid(c, s, run) && Timely(s)
    ensures Timely(Final(c, s, run))
    decreases |run|
  {
    hide Timely, Apply, Enabled;
    if run == [] {
    } else {
      TimelyStep(c, s, run[0]);
      TimelyRun(c, Apply(c, s, run[0]), run[1..]);
    }
  }

  /** In every run: a reap that takes the lease of a job still held comes more than 4 minutes 59 seconds
      after that holder's dequeue. */
  lemma RedisLeaseSafety(c: Codec, s: State, run: seq<Step>, members: seq<Bytes>, id: nat)
    requires Init(s) && Valid(c, s, run) && Enabled(c, Final(c, s, run), Reap(members))
    requires id in Final(c, s, run).holders && Final(c, s, run).holders[id].leased in members
    ensures Final(c, s, run).now > Final(c, s, run).holders[id].at + 299 * SECOND
  {
    TimelyRun(c, s, run);
    LeaseNeverBefore299(Final(c, s, run).holders[id].at, Final(c, s, run).now);
  }
}
