/** The Redis broker over an abstract key space: lists, sorted sets keyed by payload bytes, and scripts
    that run atomically. */
module Redis {
  import opened Options
  import opened Payload
  import opened Fifo

  /** JSON, as a pair of functions. `canonical` says which argument lists are as a decoder leaves them. */
  datatype Codec = Codec(
    marshal: Job -> Bytes, unmarshal: Bytes -> Option<Job>, canonical: seq<string> -> bool)

  /** Encoding ignores the raw bytes and is never empty; decoding leaves canonical arguments, and undoes
      the encoding of any record that has such arguments. */
  ghost predicate Lawful(c: Codec) {
    && (forall j: Job :: c.marshal(j) == c.marshal(j.(raw := [])) && c.marshal(j) != [])
    && c.unmarshal([]) == None
    && (forall b :: c.unmarshal(b).Some? ==> c.canonical(c.unmarshal(b).value.args) && c.unmarshal(b).value.raw == [])
    && (forall j: Job :: c.canonical(j.args) && j.raw == [] ==> c.unmarshal(c.marshal(j)) == Some(j))
  }

  /** `FromJSON`: decode, then clamp. */
  function Decode(c: Codec, b: Bytes): Option<Job> {
    match c.unmarshal(b)
    case None => None
    case Some(j) => Some(Normalise(j))
  }

  /** A member that decoding, clamping and encoding gives back unchanged. */
  predicate FixedPoint(c: Codec, b: Bytes) {
    Decode(c, b).Some? && c.marshal(Decode(c, b).value) == b
  }

  /** What an in-memory job writes is a fixed point exactly when clamping would not change the job. */
  lemma FixedPointIff(c: Codec, j: Job)
    requires Lawful(c) && c.canonical(j.args)
    ensures FixedPoint(c, c.marshal(j)) <==> Normal(j)
  {
    var plain := j.(raw := []);
    assert c.marshal(j) == c.marshal(plain) && c.unmarshal(c.marshal(plain)) == Some(plain);
    var clamped := Normalise(plain);
    assert c.unmarshal(c.marshal(clamped)) == Some(clamped);
  }

  type SortedSet = map<Bytes, int>

  datatype KeySpace = KeySpace(
    lists: map<string, seq<Bytes>>, processing: SortedSet, retry: SortedSet, dead: SortedSet)

  function List(ks: KeySpace, q: string): seq<Bytes> {
    if q in ks.lists then ks.lists[q] else []
  }

  function LPush(ks: KeySpace, q: string, b: Bytes): KeySpace {
    ks.(lists := ks.lists[q := [b] + List(ks, q)])
  }

  /** The reap script's limit. */
  const REAP_BATCH := 100

  /** Times reach Redis in whole seconds. */
  function Unix(t: int): int {
    t / SECOND
  }

  /** The dequeue script: RPOP and ZADD in one step. */
  function PopAndLease(ks: KeySpace, q: string, now: int): KeySpace
    requires List(ks, q) != []
  {
    var list := List(ks, q);
    ks.(lists := ks.lists[q := list[..|list| - 1]],
        processing := ks.processing[list[|list| - 1] := Unix(now + LEASE)])
  }

  function Popped(ks: KeySpace, q: string): Bytes
    requires List(ks, q) != []
  {
    List(ks, q)[|List(ks, q)| - 1]
  }

  /** `rawOrSerialize`. */
  function RawOrSerialize(c: Codec, j: Job): Bytes {
    if |j.raw| > 0 then j.raw else c.marshal(j)
  }

  // ---- ranges by score

  predicate InRange(z: SortedSet, max: int, m: Bytes) {
    m in z && 0 <= z[m] <= max
  }

  /** A possible answer of ZRANGEBYSCORE 0 max LIMIT 0 limit: distinct members in range, lowest scores
      first, as many as there are up to the limit. Ties may come in any order. */
  ghost predicate IsRange(z: SortedSet, max: int, limit: nat, out: seq<Bytes>) {
    && (forall i, k :: 0 <= i < k < |out| ==> out[i] != out[k])
    && (forall i :: 0 <= i < |out| ==> InRange(z, max, out[i]))
    && (forall i, k :: 0 <= i < k < |out| ==> z[out[i]] <= z[out[k]])
    && (forall m, m' :: m in out && InRange(z, max, m') && m' !in out ==> z[m] <= z[m'])
    && |out| <= limit && (|out| < limit ==> forall m :: InRange(z, max, m) ==> m in out)
  }

  /** The lowest members of the range, in order, and the members not yet taken. */
  ghost predicate LowPart(z: SortedSet, max: int, out: seq<Bytes>, left: set<Bytes>) {
    && (forall m :: m in left || m in out <==> InRange(z, max, m))
    && (forall i, k :: 0 <= i < k < |out| ==> out[i] != out[k])
    && (forall i :: 0 <= i < |out| ==> InRange(z, max, out[i]) && out[i] !in left)
    && (forall i, k :: 0 <= i < k < |out| ==> z[out[i]] <= z[out[k]])
    && (forall i, m :: 0 <= i < |out| && m in left ==> z[out[i]] <= z[m])
  }

  lemma LowSnoc(z: SortedSet, max: int, out: seq<Bytes>, left: set<Bytes>, low: Bytes)
    requires LowPart(z, max, out, left) && low in left && forall m :: m in left ==> m in z && z[low] <= z[m]
    ensures LowPart(z, max, out + [low], left - {low})
  {
    var out', left' := out + [low], left - {low};
    assert forall i :: 0 <= i < |out'| ==> out'[i] == if i < |out| then out[i] else low;
    assert forall m :: m in out' <==> m in out || m == low;
  }

  function Members(out: seq<Bytes>): set<Bytes> {
    set m | m in out
  }

  ghost function RangeSet(z: SortedSet, max: int): set<Bytes> {
    set m | m in z && InRange(z, max, m)
  }

  lemma {:induction false} MembersCount(out: seq<Bytes>)
    requires forall i, k :: 0 <= i < k < |out| ==> out[i] != out[k]
    ensures |Members(out)| == |out|
  {
    if out == [] {
    } else {
      MembersCount(out[1..]);
      assert out == [out[0]] + out[1..];
      assert Members(out) == {out[0]} + Members(out[1..]);
    }
  }

  /** One reap takes min(limit, n) of the n expired leases and leaves the rest, and every live lease,
      exactly as they were. */
  lemma ReapTakes(z: SortedSet, max: int, limit: nat, out: seq<Bytes>)
    requires IsRange(z, max, limit, out)
    ensures Members(out) <= RangeSet(z, max) && RangeSet(z - Members(out), max) == RangeSet(z, max) - Members(out)
    ensures |RangeSet(z - Members(out), max)|
         == if |RangeSet(z, max)| <= limit then 0 else |RangeSet(z, max)| - limit
  {
    var all, taken := RangeSet(z, max), Members(out);
    MembersCount(out);
    assert RangeSet(z - taken, max) == all - taken;
    assert |all - taken| == |all| - |taken|;
    if |out| < limit {
      assert all <= taken;
    } else if |all| <= limit {
      SubsetEqual(taken, all);
    }
  }

  lemma SubsetEqual<T>(a: set<T>, b: set<T>)
    requires a <= b && |a| >= |b|
    ensures a == b
  {
    assert b == a + (b - a);
    assert |b| == |a| + |b - a|;
    assert b - a == {};
  }

  /** A chain of reaper rounds with nothing expiring meanwhile. */
  ghost predicate Rounds(zs: seq<SortedSet>, outs: seq<seq<Bytes>>, max: int, limit: nat) {
    && |zs| == |outs| + 1
    && forall i :: 0 <= i < |outs| ==> IsRange(zs[i], max, limit, outs[i]) && zs[i + 1] == zs[i] - Members(outs[i])
  }

  lemma RoundsTail(zs: seq<SortedSet>, outs: seq<seq<Bytes>>, max: int, limit: nat)
    requires Rounds(zs, outs, max, limit) && outs != []
    ensures Rounds(zs[1..], outs[1..], max, limit)
    ensures IsRange(zs[0], max, limit, outs[0]) && zs[1] == zs[0] - Members(outs[0])
  {
    hide IsRange, Members;
    assert forall i :: 0 <= i < |outs[1..]| ==> outs[1..][i] == outs[i + 1] && zs[1..][i] == zs[i + 1];
  }

  /** `n` expired leases are gone after `ceil(n / limit)` rounds, and not sooner. */
  lemma {:induction false} DrainedInRounds(zs: seq<SortedSet>, outs: seq<seq<Bytes>>, max: int, limit: nat)
    requires Rounds(zs, outs, max, limit)
    ensures RangeSet(zs[|outs|], max) == {} <==> limit * |outs| >= |RangeSet(zs[0], max)|
    decreases |outs|
  {
    hide IsRange, Members, RangeSet;
    if |outs| > 0 {
      RoundsTail(zs, outs, max, limit);
      ReapTakes(zs[0], max, limit, outs[0]);
      DrainedInRounds(zs[1..], outs[1..], max, limit);
      assert limit * |outs| == limit + limit * |outs[1..]| by {
        assert |outs| == 1 + |outs[1..]|;
      }
    }
  }

  // ---- conservation

  /** The payloads in one queue and in the processing set. */
  ghost function Held(ks: KeySpace, q: string): multiset<Bytes> {
    multiset(List(ks, q)) + multiset(ks.processing.Keys)
  }

  /** Moving the last element of a list into a set. */
  lemma MoveConservesIff(list: seq<Bytes>, keys: set<Bytes>)
    requires list != []
    ensures var b := list[|list| - 1];
      multiset(list[..|list| - 1]) + multiset(keys + {b}) == multiset(list) + multiset(keys) <==> b !in keys
  {
    var b := list[|list| - 1];
    assert list == list[..|list| - 1] + [b];
    if b in keys {
      assert keys + {b} == keys;
      var before, after := multiset(list) + multiset(keys), multiset(list[..|list| - 1]) + multiset(keys + {b});
      assert before[b] == after[b] + 1;
    } else {
      assert multiset(keys + {b}) == multiset(keys) + multiset{b};
    }
  }

  /** The dequeue script moves one payload and loses none, exactly when the same bytes are not leased
      already: a second ZADD of a member only renews its score. */
  lemma DequeueConservesIff(ks: KeySpace, q: string, now: int)
    requires List(ks, q) != []
    ensures Held(PopAndLease(ks, q, now), q) == Held(ks, q) <==> Popped(ks, q) !in ks.processing
  {
    MoveConservesIff(List(ks, q), ks.processing.Keys);
    assert PopAndLease(ks, q, now).processing.Keys == ks.processing.Keys + {Popped(ks, q)};
  }

  /** The reap script always conserves: what leaves the processing set is what it returns. */
  lemma ReapConserves(z: SortedSet, max: int, limit: nat, out: seq<Bytes>)
    requires IsRange(z, max, limit, out)
    ensures multiset((z - Members(out)).Keys) + multiset(out) == multiset(z.Keys)
  {
    DistinctMultiset(out);
    assert (z - Members(out)).Keys == z.Keys - Members(out);
    assert Members(out) <= z.Keys;
  }

  lemma {:induction false} DistinctMultiset(out: seq<Bytes>)
    requires forall i, k :: 0 <= i < k < |out| ==> out[i] != out[k]
    ensures multiset(out) == multiset(Members(out))
  {
    if out == [] {
    } else {
      DistinctMultiset(out[1..]);
      assert out == [out[0]] + out[1..];
      assert Members(out) == {out[0]} + Members(out[1..]);
    }
  }

  // ---- leases in whole seconds

  /** Truncation and the inclusive cutoff cost a lease up to one second, never more: what a reap at `now`
      finds expired was leased more than 4 minutes 59 seconds ago. */
  lemma LeaseNeverBefore299(leasedAt: int, now: int)
    requires Unix(leasedAt + LEASE) <= Unix(now)
    ensures now > leasedAt + 299 * SECOND
  {
  }

  /** No reap ends a lease before its five minutes if and only if the lease began on a whole second. */
  lemma FullLeaseIff(leasedAt: int)
    ensures (forall now :: Unix(leasedAt + LEASE) <= Unix(now) ==> now >= leasedAt + LEASE) <==> leasedAt % SECOND == 0
  {
    var early := leasedAt + LEASE - leasedAt % SECOND;
    assert Unix(early) == Unix(leasedAt + LEASE);
  }

  // ---- first in, first out

  function Reverse(s: seq<Bytes>): seq<Bytes> {
    if s == [] then [] else Reverse(s[1..]) + [s[0]]
  }

  lemma {:induction false} ReversePop(s: seq<Bytes>)
    requires s != []
    ensures Reverse(s) == [s[|s| - 1]] + Reverse(s[..|s| - 1])
  {
    if |s| == 1 {
      assert s[1..] == [] && s[..0] == [];
    } else {
      ReversePop(s[1..]);
      assert s[1..][..|s| - 2] == s[..|s| - 1][1..];
    }
  }

  datatype Call =
    | EnqueueCall(queue: string, payload: Bytes)
    | DequeueCall(queue: string, now: int)
    | DeleteCall(queue: string)
    | OtherCall(ks: KeySpace)

  /** Calls on the retry, dead and processing sets leave the queue lists alone. */
  function Do(ks: KeySpace, c: Call): KeySpace {
    match c
    case EnqueueCall(q, b) => LPush(ks, q, b)
    case DequeueCall(q, now) => if List(ks, q) == [] then ks else PopAndLease(ks, q, now)
    case DeleteCall(q) => ks.(lists := ks.lists - {q})
    case OtherCall(ks') => ks'.(lists := ks.lists)
  }

  function After(ks: KeySpace, calls: seq<Call>): KeySpace
    decreases |calls|
  {
    if calls == [] then ks else After(Do(ks, calls[0]), calls[1..])
  }

  function EventOf(ks: KeySpace, c: Call, q: string): Event<Bytes> {
    match c
    case EnqueueCall(q', b) => if q' == q then Added(b) else Nothing
    case DequeueCall(q', _) => if q' == q && List(ks, q) != [] then Removed(Popped(ks, q)) else Nothing
    case DeleteCall(q') => if q' == q then Cleared else Nothing
    case OtherCall(_) => Nothing
  }

  /** The list is never deleted while there are payloads in it. */
  ghost predicate DeletedOnlyEmpty(ks: KeySpace, calls: seq<Call>, q: string)
    decreases |calls|
  {
    calls == [] ||
    ((calls[0] == DeleteCall(q) ==> List(ks, q) == []) && DeletedOnlyEmpty(Do(ks, calls[0]), calls[1..], q))
  }

  function EventsOf(ks: KeySpace, calls: seq<Call>, q: string): seq<Event<Bytes>>
    decreases |calls|
  {
    if calls == [] then [] else [EventOf(ks, calls[0], q)] + EventsOf(Do(ks, calls[0]), calls[1..], q)
  }

  lemma CallOnList(ks: KeySpace, c: Call, q: string)
    ensures Behaves(Reverse(List(ks, q)), [EventOf(ks, c, q)], Reverse(List(Do(ks, c), q)))
  {
    assert [EventOf(ks, c, q)][1..] == [];
    match c
    case EnqueueCall(q', b) =>
      if q' == q {
        assert ([b] + List(ks, q))[1..] == List(ks, q);
      }
    case DequeueCall(q', _) =>
      if q' == q && List(ks, q) != [] {
        ReversePop(List(ks, q));
      }
    case DeleteCall(_) =>
    case OtherCall(_) =>
  }

  lemma {:induction false} ListBehaves(ks: KeySpace, calls: seq<Call>, q: string)
    ensures Behaves(Reverse(List(ks, q)), EventsOf(ks, calls, q), Reverse(List(After(ks, calls), q)))
    decreases |calls|
  {
    if calls == [] {
    } else {
      var ks' := Do(ks, calls[0]);
      ListBehaves(ks', calls[1..], q);
      CallOnList(ks, calls[0], q);
      BehavesThen(Reverse(List(ks, q)), EventOf(ks, calls[0], q), Reverse(List(ks', q)),
                  EventsOf(ks', calls[1..], q), Reverse(List(After(ks, calls), q)));
    }
  }

  lemma {:induction false} NothingLostIff(ks: KeySpace, calls: seq<Call>, q: string)
    ensures NothingLost(Reverse(List(ks, q)), EventsOf(ks, calls, q)) <==> DeletedOnlyEmpty(ks, calls, q)
    decreases |calls|
  {
    if calls == [] {
    } else {
      var ks', rest := Do(ks, calls[0]), EventsOf(Do(ks, calls[0]), calls[1..], q);
      NothingLostIff(ks', calls[1..], q);
      CallOnList(ks, calls[0], q);
      assert EventsOf(ks, calls, q)[1..] == rest;
      NothingLostThen(Reverse(List(ks, q)), EventOf(ks, calls[0], q), Reverse(List(ks', q)), rest);
      hide Do, List;
    }
  }

  /** LPUSH at the head and RPOP from the tail make the same queue as the in-memory slice: first in, first
      out over a run if and only if the list is never deleted with payloads in it. */
  lemma RedisQueueIsFifo(ks: KeySpace, calls: seq<Call>, q: string)
    requires List(ks, q) == []
    ensures RemovedIn(EventsOf(ks, calls, q)) + Reverse(List(After(ks, calls), q)) == AddedIn(EventsOf(ks, calls, q))
      <==> DeletedOnlyEmpty(ks, calls, q)
  {
    ListBehaves(ks, calls, q);
    NothingLostIff(ks, calls, q);
    FirstInFirstOut(Reverse(List(ks, q)), EventsOf(ks, calls, q), Reverse(List(After(ks, calls), q)));
    assert [] + AddedIn(EventsOf(ks, calls, q)) == AddedIn(EventsOf(ks, calls, q));
  }

  // ---- the object

  datatype Dequeued = Empty | Garbled | Leased(job: Job, queue: string)

  /** The dequeue script ran on queue `q`, and its payload was decoded. */
  ghost predicate TookFrom(c: Codec, before: KeySpace, after: KeySpace, q: string, now: int, r: Dequeued) {
    && List(before, q) != [] && after == PopAndLease(before, q, now)
    && r == match Decode(c, Popped(before, q)) {
         case None => Garbled
         case Some(j) => Leased(j.(raw := Popped(before, q)), q)
       }
  }

  class RedisBroker {
    const codec: Codec
    var lists: map<string, seq<Bytes>>
    var processing: SortedSet
    var retry: SortedSet
    var dead: SortedSet

    ghost function View(): KeySpace
      reads this
    {
      KeySpace(lists, processing, retry, dead)
    }

    constructor (c: Codec)
      ensures codec == c && View() == KeySpace(map[], map[], map[], map[])
    {
      codec := c;
      lists, processing, retry, dead := map[], map[], map[], map[];
    }

    method Enqueue(q: string, j: Job)
      modifies this
      ensures View() == LPush(old(View()), q, codec.marshal(j))
    {
      var list := if q in lists then lists[q] else [];
      lists := lists[q := [codec.marshal(j)] + list];
    }

    /** One pass over the queue list, the polling around it only waits. The first queue with a payload
        gives up its oldest one; a payload that cannot be decoded stays leased. */
    method TryDequeue(names: seq<string>, now: int) returns (r: Dequeued)
      modifies this
      ensures r == Empty <==> forall i :: 0 <= i < |names| ==> List(old(View()), names[i]) == []
      ensures r == Empty ==> View() == old(View())
      ensures r != Empty ==>
        exists i :: 0 <= i < |names|
          && (forall k :: 0 <= k < i ==> List(old(View()), names[k]) == [])
          && TookFrom(codec, old(View()), View(), names[i], now, r)
    {
      for i := 0 to |names|
        invariant View() == old(View())
        invariant forall k :: 0 <= k < i ==> List(View(), names[k]) == []
      {
        var q := names[i];
        if q in lists && lists[q] != [] {
          var list := lists[q];
          var value := list[|list| - 1];
          lists := lists[q := list[..|list| - 1]];
          processing := processing[value := Unix(now + LEASE)];
          var decoded := Decode(codec, value);
          r := if decoded.None? then Garbled else Leased(decoded.value.(raw := value), q);
          assert TookFrom(codec, old(View()), View(), q, now, r);
          return;
        }
      }
      return Empty;
    }

    method Ack(j: Job)
      modifies this
      ensures View() == old(View()).(processing := old(processing) - {RawOrSerialize(codec, j)})
    {
      processing := processing - {RawOrSerialize(codec, j)};
    }

    /** ZRANGEBYSCORE by repeated choice of a lowest member. */
    static method Range(z: SortedSet, max: int, limit: nat) returns (out: seq<Bytes>)
      ensures IsRange(z, max, limit, out)
    {
      out := [];
      var left := set m | m in z && InRange(z, max, m);
      while |out| < limit && left != {}
        invariant |out| <= limit && LowPart(z, max, out, left)
        decreases |left|
      {
        var lowest := Lowest(z, left);
        LowSnoc(z, max, out, left, lowest);
        out := out + [lowest];
        left := left - {lowest};
      }
    }

    static method Lowest(z: SortedSet, s: set<Bytes>) returns (low: Bytes)
      requires s != {} && s <= z.Keys
      ensures low in s && forall m :: m in s ==> z[low] <= z[m]
    {
      low :| low in s;
      var rest := s - {low};
      while rest != {}
        invariant rest <= s && low in s
        invariant forall m :: m in s && m !in rest ==> z[low] <= z[m]
        decreases |rest|
      {
        var m :| m in rest;
        if z[m] < z[low] {
          low := m;
        }
        rest := rest - {m};
      }
    }

    /** The reap script: read the range, remove its members one by one. */
    method ReapScript(cutoff: int, limit: nat) returns (expired: seq<Bytes>)
      modifies this
      ensures IsRange(old(processing), cutoff, limit, expired)
      ensures View() == old(View()).(processing := old(processing) - Members(expired))
    {
      expired := Range(processing, cutoff, limit);
      for i := 0 to |expired|
        invariant View() == old(View()).(processing := old(processing) - Members(expired[..i]))
      {
        assert expired[..i + 1] == expired[..i] + [expired[i]];
        assert old(processing) - Members(expired[..i]) - {expired[i]} == old(processing) - Members(expired[..i + 1]);
        processing := processing - {expired[i]};
      }
      assert expired[..|expired|] == expired;
    }

    /** The expired members, decoded, pending again and without their raw bytes. */
    method ReapOrphanedJobs(now: int) returns (orphaned: seq<Job>, ghost members: seq<Bytes>)
      modifies this
      ensures IsRange(old(processing), Unix(now), 100, members)
      ensures View() == old(View()).(processing := old(processing) - Members(members))
      ensures orphaned == Orphans(codec, members)
    {
      var results := ReapScript(Unix(now), REAP_BATCH);
      orphaned, members := [], results;
      for i := 0 to |results|
        invariant View() == old(View()).(processing := old(processing) - Members(results))
        invariant orphaned == Orphans(codec, results[..i])
      {
        OrphansSnoc(codec, results[..i], results[i]);
        assert results[..i + 1] == results[..i] + [results[i]];
        var decoded := Decode(codec, results[i]);
        if decoded.Some? {
          orphaned := orphaned + [decoded.value.(state := Pending, raw := [])];
        }
      }
      assert results[..|results|] == results;
    }

    method AddToRetry(j: Job, at: int)
      modifies this
      ensures View() == old(View()).(retry := old(retry)[codec.marshal(j) := Unix(at)])
    {
      retry := retry[codec.marshal(j) := Unix(at)];
    }

    /** The due members, decoded; those that cannot be decoded are passed over. */
    method GetRetryJobs(limit: int, now: int) returns (jobs: seq<Job>, ghost members: seq<Bytes>)
      ensures IsRange(retry, Unix(now), if limit <= 0 then 1 else if limit > 10000 then 10000 else limit, members)
      ensures jobs == Decodable(codec, members)
    {
      var n := if limit <= 0 then 1 else if limit > 10000 then 10000 else limit;
      var result := Range(retry, Unix(now), n);
      jobs, members := [], result;
      for i := 0 to |result|
        invariant jobs == Decodable(codec, result[..i])
      {
        DecodableSnoc(codec, result[..i], result[i]);
        assert result[..i + 1] == result[..i] + [result[i]];
        var decoded := Decode(codec, result[i]);
        if decoded.Some? {
          jobs := jobs + [decoded.value];
        }
      }
      assert result[..|result|] == result;
    }

    method RemoveFromRetry(j: Job)
      modifies this
      ensures View() == old(View()).(retry := old(retry) - {codec.marshal(j)})
    {
      retry := retry - {codec.marshal(j)};
    }

    /** Only names under the `queue:` prefix may be deleted. */
    method DeleteKey(key: string) returns (ok: bool)
      modifies this
      ensures ok <==> "queue:" <= key
      ensures View() == if ok then old(View()).(lists := old(lists) - {key[6..]}) else old(View())
    {
      if !("queue:" <= key) {
        return false;
      }
      lists := lists - {key[6..]};
      return true;
    }

    method AddToDead(j: Job, now: int)
      modifies this
      ensures View() == old(View()).(dead := old(dead)[codec.marshal(j) := Unix(now)])
    {
      dead := dead[codec.marshal(j) := Unix(now)];
    }
  }

  function Decodable(c: Codec, members: seq<Bytes>): seq<Job> {
    if members == [] then []
    else (match Decode(c, members[0]) case None => [] case Some(j) => [j]) + Decodable(c, members[1..])
  }

  lemma {:induction false} DecodableSnoc(c: Codec, members: seq<Bytes>, m: Bytes)
    ensures Decodable(c, members + [m])
         == Decodable(c, members) + (match Decode(c, m) case None => [] case Some(j) => [j])
  {
    if members == [] {
      assert members + [m] == [m] && [m][1..] == [];
    } else {
      DecodableSnoc(c, members[1..], m);
      assert (members + [m])[1..] == members[1..] + [m];
    }
  }

  function Orphans(c: Codec, members: seq<Bytes>): seq<Job> {
    if members == [] then []
    else (match Decode(c, members[0]) case None => [] case Some(j) => [j.(state := Pending, raw := [])])
         + Orphans(c, members[1..])
  }

  lemma {:induction false} OrphansSnoc(c: Codec, members: seq<Bytes>, m: Bytes)
    ensures Orphans(c, members + [m])
         == Orphans(c, members) + (match Decode(c, m) case None => [] case Some(j) => [j.(state := Pending, raw := [])])
  {
    if members == [] {
      assert members + [m] == [m] && [m][1..] == [];
    } else {
      OrphansSnoc(c, members[1..], m);
      assert (members + [m])[1..] == members[1..] + [m];
    }
  }

  /** An orphan for every member that decodes, in order, pending and without its raw bytes, and else as it was. */
  lemma {:induction false} OrphansArePending(c: Codec, members: seq<Bytes>)
    ensures |Orphans(c, members)| == |Decodable(c, members)|
    ensures forall i :: 0 <= i < |Orphans(c, members)| ==>
      var o, j := Orphans(c, members)[i], Decodable(c, members)[i];
      o.state == Pending && o.raw == [] && o.(state := j.state, raw := j.raw) == j
    ensures forall m :: m in members && Decode(c, m).Some? ==> Decode(c, m).value in Decodable(c, members)
    ensures forall j :: j in Decodable(c, members) ==> exists m :: m in members && Decode(c, m) == Some(j)
  {
    hide Decode;
    if members == [] {
    } else {
      assert members == [members[0]] + members[1..];
      OrphansArePending(c, members[1..]);
    }
  }
}
