/** The in-memory broker. `Store` is its contents as a value, the functions on it say what each call
    does, and the class carries the calls out step by step on its own fields. Every broker call holds
    one mutex, so each is atomic. Jobs are shared by pointer and matched by JID, so a pointer is
    represented by the JID it carries. */
module MemoryBroker {
  import opened Sequences
  import opened Payload

  type Jid = string

  /** A processing entry with its lease expiry, or a retry entry with its retry time. */
  datatype Timed = Timed(jid: Jid, at: int)

  datatype Store = Store(
    queues: map<string, seq<Jid>>,
    processing: seq<Timed>,
    retry: seq<Timed>,
    dead: seq<Jid>,
    processed: nat,
    failed: nat,
    closed: bool)

  const EMPTY := Store(map[], [], [], [], 0, 0, false)

  predicate IsEmpty(s: Store) {
    && s.queues == map[] && s.processing == [] && s.retry == [] && s.dead == []
    && s.processed == 0 && s.failed == 0 && !s.closed
  }

  function Waiting(s: Store, q: string): seq<Jid> {
    if q in s.queues then s.queues[q] else []
  }

  /** `Enqueue` looks at the context and at the broker's own `done` channel. */
  predicate Accepts(s: Store, ctxDone: bool) {
    !ctxDone && !s.closed
  }

  function Push(s: Store, q: string, j: Jid): Store {
    s.(queues := s.queues[q := Waiting(s, q) + [j]])
  }

  function Lease(s: Store, q: string, now: int): Store
    requires Waiting(s, q) != []
  {
    s.(queues := s.queues[q := Waiting(s, q)[1..]],
       processing := s.processing + [Timed(Waiting(s, q)[0], now + LEASE)])
  }

  /** How many entries carry JID `j`. */
  function Tally(s: seq<Timed>, j: Jid): nat {
    if s == [] then 0 else (if s[0].jid == j then 1 else 0) + Tally(s[1..], j)
  }

  /** Removal is by JID and takes the first match only; no match leaves the entries alone. */
  function RemoveFirst(s: seq<Timed>, j: Jid): seq<Timed> {
    if s == [] then []
    else if s[0].jid == j then s[1..]
    else [s[0]] + RemoveFirst(s[1..], j)
  }

  /** The entries whose time lies strictly before `now`, and the others, in their order. */
  function Before(s: seq<Timed>, now: int): seq<Timed> {
    if s == [] then []
    else (if s[0].at < now then [s[0]] else []) + Before(s[1..], now)
  }

  function NotBefore(s: seq<Timed>, now: int): seq<Timed> {
    if s == [] then []
    else (if s[0].at < now then [] else [s[0]]) + NotBefore(s[1..], now)
  }

  function Jids(s: seq<Timed>): seq<Jid> {
    if s == [] then [] else [s[0].jid] + Jids(s[1..])
  }

  /** The first `limit` entries that are due: an entry is due from its retry time on. */
  function Due(s: seq<Timed>, now: int, limit: int): seq<Timed> {
    if s == [] || limit <= 0 then []
    else if s[0].at <= now then [s[0]] + Due(s[1..], now, limit - 1)
    else Due(s[1..], now, limit)
  }

  // ---- how removal, reaping and reading change the number of entries of a JID

  lemma {:induction false} TallyConcat(a: seq<Timed>, b: seq<Timed>, j: Jid)
    ensures Tally(a + b, j) == Tally(a, j) + Tally(b, j)
  {
    if a == [] {
      assert a + b == b;
    } else {
      TallyConcat(a[1..], b, j);
      assert (a + b)[1..] == a[1..] + b;
    }
  }

  lemma {:induction false} TallyJids(s: seq<Timed>, j: Jid)
    ensures Count(Jids(s), j) == Tally(s, j)
  {
    if s == [] {
    } else {
      TallyJids(s[1..], j);
      assert Jids(s)[1..] == Jids(s[1..]);
    }
  }

  lemma {:induction false} TallyPositive(s: seq<Timed>, j: Jid)
    ensures Tally(s, j) > 0 <==> exists i :: 0 <= i < |s| && s[i].jid == j
  {
    if s == [] {
    } else {
      TallyPositive(s[1..], j);
      if i :| 0 <= i < |s| && s[i].jid == j && i > 0 {
        assert s[1..][i - 1].jid == j;
      }
      if i :| 0 <= i < |s[1..]| && s[1..][i].jid == j {
        assert s[i + 1].jid == j;
      }
    }
  }

  /** Taking out the first match lowers the count of that JID by one if there was one to take. */
  lemma {:induction false} TallyRemoveFirst(s: seq<Timed>, j: Jid, k: Jid)
    ensures Tally(RemoveFirst(s, j), k) == Tally(s, k) - (if k == j && Tally(s, j) > 0 then 1 else 0)
  {
    if s != [] && s[0].jid != j {
      TallyRemoveFirst(s[1..], j, k);
      assert RemoveFirst(s, j)[1..] == RemoveFirst(s[1..], j);
    }
  }

  /** Reaping splits the entries without losing or inventing any. */
  lemma {:induction false} TallyReap(s: seq<Timed>, now: int, j: Jid)
    ensures Tally(Before(s, now), j) + Tally(NotBefore(s, now), j) == Tally(s, j)
  {
    if s == [] {
    } else {
      TallyReap(s[1..], now, j);
      TallyConcat(if s[0].at < now then [s[0]] else [], Before(s[1..], now), j);
      TallyConcat(if s[0].at < now then [] else [s[0]], NotBefore(s[1..], now), j);
    }
  }

  lemma {:induction false} TallyDue(s: seq<Timed>, now: int, limit: int, j: Jid)
    ensures Tally(Due(s, now, limit), j) <= Tally(s, j)
  {
    if s != [] && limit > 0 {
      TallyDue(s[1..], now, limit - 1, j);
      TallyDue(s[1..], now, limit, j);
      assert s[0].at <= now ==> Due(s, now, limit)[1..] == Due(s[1..], now, limit - 1);
    }
  }

  lemma {:induction false} DueIsDue(s: seq<Timed>, now: int, limit: int)
    ensures forall e :: e in Due(s, now, limit) ==> e in s && e.at <= now
  {
    if s != [] && limit > 0 {
      DueIsDue(s[1..], now, limit - 1);
      DueIsDue(s[1..], now, limit);
      assert s == [s[0]] + s[1..];
    }
  }

  lemma {:induction false} RemoveFirstKeeps(s: seq<Timed>, j: Jid)
    ensures forall e :: e in RemoveFirst(s, j) ==> e in s
    ensures forall e :: e in s && e.jid != j ==> e in RemoveFirst(s, j)
  {
    if s == [] {
    } else {
      RemoveFirstKeeps(s[1..], j);
      assert s == [s[0]] + s[1..];
    }
  }

  // ---- the same functions from the far end, as the loops build them

  lemma {:induction false} RemoveFirstSplice(s: seq<Timed>, j: Jid, i: nat)
    requires i <= |s|
    requires forall k :: 0 <= k < i ==> s[k].jid != j
    ensures i == |s| ==> RemoveFirst(s, j) == s
    ensures i < |s| && s[i].jid == j ==> RemoveFirst(s, j) == s[..i] + s[i + 1..]
  {
    if i == 0 {
    } else {
      RemoveFirstSplice(s[1..], j, i - 1);
    }
  }

  lemma {:induction false} BeforeConcat(a: seq<Timed>, b: seq<Timed>, now: int)
    ensures Before(a + b, now) == Before(a, now) + Before(b, now)
  {
    if a == [] {
      assert a + b == b;
    } else {
      BeforeConcat(a[1..], b, now);
      assert (a + b)[1..] == a[1..] + b;
      var first := if a[0].at < now then [a[0]] else [];
      assert first + (Before(a[1..], now) + Before(b, now)) == first + Before(a[1..], now) + Before(b, now);
    }
  }

  lemma {:induction false} NotBeforeConcat(a: seq<Timed>, b: seq<Timed>, now: int)
    ensures NotBefore(a + b, now) == NotBefore(a, now) + NotBefore(b, now)
  {
    if a == [] {
      assert a + b == b;
    } else {
      NotBeforeConcat(a[1..], b, now);
      assert (a + b)[1..] == a[1..] + b;
      var first := if a[0].at < now then [] else [a[0]];
      assert first + (NotBefore(a[1..], now) + NotBefore(b, now)) == first + NotBefore(a[1..], now) + NotBefore(b, now);
    }
  }

  lemma {:induction false} JidsConcat(a: seq<Timed>, b: seq<Timed>)
    ensures Jids(a + b) == Jids(a) + Jids(b)
  {
    if a == [] {
      assert a + b == b;
    } else {
      JidsConcat(a[1..], b);
      assert (a + b)[1..] == a[1..] + b;
    }
  }

  /** One more entry goes to one side of the split. */
  lemma ReapSnoc(s: seq<Timed>, e: Timed, now: int)
    ensures NotBefore(s + [e], now) == NotBefore(s, now) + (if e.at < now then [] else [e])
    ensures Jids(Before(s + [e], now)) == Jids(Before(s, now)) + (if e.at < now then [e.jid] else [])
  {
    BeforeConcat(s, [e], now);
    NotBeforeConcat(s, [e], now);
    JidsConcat(Before(s, now), Before([e], now));
  }

  lemma {:induction false} DueSplit(a: seq<Timed>, b: seq<Timed>, now: int, limit: int)
    ensures Due(a + b, now, limit) == Due(a, now, limit) + Due(b, now, limit - |Due(a, now, limit)|)
  {
    if a == [] {
      assert a + b == b;
    } else {
      assert (a + b)[1..] == a[1..] + b;
      if limit > 0 {
        DueSplit(a[1..], b, now, if a[0].at <= now then limit - 1 else limit);
      }
    }
  }

  class InMemoryBroker {
    var queues: map<string, seq<Jid>>
    var processing: seq<Timed>
    var retry: seq<Timed>
    var dead: seq<Jid>
    var processed: nat
    var failed: nat
    var closed: bool

    ghost function View(): Store
      reads this
    {
      Store(queues, processing, retry, dead, processed, failed, closed)
    }

    constructor ()
      ensures View() == EMPTY
    {
      queues, processing, retry, dead := map[], [], [], [];
      processed, failed, closed := 0, 0, false;
    }

    method Enqueue(ctxDone: bool, q: string, j: Jid) returns (ok: bool)
      modifies this
      ensures ok <==> !ctxDone && !old(closed)
      ensures View() == if ok then Push(old(View()), q, j) else old(View())
    {
      if ctxDone || closed {
        return false;
      }
      var list := if q in queues then queues[q] else [];
      queues := queues[q := list + [j]];
      return true;
    }

    /** One pass of `Dequeue` over its queue list under the lock; the polling around it only waits.
        The first queue with a job gives up its oldest one. */
    method TryDequeue(names: seq<string>, now: int) returns (found: bool, j: Jid, q: string)
      modifies this
      ensures found <==> exists i :: 0 <= i < |names| && Waiting(old(View()), names[i]) != []
      ensures !found ==> View() == old(View())
      ensures found ==>
        exists i :: 0 <= i < |names| && names[i] == q
          && (forall k :: 0 <= k < i ==> Waiting(old(View()), names[k]) == [])
          && Waiting(old(View()), q) != [] && j == Waiting(old(View()), q)[0]
          && View() == Lease(old(View()), q, now)
    {
      found, j, q := false, "", "";
      for i := 0 to |names|
        invariant View() == old(View())
        invariant !found && forall k :: 0 <= k < i ==> Waiting(View(), names[k]) == []
      {
        if names[i] in queues && |queues[names[i]]| > 0 {
          found, q, j := true, names[i], queues[names[i]][0];
          queues := queues[q := queues[q][1..]];
          processing := processing + [Timed(j, now + LEASE)];
          return;
        }
      }
    }

    method Ack(j: Jid)
      modifies this
      ensures View() == old(View()).(processing := RemoveFirst(old(processing), j))
    {
      var i := 0;
      while i < |processing|
        invariant i <= |processing| && View() == old(View())
        invariant forall k :: 0 <= k < i ==> processing[k].jid != j
      {
        if processing[i].jid == j {
          RemoveFirstSplice(processing, j, i);
          processing := processing[..i] + processing[i + 1..];
          return;
        }
        i := i + 1;
      }
      RemoveFirstSplice(processing, j, i);
    }

    method ReapOrphanedJobs(now: int) returns (orphaned: seq<Jid>)
      modifies this
      ensures orphaned == Jids(Before(old(processing), now))
      ensures View() == old(View()).(processing := NotBefore(old(processing), now))
    {
      var remaining: seq<Timed> := [];
      orphaned := [];
      for i := 0 to |processing|
        invariant View() == old(View())
        invariant orphaned == Jids(Before(processing[..i], now))
        invariant remaining == NotBefore(processing[..i], now)
      {
        var e := processing[i];
        ReapSnoc(processing[..i], e, now);
        assert processing[..i + 1] == processing[..i] + [e];
        if e.at < now {
          orphaned := orphaned + [e.jid];
        } else {
          remaining := remaining + [e];
        }
      }
      assert processing[..|processing|] == processing;
      processing := remaining;
    }

    method AddToRetry(j: Jid, at: int)
      modifies this
      ensures View() == old(View()).(retry := old(retry) + [Timed(j, at)])
    {
      retry := retry + [Timed(j, at)];
    }

    method GetRetryJobs(limit: int, now: int) returns (out: seq<Jid>)
      ensures out == Jids(Due(retry, now, limit))
    {
      out := [];
      if limit <= 0 {
        return;
      }
      var i := 0;
      ghost var got: seq<Timed> := [];
      while i < |retry| && |out| < limit
        invariant i <= |retry|
        invariant got == Due(retry[..i], now, limit) && out == Jids(got) && |got| == |out| <= limit
      {
        DueSplit(retry[..i], [retry[i]], now, limit);
        assert retry[..i + 1] == retry[..i] + [retry[i]];
        assert Due([retry[i]][1..], now, limit - |got|) == [] && Due([retry[i]][1..], now, limit - |got| - 1) == [];
        if !(retry[i].at > now) {
          JidsConcat(got, [retry[i]]);
          got := got + [retry[i]];
          out := out + [retry[i].jid];
        }
        i := i + 1;
      }
      DueSplit(retry[..i], retry[i..], now, limit);
      assert retry == retry[..i] + retry[i..];
      assert Due(retry, now, limit) == got;
    }

    method RemoveFromRetry(j: Jid)
      modifies this
      ensures View() == old(View()).(retry := RemoveFirst(old(retry), j))
    {
      var i := 0;
      while i < |retry|
        invariant i <= |retry| && View() == old(View())
        invariant forall k :: 0 <= k < i ==> retry[k].jid != j
      {
        if retry[i].jid == j {
          RemoveFirstSplice(retry, j, i);
          retry := retry[..i] + retry[i + 1..];
          return;
        }
        i := i + 1;
      }
      RemoveFirstSplice(retry, j, i);
    }

    method AddToDead(j: Jid)
      modifies this
      ensures View() == old(View()).(dead := old(dead) + [j])
    {
      dead := dead + [j];
    }

    method Record(success: bool)
      modifies this
      ensures View() == if success then old(View()).(processed := old(processed) + 1)
                        else old(View()).(failed := old(failed) + 1)
    {
      if success {
        processed := processed + 1;
      } else {
        failed := failed + 1;
      }
    }

    /** Only names under the `queue:` prefix may be deleted. */
    method DeleteKey(key: string) returns (ok: bool)
      modifies this
      ensures ok <==> "queue:" <= key
      ensures View() == if ok then old(View()).(queues := old(queues) - {key[6..]}) else old(View())
    {
      if !("queue:" <= key) {
        return false;
      }
      queues := queues - {key[6..]};
      return true;
    }

    method Close()
      modifies this
      ensures View() == old(View()).(closed := true)
    {
      closed := true;
    }
  }
}
