/** First in, first out: the abstract queue both brokers refine. */
module Fifo {

  datatype Event<T> = Added(x: T) | Removed(x: T) | Cleared | Nothing

  /** `after` is reached from `before` by the events: added at one end, removed from the other, or all
      thrown away. */
  predicate Behaves<T(==)>(before: seq<T>, events: seq<Event<T>>, after: seq<T>)
    decreases |events|
  {
    if events == [] then after == before
    else
      match events[0]
      case Added(x) => Behaves(before + [x], events[1..], after)
      case Removed(x) => before != [] && before[0] == x && Behaves(before[1..], events[1..], after)
      case Cleared => Behaves([], events[1..], after)
      case Nothing => Behaves(before, events[1..], after)
  }

  /** No clearing in between throws anything away. */
  predicate NothingLost<T(==)>(before: seq<T>, events: seq<Event<T>>)
    decreases |events|
  {
    if events == [] then true
    else
      match events[0]
      case Added(x) => NothingLost(before + [x], events[1..])
      case Removed(x) => before != [] && NothingLost(before[1..], events[1..])
      case Cleared => before == [] && NothingLost(before, events[1..])
      case Nothing => NothingLost(before, events[1..])
  }

  lemma {:induction false} BehavesThen<T>(
      before: seq<T>, e: Event<T>, mid: seq<T>, events: seq<Event<T>>, after: seq<T>)
    requires Behaves(before, [e], mid) && Behaves(mid, events, after)
    ensures Behaves(before, [e] + events, after)
  {
    assert [e][1..] == [] && ([e] + events)[1..] == events;
  }

  lemma NothingLostThen<T>(before: seq<T>, e: Event<T>, mid: seq<T>, events: seq<Event<T>>)
    requires Behaves(before, [e], mid)
    ensures NothingLost(before, [e] + events) <==> (e.Cleared? ==> before == []) && NothingLost(mid, events)
  {
    assert [e][1..] == [] && ([e] + events)[1..] == events;
  }

  function AddedIn<T>(events: seq<Event<T>>): seq<T> {
    if events == [] then []
    else (if events[0].Added? then [events[0].x] else []) + AddedIn(events[1..])
  }

  function RemovedIn<T>(events: seq<Event<T>>): seq<T> {
    if events == [] then []
    else (if events[0].Removed? then [events[0].x] else []) + RemovedIn(events[1..])
  }

  lemma Regroup<T>(a: seq<T>, b: seq<T>, d: seq<T>)
    ensures a + b + d == a + (b + d)
  {
  }

  /** What has come out, followed by what is still in, is what was there and what has gone in. */
  lemma {:induction false} KeptInOrder<T>(before: seq<T>, events: seq<Event<T>>, after: seq<T>)
    requires Behaves(before, events, after) && NothingLost(before, events)
    ensures RemovedIn(events) + after == before + AddedIn(events)
    decreases |events|
  {
    if events == [] {
      assert AddedIn(events) == [] && RemovedIn(events) == [];
    } else {
      var rest := events[1..];
      var added, removed := AddedIn(rest), RemovedIn(rest);
      match events[0]
      case Added(x) =>
        KeptInOrder(before + [x], rest, after);
        assert AddedIn(events) == [x] + added && RemovedIn(events) == removed;
        hide AddedIn, RemovedIn, Behaves, NothingLost;
        Regroup(before, [x], added);
      case Removed(x) =>
        KeptInOrder(before[1..], rest, after);
        assert AddedIn(events) == added && RemovedIn(events) == [x] + removed;
        assert before == [x] + before[1..];
        hide AddedIn, RemovedIn, Behaves, NothingLost;
        Regroup([x], removed, after);
        Regroup([x], before[1..], added);
      case _ =>
        KeptInOrder(before, rest, after);
        assert AddedIn(events) == added && RemovedIn(events) == removed;
    }
  }

  /** Nothing is ever invented, and what a clearing throws away is missing at the end. */
  lemma {:induction false} LostIsMissing<T>(before: seq<T>, events: seq<Event<T>>, after: seq<T>)
    requires Behaves(before, events, after)
    ensures |RemovedIn(events)| + |after| <= |before| + |AddedIn(events)|
    ensures !NothingLost(before, events) ==> |RemovedIn(events)| + |after| < |before| + |AddedIn(events)|
    decreases |events|
  {
    if events == [] {
    } else {
      match events[0]
      case Added(x) => LostIsMissing(before + [x], events[1..], after);
      case Removed(x) => LostIsMissing(before[1..], events[1..], after);
      case Cleared => LostIsMissing([], events[1..], after);
      case Nothing => LostIsMissing(before, events[1..], after);
    }
  }

  /** First in, first out over a whole run, if and only if nothing is thrown away in it. */
  lemma FirstInFirstOut<T>(before: seq<T>, events: seq<Event<T>>, after: seq<T>)
    requires Behaves(before, events, after)
    ensures RemovedIn(events) + after == before + AddedIn(events) <==> NothingLost(before, events)
  {
    LostIsMissing(before, events, after);
    if NothingLost(before, events) {
      KeptInOrder(before, events, after);
    } else {
      assert |RemovedIn(events) + after| < |before + AddedIn(events)|;
    }
  }
}

/** Whole runs of calls on the in-memory broker, by whoever makes them. */
module MemoryRuns {
  import opened Fifo
  import opened MemoryBroker
  import opened Options
  import opened Payload

  datatype Call =
    | EnqueueCall(queue: string, jid: Jid, ctxDone: bool)
    | DequeueCall(names: seq<string>, now: int)
    | AckCall(jid: Jid)
    | ReapCall(now: int)
    | AddToRetryCall(jid: Jid, at: int)
    | RemoveFromRetryCall(jid: Jid)
    | AddToDeadCall(jid: Jid)
    | DeleteCall(key: string)
    | RecordCall(success: bool)
    | CloseCall

  /** The first queue of the list that has a job. */
  function Chosen(s: Store, names: seq<string>): Option<string> {
    if names == [] then None
    else if Waiting(s, names[0]) != [] then Some(names[0])
    else Chosen(s, names[1..])
  }

  lemma {:induction false} ChosenWaits(s: Store, names: seq<string>)
    ensures Chosen(s, names).Some? ==> Waiting(s, Chosen(s, names).value) != []
  {
    if names != [] && Waiting(s, names[0]) == [] {
      ChosenWaits(s, names[1..]);
    }
  }

  function Do(s: Store, c: Call): Store {
    match c
    case EnqueueCall(q, j, ctxDone) => if Accepts(s, ctxDone) then Push(s, q, j) else s
    case DequeueCall(names, now) =>
      ChosenWaits(s, names);
      if Chosen(s, names).Some? then Lease(s, Chosen(s, names).value, now) else s
    case AckCall(j) => s.(processing := RemoveFirst(s.processing, j))
    case ReapCall(now) => s.(processing := NotBefore(s.processing, now))
    case AddToRetryCall(j, at) => s.(retry := s.retry + [Timed(j, at)])
    case RemoveFromRetryCall(j) => s.(retry := RemoveFirst(s.retry, j))
    case AddToDeadCall(j) => s.(dead := s.dead + [j])
    case DeleteCall(key) => if "queue:" <= key then s.(queues := s.queues - {key[6..]}) else s
    case RecordCall(success) =>
      if success then s.(processed := s.processed + 1) else s.(failed := s.failed + 1)
    case CloseCall => s.(closed := true)
  }

  function After(s: Store, calls: seq<Call>): Store
    decreases |calls|
  {
    if calls == [] then s else After(Do(s, calls[0]), calls[1..])
  }

  /** What a call does to queue `q`, as its caller sees it. */
  function EventOf(s: Store, c: Call, q: string): Event<Jid> {
    match c
    case EnqueueCall(q', j, ctxDone) => if q' == q && Accepts(s, ctxDone) then Added(j) else Nothing
    case DequeueCall(names, _) =>
      ChosenWaits(s, names);
      if Chosen(s, names) == Some(q) then Removed(Waiting(s, q)[0]) else Nothing
    case DeleteCall(_) => if Deletes(c, q) then Cleared else Nothing
    case _ => Nothing
  }

  predicate Deletes(c: Call, q: string) {
    c.DeleteCall? && "queue:" <= c.key && c.key[6..] == q
  }

  /** The queue is never deleted while there are jobs in it. */
  ghost predicate DeletedOnlyEmpty(s: Store, calls: seq<Call>, q: string)
    decreases |calls|
  {
    calls == [] ||
    ((Deletes(calls[0], q) ==> Waiting(s, q) == []) && DeletedOnlyEmpty(Do(s, calls[0]), calls[1..], q))
  }

  function EventsOf(s: Store, calls: seq<Call>, q: string): seq<Event<Jid>>
    decreases |calls|
  {
    if calls == [] then [] else [EventOf(s, calls[0], q)] + EventsOf(Do(s, calls[0]), calls[1..], q)
  }

  lemma CallOnQueue(s: Store, c: Call, q: string)
    ensures Behaves(Waiting(s, q), [EventOf(s, c, q)], Waiting(Do(s, c), q))
  {
    if c.DequeueCall? {
      ChosenWaits(s, c.names);
    }
    assert [EventOf(s, c, q)][1..] == [];
  }

  lemma {:induction false} QueueBehaves(s: Store, calls: seq<Call>, q: string)
    ensures Behaves(Waiting(s, q), EventsOf(s, calls, q), Waiting(After(s, calls), q))
    decreases |calls|
  {
    if calls == [] {
    } else {
      QueueBehaves(Do(s, calls[0]), calls[1..], q);
      CallOnQueue(s, calls[0], q);
      var events := EventsOf(Do(s, calls[0]), calls[1..], q);
      BehavesThen(Waiting(s, q), EventOf(s, calls[0], q), Waiting(Do(s, calls[0]), q), events,
                  Waiting(After(s, calls), q));
    }
  }

  lemma {:induction false} NothingLostIff(s: Store, calls: seq<Call>, q: string)
    ensures NothingLost(Waiting(s, q), EventsOf(s, calls, q)) <==> DeletedOnlyEmpty(s, calls, q)
    decreases |calls|
  {
    if calls == [] {
    } else {
      var s', rest := Do(s, calls[0]), EventsOf(Do(s, calls[0]), calls[1..], q);
      NothingLostIff(s', calls[1..], q);
      CallOnQueue(s, calls[0], q);
      assert EventsOf(s, calls, q)[1..] == rest;
      NothingLostThen(Waiting(s, q), EventOf(s, calls[0], q), Waiting(s', q), rest);
      hide Do, Waiting;
    }
  }

  /** For every queue and every run of calls: the dequeued jobs followed by the current contents are the
      enqueued jobs, in order, if and only if the queue was never deleted with jobs in it. */
  lemma MemoryQueueIsFifo(s: Store, calls: seq<Call>, q: string)
    requires Waiting(s, q) == []
    ensures RemovedIn(EventsOf(s, calls, q)) + Waiting(After(s, calls), q) == AddedIn(EventsOf(s, calls, q))
      <==> DeletedOnlyEmpty(s, calls, q)
  {
    QueueBehaves(s, calls, q);
    NothingLostIff(s, calls, q);
    FirstInFirstOut(Waiting(s, q), EventsOf(s, calls, q), Waiting(After(s, calls), q));
    assert [] + AddedIn(EventsOf(s, calls, q)) == AddedIn(EventsOf(s, calls, q));
  }

  /** A closed broker takes in nothing more, whatever is called, and stays closed. */
  lemma {:induction false} ClosedAddsNothing(s: Store, calls: seq<Call>, q: string)
    requires s.closed
    ensures AddedIn(EventsOf(s, calls, q)) == [] && After(s, calls).closed
    ensures |Waiting(After(s, calls), q)| <= |Waiting(s, q)|
    decreases |calls|
  {
    if calls == [] {
    } else {
      ClosedCall(s, calls[0], q);
      hide Do, EventOf;
      ClosedAddsNothing(Do(s, calls[0]), calls[1..], q);
      assert EventsOf(s, calls, q)[1..] == EventsOf(Do(s, calls[0]), calls[1..], q);
    }
  }

  lemma ClosedCall(s: Store, c: Call, q: string)
    requires s.closed
    ensures Do(s, c).closed && !EventOf(s, c, q).Added? && |Waiting(Do(s, c), q)| <= |Waiting(s, q)|
  {
    if c.DequeueCall? {
      ChosenWaits(s, c.names);
    }
  }

  /** So after a close nothing is added to any queue. */
  lemma NothingAfterClose(s: Store, calls: seq<Call>, q: string)
    ensures AddedIn(EventsOf(Do(s, CloseCall), calls, q)) == []
  {
    ClosedAddsNothing(Do(s, CloseCall), calls, q);
  }

  // ---- leases

  /** The entry a call adds to the processing set. */
  function LeaseMade(s: Store, c: Call): Option<Timed> {
    match c
    case DequeueCall(names, now) =>
      ChosenWaits(s, names);
      if Chosen(s, names).Some? then Some(Timed(Waiting(s, Chosen(s, names).value)[0], now + LEASE)) else None
    case _ => None
  }

  lemma LeaseStep(s: Store, c: Call, e: Timed)
    requires e in Do(s, c).processing
    ensures e in s.processing || LeaseMade(s, c) == Some(e)
  {
    match c
    case AckCall(j) => RemoveFirstKeeps(s.processing, j);
    case ReapCall(now) => NotBeforeKeeps(s.processing, now);
    case _ =>
  }

  lemma {:induction false} NotBeforeKeeps(s: seq<Timed>, now: int)
    ensures forall e :: e in NotBefore(s, now) ==> e in s
  {
    if s == [] {
    } else {
      NotBeforeKeeps(s[1..], now);
      assert s == [s[0]] + s[1..];
    }
  }

  /** Every processing entry goes back to one dequeue of that job. */
  lemma {:induction false} LeaseHasDequeue(s: Store, calls: seq<Call>, e: Timed) returns (i: nat)
    requires e in After(s, calls).processing && e !in s.processing
    ensures i < |calls| && LeaseMade(After(s, calls[..i]), calls[i]) == Some(e)
    decreases |calls|
  {
    var s1 := Do(s, calls[0]);
    if e in s1.processing {
      LeaseStep(s, calls[0], e);
      i := 0;
    } else {
      var k := LeaseHasDequeue(s1, calls[1..], e);
      i := k + 1;
      assert calls[..i][1..] == calls[1..][..k];
    }
  }

  lemma {:induction false} ExpiredIs(s: seq<Timed>, now: int, e: Timed)
    requires e in Before(s, now)
    ensures e in s && e.at < now
  {
    assert s == [s[0]] + s[1..];
    if e in Before(s[1..], now) {
      ExpiredIs(s[1..], now, e);
    }
  }

  /** The reaper never reclaims a job within five minutes of the dequeue that leased it. */
  lemma LeaseSafety(s: Store, calls: seq<Call>, now: int, e: Timed) returns (i: nat)
    requires s.processing == [] && e in Before(After(s, calls).processing, now)
    ensures i < |calls| && calls[i].DequeueCall? && LeaseMade(After(s, calls[..i]), calls[i]) == Some(e)
    ensures now > calls[i].now + 300 * 1_000_000_000
  {
    ExpiredIs(After(s, calls).processing, now, e);
    i := LeaseHasDequeue(s, calls, e);
  }

  // ---- the object carries out whole runs

  lemma {:induction false} ChosenIsFirst(s: Store, names: seq<string>, i: nat)
    requires i < |names| && Waiting(s, names[i]) != [] && forall k :: 0 <= k < i ==> Waiting(s, names[k]) == []
    ensures Chosen(s, names) == Some(names[i])
  {
    if i == 0 {
    } else {
      assert names[1..][i - 1] == names[i] && forall k :: 0 <= k < i - 1 ==> names[1..][k] == names[k + 1];
      ChosenIsFirst(s, names[1..], i - 1);
    }
  }

  lemma {:induction false} NoneChosen(s: Store, names: seq<string>)
    requires forall i :: 0 <= i < |names| ==> Waiting(s, names[i]) == []
    ensures Chosen(s, names) == None
  {
    if names == [] {
    } else {
      assert forall i :: 0 <= i < |names[1..]| ==> names[1..][i] == names[i + 1];
      NoneChosen(s, names[1..]);
    }
  }

  /** Every call on the object does to its contents what it does in a run. */
  method Perform(b: InMemoryBroker, c: Call)
    modifies b
    ensures b.View() == Do(old(b.View()), c)
  {
    match c
    case EnqueueCall(q, j, ctxDone) => var ok := b.Enqueue(ctxDone, q, j);
    case DequeueCall(names, now) =>
      ghost var before := b.View();
      var found, j, q := b.TryDequeue(names, now);
      if found {
        ghost var i: nat :| i < |names| && names[i] == q && Waiting(before, q) != []
          && forall k :: 0 <= k < i ==> Waiting(before, names[k]) == [];
        ChosenIsFirst(before, names, i);
      } else {
        NoneChosen(before, names);
      }
    case AckCall(j) => b.Ack(j);
    case ReapCall(now) => var orphaned := b.ReapOrphanedJobs(now);
    case AddToRetryCall(j, at) => b.AddToRetry(j, at);
    case RemoveFromRetryCall(j) => b.RemoveFromRetry(j);
    case AddToDeadCall(j) => b.AddToDead(j);
    case DeleteCall(key) => var ok := b.DeleteKey(key);
    case RecordCall(success) => b.Record(success);
    case CloseCall => b.Close();
  }

  method PerformAll(b: InMemoryBroker, calls: seq<Call>)
    modifies b
    ensures b.View() == After(old(b.View()), calls)
  {
    for i := 0 to |calls|
      invariant After(b.View(), calls[i..]) == After(old(b.View()), calls)
    {
      assert calls[i..][0] == calls[i] && calls[i..][1..] == calls[i + 1..];
      Perform(b, calls[i]);
    }
    assert calls[|calls|..] == [];
  }
}
