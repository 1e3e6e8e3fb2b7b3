/** The bodies of the processor's loops run on their own, as code over the broker object, and what one
    undisturbed pass of each does. */
module ProcessorLoops {
  import opened Sequences
  import opened MemoryBroker
  import opened Lifecycle

  // ---- a worker finishing a job

  /** The broker and the record after a worker has dealt with the handler's outcome. */
  function Finish(s: Store, j: Jid, r: Record, outcome: Outcome, now: int): (Store, Record) {
    match outcome
    case Succeeded =>
      (s.(processed := s.processed + 1, processing := RemoveFirst(s.processing, j)), r)
    case CircuitOpen =>
      var s' := Add(s, j, ToRetry(now + CIRCUIT_OPEN_WAIT));
      (s'.(failed := s.failed + 1, processing := RemoveFirst(s.processing, j)), r)
    case Failing =>
      var (r', to) := AfterFailure(r, now);
      (Add(s, j, to).(failed := s.failed + 1, processing := RemoveFirst(s.processing, j)), r')
  }

  method FinishJob(b: InMemoryBroker, j: Jid, r: Record, outcome: Outcome, now: int) returns (r': Record)
    modifies b
    ensures (b.View(), r') == Finish(old(b.View()), j, r, outcome, now)
  {
    r' := r;
    b.Record(outcome == Succeeded);
    if outcome == CircuitOpen {
      b.AddToRetry(j, now + CIRCUIT_OPEN_WAIT);
    } else if outcome == Failing {
      var changed := AfterFailure(r, now);
      r' := changed.0;
      if changed.1.ToRetry? {
        b.AddToRetry(j, changed.1.at);
      } else {
        b.AddToDead(j);
      }
    }
    b.Ack(j);
  }

  /** A worker left alone between the handler's return and its ack does what `FinishJob` does. */
  lemma UndisturbedWorker(s: State, a: Actor)
    requires a in s.actors && a.role.Worker? && s.actors[a].Recording? && s.actors[a].lease.jid in s.jobs
    ensures var p := s.actors[a];
      var s1 := Recorded(s, a);
      var s2 := if p.outcome == Succeeded then s1 else PlacedAway(s1, a);
      (Acked(s2, a).store, Acked(s2, a).jobs[p.lease.jid])
      == Finish(s.store, p.lease.jid, s.jobs[p.lease.jid], p.outcome, s.now)
  {
    hide RemoveFirst;
  }

  // ---- one poll of the retry loop

  /** The loop body over a batch: skip unknown queues, take the entry out, enqueue it or put it back. */
  function RetryPass(s: Store, rs: map<Jid, Record>, known: set<string>, ctxDone: bool, now: int, due: seq<Jid>)
    : (Store, map<Jid, Record>)
    requires forall j :: j in due ==> j in rs
    decreases |due|
  {
    if due == [] then (s, rs)
    else
      var j := due[0];
      var taken := s.(retry := RemoveFirst(s.retry, j));
      if rs[j].queue !in known then RetryPass(s, rs, known, ctxDone, now, due[1..])
      else if Accepts(taken, ctxDone)
      then RetryPass(Push(taken, rs[j].queue, j), rs, known, ctxDone, now, due[1..])
      else
        var (r, to) := AfterRefusal(rs[j], now);
        RetryPass(Add(taken, j, to), rs[j := r], known, ctxDone, now, due[1..])
  }

  method RetryPoll(b: InMemoryBroker, rs: map<Jid, Record>, known: set<string>, ctxDone: bool, now: int)
    returns (rs': map<Jid, Record>)
    requires forall e :: e in b.retry ==> e.jid in rs
    modifies b
    ensures forall j :: j in Jids(Due(old(b.retry), now, RETRY_BATCH)) ==> j in rs
    ensures (b.View(), rs') ==
      RetryPass(old(b.View()), rs, known, ctxDone, now, Jids(Due(old(b.retry), now, RETRY_BATCH)))
  {
    var due := b.GetRetryJobs(RETRY_BATCH, now);
    DueIsDue(b.retry, now, RETRY_BATCH);
    JidsOf(Due(b.retry, now, RETRY_BATCH));
    rs' := rs;
    for i := 0 to |due|
      invariant rs.Keys <= rs'.Keys && forall j :: j in due ==> j in rs
      invariant RetryPass(b.View(), rs', known, ctxDone, now, due[i..])
             == RetryPass(old(b.View()), rs, known, ctxDone, now, due)
    {
      var j := due[i];
      assert due[i..][0] == j && due[i..][1..] == due[i + 1..];
      if rs'[j].queue in known {
        b.RemoveFromRetry(j);
        var ok := b.Enqueue(ctxDone, rs'[j].queue, j);
        if !ok {
          var changed := AfterRefusal(rs'[j], now);
          rs' := rs'[j := changed.0];
          if changed.1.ToDead? {
            b.AddToDead(j);
          } else {
            b.AddToRetry(j, changed.1.at);
          }
        }
      }
    }
    assert due[|due|..] == [];
  }

  lemma {:induction false} JidsOf(s: seq<Timed>)
    ensures forall j :: j in Jids(s) <==> exists e :: e in s && e.jid == j
  {
    if s == [] {
    } else {
      JidsOf(s[1..]);
      assert s == [s[0]] + s[1..];
    }
  }

  /** What stays in the retry set: everything not due, not among the first `limit` due, or for a queue
      this processor does not serve (such an entry still uses up a place in the batch). */
  function Left(s: seq<Timed>, rs: map<Jid, Record>, known: set<string>, now: int, limit: int): seq<Timed>
    requires forall e :: e in s ==> e.jid in rs
  {
    if s == [] then []
    else if limit > 0 && s[0].at <= now
    then (if rs[s[0].jid].queue in known then [] else [s[0]]) + Left(s[1..], rs, known, now, limit - 1)
    else [s[0]] + Left(s[1..], rs, known, now, limit)
  }

  function ForQueue(js: seq<Jid>, rs: map<Jid, Record>, known: set<string>, q: string): seq<Jid>
    requires forall j :: j in js ==> j in rs
  {
    if js == [] then []
    else (if rs[js[0]].queue == q && q in known then [js[0]] else []) + ForQueue(js[1..], rs, known, q)
  }

  predicate Distinct(s: seq<Timed>) {
    forall i, k :: 0 <= i < k < |s| ==> s[i].jid != s[k].jid
  }

  function RemoveEach(s: seq<Timed>, rs: map<Jid, Record>, known: set<string>, js: seq<Jid>): seq<Timed>
    requires forall j :: j in js ==> j in rs
    decreases |js|
  {
    if js == [] then s
    else RemoveEach(if rs[js[0]].queue in known then RemoveFirst(s, js[0]) else s, rs, known, js[1..])
  }

  lemma {:induction false} RemoveEachSkips(
      e: Timed, s: seq<Timed>, rs: map<Jid, Record>, known: set<string>, js: seq<Jid>)
    requires (forall j :: j in js ==> j in rs) && e.jid !in js
    ensures RemoveEach([e] + s, rs, known, js) == [e] + RemoveEach(s, rs, known, js)
    decreases |js|
  {
    if js == [] {
    } else {
      assert ([e] + s)[1..] == s;
      RemoveEachSkips(e, if rs[js[0]].queue in known then RemoveFirst(s, js[0]) else s, rs, known, js[1..]);
    }
  }

  lemma AfterFirst(s: seq<Timed>, now: int, limit: int)
    requires s != [] && Distinct(s)
    ensures Distinct(s[1..])
    ensures s[0].jid !in Jids(Due(s[1..], now, limit))
    ensures Jids(Due(s, now, limit)) ==
      if limit > 0 && s[0].at <= now then [s[0].jid] + Jids(Due(s[1..], now, limit - 1))
      else Jids(Due(s[1..], now, limit))
  {
    var rest := s[1..];
    assert forall k :: 0 <= k < |rest| ==> rest[k].jid == s[k + 1].jid;
    DueIsDue(rest, now, limit);
    JidsOf(Due(rest, now, limit));
    if limit > 0 && s[0].at <= now {
      assert Due(s, now, limit)[1..] == Due(rest, now, limit - 1);
    } else if limit <= 0 {
      assert Due(s, now, limit) == [] && Due(rest, now, limit) == [];
    }
  }

  lemma {:induction false} RemoveEachIsLeft(
      s: seq<Timed>, rs: map<Jid, Record>, known: set<string>, now: int, limit: int)
    requires (forall e :: e in s ==> e.jid in rs) && Distinct(s)
    requires forall j :: j in Jids(Due(s, now, limit)) ==> j in rs
    ensures RemoveEach(s, rs, known, Jids(Due(s, now, limit))) == Left(s, rs, known, now, limit)
  {
    if s == [] {
    } else {
      var rest := s[1..];
      var taken := limit > 0 && s[0].at <= now;
      var limit' := if taken then limit - 1 else limit;
      var js := Jids(Due(rest, now, limit'));
      assert s == [s[0]] + rest;
      AfterFirst(s, now, limit);
      AfterFirst(s, now, limit');
      hide Due, Jids, Distinct;
      RemoveEachIsLeft(rest, rs, known, now, limit');
      RemoveEachSkips(s[0], rest, rs, known, js);
      if taken {
        assert ([s[0].jid] + js)[1..] == js;
      }
    }
  }

  /** With every re-enqueue accepted, a batch only moves jobs out of the retry set ... */
  lemma {:induction false} AcceptedPassTakes(
      s: Store, rs: map<Jid, Record>, known: set<string>, now: int, due: seq<Jid>)
    requires (forall j :: j in due ==> j in rs) && Accepts(s, false)
    ensures var (s', rs') := RetryPass(s, rs, known, false, now, due);
      && rs' == rs && s'.retry == RemoveEach(s.retry, rs, known, due)
      && s' == s.(retry := s'.retry, queues := s'.queues)
    decreases |due|
  {
    hide RemoveFirst;
    if due == [] {
    } else {
      var j := due[0];
      var taken := s.(retry := RemoveFirst(s.retry, j));
      if rs[j].queue in known {
        AcceptedPassTakes(Push(taken, rs[j].queue, j), rs, known, now, due[1..]);
      } else {
        AcceptedPassTakes(s, rs, known, now, due[1..]);
      }
    }
  }

  lemma PushThen(s: Store, own: string, j: Jid, q: string, later: seq<Jid>)
    ensures Waiting(Push(s, own, j), q) + later == Waiting(s, q) + ((if own == q then [j] else []) + later)
  {
    if own == q {
      assert Waiting(s, q) + [j] + later == Waiting(s, q) + ([j] + later);
    } else {
      assert [] + later == later;
    }
  }

  /** ... and to the end of their own queues. */
  lemma {:induction false} AcceptedPassPuts(
      s: Store, rs: map<Jid, Record>, known: set<string>, now: int, due: seq<Jid>, q: string)
    requires (forall j :: j in due ==> j in rs) && Accepts(s, false)
    ensures Waiting(RetryPass(s, rs, known, false, now, due).0, q) == Waiting(s, q) + ForQueue(due, rs, known, q)
    decreases |due|
  {
    if due == [] {
    } else {
      var j := due[0];
      var taken := s.(retry := RemoveFirst(s.retry, j));
      var later := ForQueue(due[1..], rs, known, q);
      assert Waiting(taken, q) == Waiting(s, q) && Accepts(Push(taken, rs[j].queue, j), false);
      PushThen(taken, rs[j].queue, j, q, later);
      assert [] + later == later;
      hide RemoveFirst, Push, Waiting;
      if rs[j].queue in known {
        AcceptedPassPuts(Push(taken, rs[j].queue, j), rs, known, now, due[1..], q);
      } else {
        AcceptedPassPuts(s, rs, known, now, due[1..], q);
      }
    }
  }

  /** One poll, JIDs distinct and re-enqueues accepted: exactly the first hundred due entries whose queue
      is known leave, in their order, each for its own queue; all else is untouched. */
  lemma RetryDrain(s: Store, rs: map<Jid, Record>, known: set<string>, now: int, q: string)
    requires (forall e :: e in s.retry ==> e.jid in rs) && Distinct(s.retry) && Accepts(s, false)
    requires forall j :: j in Jids(Due(s.retry, now, RETRY_BATCH)) ==> j in rs
    ensures var due := Jids(Due(s.retry, now, RETRY_BATCH));
      var (s', rs') := RetryPass(s, rs, known, false, now, due);
      && s'.retry == Left(s.retry, rs, known, now, RETRY_BATCH)
      && Waiting(s', q) == Waiting(s, q) + ForQueue(due, rs, known, q)
      && rs' == rs && s' == s.(retry := s'.retry, queues := s'.queues)
  {
    AcceptedPassTakes(s, rs, known, now, Jids(Due(s.retry, now, RETRY_BATCH)));
    AcceptedPassPuts(s, rs, known, now, Jids(Due(s.retry, now, RETRY_BATCH)), q);
    RemoveEachIsLeft(s.retry, rs, known, now, RETRY_BATCH);
  }

  /** How often a batch names job `k`, if its queue is served. */
  function ServedIn(due: seq<Jid>, rs: map<Jid, Record>, known: set<string>, k: Jid): nat
    requires forall j :: j in due ==> j in rs
  {
    if due == [] then 0
    else (if due[0] == k && rs[k].queue in known then 1 else 0) + ServedIn(due[1..], rs, known, k)
  }

  lemma {:induction false} ServedInSame(
      due: seq<Jid>, rs: map<Jid, Record>, rs': map<Jid, Record>, known: set<string>, k: Jid)
    requires forall j :: j in due ==> j in rs && j in rs' && rs'[j].queue == rs[j].queue
    ensures ServedIn(due, rs, known, k) == ServedIn(due, rs', known, k)
  {
    if due == [] {
    } else {
      ServedInSame(due[1..], rs, rs', known, k);
    }
  }

  lemma PutAway(s: seq<Timed>, dead: seq<Jid>, j: Jid, to: Destination, k: Jid)
    ensures Tally(RemoveFirst(s, j), k) + (if j == k then 1 else 0) >= Tally(s, k)
    ensures to.ToRetry? ==> Tally(RemoveFirst(s, j) + [Timed(j, to.at)], k) >= Tally(s, k)
    ensures Count(dead + [j], k) == Count(dead, k) + if j == k then 1 else 0
  {
    TallyRemoveFirst(s, j, k);
    CountConcat(dead, [j], k);
    if to.ToRetry? {
      TallyConcat(RemoveFirst(s, j), [Timed(j, to.at)], k);
    }
  }

  /** A poll whose re-enqueues are refused: no queue changes, no entry is lost, and a served job that is due
      is charged one attempt each time. */
  lemma {:induction false} RefusedPoll(
      s: Store, rs: map<Jid, Record>, known: set<string>, ctxDone: bool, now: int, due: seq<Jid>, k: Jid)
    requires (forall j :: j in due ==> j in rs) && (ctxDone || s.closed) && k in rs
    ensures var (s', rs') := RetryPass(s, rs, known, ctxDone, now, due);
      && s'.queues == s.queues && s'.processing == s.processing && k in rs'
      && Tally(s'.retry, k) + Count(s'.dead, k) >= Tally(s.retry, k) + Count(s.dead, k)
      && rs'[k].retryCount == rs[k].retryCount + ServedIn(due, rs, known, k)
      && rs'[k].queue == rs[k].queue && rs'[k].retry == rs[k].retry
    decreases |due|
  {
    if due == [] {
    } else {
      var j := due[0];
      var taken := s.(retry := RemoveFirst(s.retry, j));
      if rs[j].queue !in known {
        RefusedPoll(s, rs, known, ctxDone, now, due[1..], k);
      } else {
        var (r, to) := AfterRefusal(rs[j], now);
        PutAway(s.retry, s.dead, j, to, k);
        ServedInSame(due[1..], rs, rs[j := r], known, k);
        RefusedPoll(Add(taken, j, to), rs[j := r], known, ctxDone, now, due[1..], k);
        hide RemoveFirst, Tally, Count;
      }
    }
  }

  // ---- how many polls it takes

  function DueCount(s: seq<Timed>, now: int): nat {
    if s == [] then 0 else (if s[0].at <= now then 1 else 0) + DueCount(s[1..], now)
  }

  ghost predicate Listed(s: seq<Timed>, rs: map<Jid, Record>) {
    forall e :: e in s ==> e.jid in rs
  }

  /** A broker that takes every re-enqueue, without duplicates in its retry set. */
  ghost predicate Pollable(s: Store, rs: map<Jid, Record>) {
    Accepts(s, false) && Distinct(s.retry) && Listed(s.retry, rs)
  }

  lemma DistinctCons(e: Timed, s: seq<Timed>)
    ensures Distinct([e] + s) <==> Distinct(s) && forall x :: x in s ==> x.jid != e.jid
  {
    var t := [e] + s;
    assert forall i :: 0 <= i < |s| ==> t[i + 1] == s[i];
    if Distinct(t) {
      forall i, k | 0 <= i < k < |s|
        ensures s[i].jid != s[k].jid
      {
        assert t[i + 1] == s[i] && t[k + 1] == s[k];
      }
      forall i | 0 <= i < |s|
        ensures s[i].jid != e.jid
      {
        assert t[i + 1] == s[i] && t[0] == e;
      }
    }
  }

  lemma {:induction false} LeftDistinct(s: seq<Timed>, rs: map<Jid, Record>, known: set<string>, now: int, limit: int)
    requires Listed(s, rs) && Distinct(s)
    ensures forall e :: e in Left(s, rs, known, now, limit) ==> e in s
    ensures Distinct(Left(s, rs, known, now, limit))
  {
    if s == [] {
    } else {
      var limit' := if limit > 0 && s[0].at <= now then limit - 1 else limit;
      var rest := Left(s[1..], rs, known, now, limit');
      assert s == [s[0]] + s[1..];
      DistinctCons(s[0], s[1..]);
      hide Distinct;
      LeftDistinct(s[1..], rs, known, now, limit');
      DistinctCons(s[0], rest);
      assert [] + rest == rest;
    }
  }

  /** One poll of the loop at `now`. */
  ghost function Polled(s: Store, rs: map<Jid, Record>, known: set<string>, now: int): Store
    requires Pollable(s, rs)
  {
    DueIsDue(s.retry, now, RETRY_BATCH);
    JidsOf(Due(s.retry, now, RETRY_BATCH));
    RetryPass(s, rs, known, false, now, Jids(Due(s.retry, now, RETRY_BATCH))).0
  }

  lemma PollLeaves(s: Store, rs: map<Jid, Record>, known: set<string>, now: int)
    requires Pollable(s, rs)
    ensures Pollable(Polled(s, rs, known, now), rs)
    ensures Polled(s, rs, known, now).retry == Left(s.retry, rs, known, now, RETRY_BATCH)
  {
    DueIsDue(s.retry, now, RETRY_BATCH);
    JidsOf(Due(s.retry, now, RETRY_BATCH));
    RetryDrain(s, rs, known, now, "");
    LeftDistinct(s.retry, rs, known, now, RETRY_BATCH);
  }

  /** The broker after `polls` polls with nothing added or coming due in between. */
  ghost function AfterPolls(s: Store, rs: map<Jid, Record>, known: set<string>, now: int, polls: nat): Store
    requires Pollable(s, rs)
    decreases polls
  {
    if polls == 0 then s
    else
      PollLeaves(s, rs, known, now);
      AfterPolls(Polled(s, rs, known, now), rs, known, now, polls - 1)
  }

  /** What is due is for queues this processor serves. */
  ghost predicate DueKnown(s: seq<Timed>, rs: map<Jid, Record>, known: set<string>, now: int) {
    Listed(s, rs) && forall e :: e in s && e.at <= now ==> rs[e.jid].queue in known
  }

  lemma {:induction false} LeftCount(s: seq<Timed>, rs: map<Jid, Record>, known: set<string>, now: int, limit: nat)
    requires DueKnown(s, rs, known, now)
    ensures DueKnown(Left(s, rs, known, now, limit), rs, known, now)
    ensures DueCount(Left(s, rs, known, now, limit), now)
         == if DueCount(s, now) <= limit then 0 else DueCount(s, now) - limit
  {
    if s == [] {
    } else {
      assert s == [s[0]] + s[1..] && s[0] in s;
      if limit > 0 && s[0].at <= now {
        assert Left(s, rs, known, now, limit) == Left(s[1..], rs, known, now, limit - 1);
        LeftCount(s[1..], rs, known, now, limit - 1);
      } else {
        LeftCount(s[1..], rs, known, now, limit);
        assert Left(s, rs, known, now, limit)[1..] == Left(s[1..], rs, known, now, limit);
      }
    }
  }

  /** `d` due entries, all of served queues, are gone after `ceil(d / 100)` polls, and not before. */
  lemma {:induction false} DrainedInRounds(s: Store, rs: map<Jid, Record>, known: set<string>, now: int, polls: nat)
    requires Pollable(s, rs) && DueKnown(s.retry, rs, known, now)
    ensures DueCount(AfterPolls(s, rs, known, now, polls).retry, now) == 0
      <==> 100 * polls >= DueCount(s.retry, now)
    decreases polls
  {
    hide Polled, Pollable, DueCount, DueKnown;
    if polls == 0 {
    } else {
      PollLeaves(s, rs, known, now);
      LeftCount(s.retry, rs, known, now, RETRY_BATCH);
      DrainedInRounds(Polled(s, rs, known, now), rs, known, now, polls - 1);
    }
  }

  // ---- who waits for ever

  /** The due entries of served queues, and of queues this processor does not serve. */
  function Served(s: seq<Timed>, rs: map<Jid, Record>, known: set<string>, now: int): nat
    requires Listed(s, rs)
  {
    if s == [] then 0
    else (if s[0].at <= now && rs[s[0].jid].queue in known then 1 else 0) + Served(s[1..], rs, known, now)
  }

  function Unserved(s: seq<Timed>, rs: map<Jid, Record>, known: set<string>, now: int): nat
    requires Listed(s, rs)
  {
    if s == [] then 0
    else (if s[0].at <= now && rs[s[0].jid].queue !in known then 1 else 0) + Unserved(s[1..], rs, known, now)
  }

  lemma {:induction false} DueIsServedOrNot(s: seq<Timed>, rs: map<Jid, Record>, known: set<string>, now: int)
    requires Listed(s, rs)
    ensures DueCount(s, now) == Served(s, rs, known, now) + Unserved(s, rs, known, now)
  {
    if s == [] {
    } else {
      assert s == [s[0]] + s[1..];
      DueIsServedOrNot(s[1..], rs, known, now);
    }
  }

  /** A poll leaves the unserved entries where they are. If the batch does not reach past these entries, it
      takes at least as many served ones as unserved ones leave room for. */
  lemma {:induction false} LeftAhead(s: seq<Timed>, rs: map<Jid, Record>, known: set<string>, now: int, limit: nat)
    requires Listed(s, rs)
    ensures Listed(Left(s, rs, known, now, limit), rs)
    ensures var s' := Left(s, rs, known, now, limit);
      && Unserved(s', rs, known, now) == Unserved(s, rs, known, now)
      && Served(s', rs, known, now) <= Served(s, rs, known, now)
      && (DueCount(s, now) >= limit ==>
            Served(s', rs, known, now) + limit <= Served(s, rs, known, now) + Unserved(s, rs, known, now))
  {
    if s == [] {
    } else {
      assert s == [s[0]] + s[1..];
      var taken := limit > 0 && s[0].at <= now;
      var rest := Left(s[1..], rs, known, now, if taken then limit - 1 else limit);
      LeftAhead(s[1..], rs, known, now, if taken then limit - 1 else limit);
      assert ([s[0]] + rest)[1..] == rest;
      assert Left(s, rs, known, now, limit) == if taken && rs[s[0].jid].queue in known then rest else [s[0]] + rest;
    }
  }

  function RoomAfter(s: seq<Timed>, now: int, limit: nat): nat {
    if DueCount(s, now) <= limit then limit - DueCount(s, now) else 0
  }

  /** What the first entry leaves of the set, and of the room in the batch. */
  lemma LeftCons(e: Timed, s: seq<Timed>, rs: map<Jid, Record>, known: set<string>, now: int, limit: nat)
    requires e.jid in rs && Listed(s, rs)
    ensures Listed([e] + s, rs)
    ensures var taken := limit > 0 && e.at <= now;
      var limit' := if taken then limit - 1 else limit;
      && Left([e] + s, rs, known, now, limit)
         == (if taken && rs[e.jid].queue in known then [] else [e]) + Left(s, rs, known, now, limit')
      && RoomAfter([e] + s, now, limit) == RoomAfter(s, now, limit')
  {
    assert ([e] + s)[1..] == s;
  }

  lemma {:induction false} LeftConcat(
      a: seq<Timed>, b: seq<Timed>, rs: map<Jid, Record>, known: set<string>, now: int, limit: nat)
    requires Listed(a, rs) && Listed(b, rs)
    ensures Listed(a + b, rs)
    ensures Left(a + b, rs, known, now, limit)
         == Left(a, rs, known, now, limit) + Left(b, rs, known, now, RoomAfter(a, now, limit))
  {
    if a == [] {
      assert a + b == b && Left(a, rs, known, now, limit) == [];
    } else {
      var e, rest := a[0], a[1..];
      assert a == [e] + rest && a + b == [e] + (rest + b);
      var taken := limit > 0 && e.at <= now;
      var limit' := if taken then limit - 1 else limit;
      LeftConcat(rest, b, rs, known, now, limit');
      LeftCons(e, rest, rs, known, now, limit);
      LeftCons(e, rest + b, rs, known, now, limit);
      hide Left, RoomAfter, Listed;
      var kept := if taken && rs[e.jid].queue in known then [] else [e];
      var x, y := Left(rest, rs, known, now, limit'), Left(b, rs, known, now, RoomAfter(rest, now, limit'));
      assert kept + (x + y) == kept + x + y;
    }
  }

  /** A due entry of a served queue, with what lies before and behind it. */
  ghost predicate Waits(
      s: Store, rs: map<Jid, Record>, known: set<string>, now: int, ahead: seq<Timed>, e: Timed, behind: seq<Timed>)
  {
    && Pollable(s, rs) && s.retry == ahead + [e] + behind && Listed(ahead, rs) && Listed(behind, rs)
    && e.at <= now && e.jid in rs && rs[e.jid].queue in known
  }

  lemma OnlyOnce(ahead: seq<Timed>, e: Timed, behind: seq<Timed>)
    requires Distinct(ahead + [e] + behind)
    ensures e !in ahead && e !in behind
  {
    var s := ahead + [e] + behind;
    assert s[|ahead|] == e;
    assert forall i :: 0 <= i < |ahead| ==> s[i] == ahead[i];
    assert forall i :: 0 <= i < |behind| ==> s[|ahead| + 1 + i] == behind[i];
  }

  function Behind(
      ahead: seq<Timed>, behind: seq<Timed>, rs: map<Jid, Record>, known: set<string>, now: int): seq<Timed>
    requires Listed(behind, rs)
  {
    Left(behind, rs, known, now, RoomAfter(ahead, now, RETRY_BATCH) - 1)
  }

  lemma {:induction false} NoRoom(s: seq<Timed>, rs: map<Jid, Record>, known: set<string>, now: int, limit: int)
    requires Listed(s, rs) && limit <= 0
    ensures Left(s, rs, known, now, limit) == s
  {
    if s == [] {
    } else {
      assert s == [s[0]] + s[1..];
      NoRoom(s[1..], rs, known, now, limit);
    }
  }

  lemma LeftAround(
      ahead: seq<Timed>, e: Timed, behind: seq<Timed>, rs: map<Jid, Record>, known: set<string>, now: int)
    requires Listed(ahead, rs) && Listed(behind, rs) && e.at <= now && e.jid in rs && rs[e.jid].queue in known
    ensures Listed(ahead + [e] + behind, rs)
    ensures Left(ahead + [e] + behind, rs, known, now, RETRY_BATCH)
         == Left(ahead, rs, known, now, RETRY_BATCH)
            + (if DueCount(ahead, now) < RETRY_BATCH then [] else [e]) + Behind(ahead, behind, rs, known, now)
  {
    var limit := RoomAfter(ahead, now, RETRY_BATCH);
    assert ahead + [e] + behind == ahead + ([e] + behind);
    LeftCons(e, behind, rs, known, now, limit);
    LeftConcat(ahead, [e] + behind, rs, known, now, RETRY_BATCH);
    NoRoom(behind, rs, known, now, -1);
    NoRoom(behind, rs, known, now, 0);
    hide Left, DueCount, Listed;
    var first, middle := Left(ahead, rs, known, now, RETRY_BATCH), if limit > 0 then [] else [e];
    var last := Behind(ahead, behind, rs, known, now);
    assert Left([e] + behind, rs, known, now, limit) == middle + last;
    assert first + (middle + last) == first + middle + last;
  }

  /** One poll: the entry goes if fewer than a hundred due ones lie before it; else it stays where it was
      among what is left. */
  lemma OnePoll(
      s: Store, rs: map<Jid, Record>, known: set<string>, now: int, ahead: seq<Timed>, e: Timed, behind: seq<Timed>)
    returns (ahead': seq<Timed>, behind': seq<Timed>)
    requires Waits(s, rs, known, now, ahead, e, behind)
    ensures ahead' == Left(ahead, rs, known, now, RETRY_BATCH)
    ensures Pollable(Polled(s, rs, known, now), rs)
    ensures DueCount(ahead, now) < RETRY_BATCH ==> e !in Polled(s, rs, known, now).retry
    ensures DueCount(ahead, now) >= RETRY_BATCH ==>
      Waits(Polled(s, rs, known, now), rs, known, now, ahead', e, behind')
  {
    ahead' := Left(ahead, rs, known, now, RETRY_BATCH);
    behind' := Behind(ahead, behind, rs, known, now);
    PollLeaves(s, rs, known, now);
    LeftAround(ahead, e, behind, rs, known, now);
    LeftSubset(ahead, rs, known, now, RETRY_BATCH);
    LeftSubset(behind, rs, known, now, RoomAfter(ahead, now, RETRY_BATCH) - 1);
    OnlyOnce(ahead, e, behind);
    hide Polled, Left, Distinct, DueCount;
  }

  lemma {:induction false} LeftSubset(s: seq<Timed>, rs: map<Jid, Record>, known: set<string>, now: int, limit: int)
    requires Listed(s, rs)
    ensures forall e :: e in Left(s, rs, known, now, limit) ==> e in s
  {
    if s == [] {
    } else {
      assert s == [s[0]] + s[1..];
      LeftSubset(s[1..], rs, known, now, if limit > 0 && s[0].at <= now then limit - 1 else limit);
    }
  }

  lemma {:induction false} GoneStaysGone(
      s: Store, rs: map<Jid, Record>, known: set<string>, now: int, e: Timed, polls: nat)
    requires Pollable(s, rs) && e !in s.retry
    ensures e !in AfterPolls(s, rs, known, now, polls).retry
    decreases polls
  {
    if polls == 0 {
    } else {
      PollLeaves(s, rs, known, now);
      LeftSubset(s.retry, rs, known, now, RETRY_BATCH);
      hide Polled, Left, Pollable;
      GoneStaysGone(Polled(s, rs, known, now), rs, known, now, e, polls - 1);
    }
  }

  /** A hundred unserved entries ahead keep an entry in the set for ever; with `u` fewer than that, and `n`
      served ones ahead, it has gone once `polls * (100 - u)` exceeds `n`. */
  lemma {:induction false} HowLong(
      s: Store, rs: map<Jid, Record>, known: set<string>, now: int,
      ahead: seq<Timed>, e: Timed, behind: seq<Timed>, polls: nat)
    requires Waits(s, rs, known, now, ahead, e, behind)
    ensures Unserved(ahead, rs, known, now) >= RETRY_BATCH ==> e in AfterPolls(s, rs, known, now, polls).retry
    ensures var u := Unserved(ahead, rs, known, now);
      u < RETRY_BATCH && polls * (RETRY_BATCH - u) > Served(ahead, rs, known, now) ==>
        e !in AfterPolls(s, rs, known, now, polls).retry
    decreases polls
  {
    if polls == 0 {
    } else {
      var u, n := Unserved(ahead, rs, known, now), Served(ahead, rs, known, now);
      DueIsServedOrNot(ahead, rs, known, now);
      LeftAhead(ahead, rs, known, now, RETRY_BATCH);
      var ahead', behind' := OnePoll(s, rs, known, now, ahead, e, behind);
      hide Polled, Waits, Served, Unserved, Left, DueCount, Pollable;
      if DueCount(ahead, now) < RETRY_BATCH {
        GoneStaysGone(Polled(s, rs, known, now), rs, known, now, e, polls - 1);
      } else {
        HowLong(Polled(s, rs, known, now), rs, known, now, ahead', e, behind', polls - 1);
        assert (polls - 1) * (RETRY_BATCH - u) == polls * (RETRY_BATCH - u) - (RETRY_BATCH - u);
      }
    }
  }

  /** With nothing added or coming due: a due entry of a served queue stays through all polls if and only if
      at least a hundred due entries of unserved queues lie before it. */
  lemma StarvesIff(
      s: Store, rs: map<Jid, Record>, known: set<string>, now: int, ahead: seq<Timed>, e: Timed, behind: seq<Timed>)
    requires Waits(s, rs, known, now, ahead, e, behind)
    ensures (forall polls: nat :: e in AfterPolls(s, rs, known, now, polls).retry)
      <==> Unserved(ahead, rs, known, now) >= 100
  {
    hide AfterPolls;
    var n := Served(ahead, rs, known, now);
    forall polls: nat {
      HowLong(s, rs, known, now, ahead, e, behind, polls);
    }
    var u := Unserved(ahead, rs, known, now);
    if u < RETRY_BATCH {
      assert (n + 1) * (RETRY_BATCH - u) >= n + 1;
      assert e !in AfterPolls(s, rs, known, now, n + 1).retry;
    }
  }

  // ---- one round of the reaper

  function ReapPass(s: Store, rs: map<Jid, Record>, known: set<string>, ctxDone: bool, orphans: seq<Jid>): Store
    requires forall j :: j in orphans ==> j in rs
    decreases |orphans|
  {
    if orphans == [] then s
    else
      var j := orphans[0];
      if rs[j].queue in known && Accepts(s, ctxDone)
      then ReapPass(Push(s, rs[j].queue, j), rs, known, ctxDone, orphans[1..])
      else ReapPass(s, rs, known, ctxDone, orphans[1..])
  }

  method ReapRound(b: InMemoryBroker, rs: map<Jid, Record>, known: set<string>, ctxDone: bool, now: int)
    requires forall e :: e in b.processing ==> e.jid in rs
    modifies b
    ensures forall j :: j in Jids(Before(old(b.processing), now)) ==> j in rs
    ensures b.View() == ReapPass(old(b.View()).(processing := NotBefore(old(b.processing), now)),
                                 rs, known, ctxDone, Jids(Before(old(b.processing), now)))
  {
    ReapPartition(b.processing, now);
    JidsOf(Before(b.processing, now));
    var orphans := b.ReapOrphanedJobs(now);
    ghost var start := b.View();
    for i := 0 to |orphans|
      invariant forall j :: j in orphans ==> j in rs
      invariant ReapPass(b.View(), rs, known, ctxDone, orphans[i..]) == ReapPass(start, rs, known, ctxDone, orphans)
    {
      var j := orphans[i];
      assert orphans[i..][0] == j && orphans[i..][1..] == orphans[i + 1..];
      if rs[j].queue in known {
        var ok := b.Enqueue(ctxDone, rs[j].queue, j);
      }
    }
    assert orphans[|orphans|..] == [];
  }

  /** Reaping splits the processing set exactly: the expired entries go, the live ones stay. */
  lemma {:induction false} ReapPartition(s: seq<Timed>, now: int)
    ensures multiset(Before(s, now)) + multiset(NotBefore(s, now)) == multiset(s)
    ensures forall e :: e in Before(s, now) <==> e in s && e.at < now
    ensures forall e :: e in NotBefore(s, now) <==> e in s && e.at >= now
  {
    if s == [] {
    } else {
      ReapPartition(s[1..], now);
      assert s == [s[0]] + s[1..];
    }
  }

  /** The round puts back every orphan, in order and into its own queue, if and only if each orphan's
      queue is known and the broker accepts: otherwise some orphan is gone. */
  lemma {:induction false} ReapConservesIff(
      s: Store, rs: map<Jid, Record>, known: set<string>, ctxDone: bool, orphans: seq<Jid>)
    requires forall j :: j in orphans ==> j in rs
    ensures
      (forall q :: Waiting(ReapPass(s, rs, known, ctxDone, orphans), q) == Waiting(s, q) + OwnQueue(orphans, rs, q))
      <==> (forall j :: j in orphans ==> rs[j].queue in known && Accepts(s, ctxDone))
    decreases |orphans|
  {
    forall q {
      ReapWaiting(s, rs, known, ctxDone, orphans, q);
    }
    if j :| j in orphans && !(rs[j].queue in known && Accepts(s, ctxDone)) {
      ReapLoses(s, rs, known, ctxDone, orphans, j);
    } else {
      forall q {
        ReapKeeps(s, rs, known, ctxDone, orphans, q);
      }
    }
  }

  function OwnQueue(js: seq<Jid>, rs: map<Jid, Record>, q: string): seq<Jid>
    requires forall j :: j in js ==> j in rs
  {
    if js == [] then []
    else (if rs[js[0]].queue == q then [js[0]] else []) + OwnQueue(js[1..], rs, q)
  }

  function Reclaimed(
      js: seq<Jid>, rs: map<Jid, Record>, known: set<string>, accepts: bool, q: string): (r: seq<Jid>)
    requires forall j :: j in js ==> j in rs
    ensures |r| <= |OwnQueue(js, rs, q)|
  {
    if js == [] then []
    else (if rs[js[0]].queue == q && q in known && accepts then [js[0]] else [])
         + Reclaimed(js[1..], rs, known, accepts, q)
  }

  lemma {:induction false} ReapWaiting(
      s: Store, rs: map<Jid, Record>, known: set<string>, ctxDone: bool, orphans: seq<Jid>, q: string)
    requires forall j :: j in orphans ==> j in rs
    ensures Waiting(ReapPass(s, rs, known, ctxDone, orphans), q)
         == Waiting(s, q) + Reclaimed(orphans, rs, known, Accepts(s, ctxDone), q)
    decreases |orphans|
  {
    if orphans == [] {
    } else {
      var j := orphans[0];
      var later := Reclaimed(orphans[1..], rs, known, Accepts(s, ctxDone), q);
      PushThen(s, rs[j].queue, j, q, later);
      assert [] + later == later && Accepts(Push(s, rs[j].queue, j), ctxDone) == Accepts(s, ctxDone);
      hide Push, Waiting, Accepts;
      if rs[j].queue in known && Accepts(s, ctxDone) {
        ReapWaiting(Push(s, rs[j].queue, j), rs, known, ctxDone, orphans[1..], q);
      } else {
        ReapWaiting(s, rs, known, ctxDone, orphans[1..], q);
      }
    }
  }

  lemma {:induction false} ReapKeeps(
      s: Store, rs: map<Jid, Record>, known: set<string>, ctxDone: bool, orphans: seq<Jid>, q: string)
    requires forall j :: j in orphans ==> j in rs && rs[j].queue in known && Accepts(s, ctxDone)
    ensures Reclaimed(orphans, rs, known, Accepts(s, ctxDone), q) == OwnQueue(orphans, rs, q)
    decreases |orphans|
  {
    if orphans == [] {
    } else {
      ReapKeeps(s, rs, known, ctxDone, orphans[1..], q);
    }
  }

  lemma {:induction false} ReapLoses(
      s: Store, rs: map<Jid, Record>, known: set<string>, ctxDone: bool, orphans: seq<Jid>, j: Jid)
    requires forall k :: k in orphans ==> k in rs
    requires j in orphans && !(rs[j].queue in known && Accepts(s, ctxDone))
    ensures var q := rs[j].queue;
      |Reclaimed(orphans, rs, known, Accepts(s, ctxDone), q)| < |OwnQueue(orphans, rs, q)|
    decreases |orphans|
  {
    if orphans[0] != j {
      assert orphans == [orphans[0]] + orphans[1..];
      ReapLoses(s, rs, known, ctxDone, orphans[1..], j);
    }
  }
}
