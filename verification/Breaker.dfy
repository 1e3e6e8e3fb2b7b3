/** The circuit breaker of one job class: a timed three-state machine. */
module Breaker {
  import opened Payload

  datatype Mode = Closed | Open | HalfOpen

  datatype ClassState = ClassState(mode: Mode, failures: seq<int>, openUntil: int, probeUsed: bool)

  datatype Params = Params(threshold: int, window: int, reset: int)

  /** `NewCircuitBreaker` replaces non-positive settings by the defaults. */
  function Configure(p: Params): (r: Params)
    ensures Proper(r) && (Proper(p) ==> r == p)
    ensures r.threshold == p.threshold || (p.threshold <= 0 && r.threshold == 5)
    ensures r.window == p.window || (p.window <= 0 && r.window == 60 * SECOND)
    ensures r.reset == p.reset || (p.reset <= 0 && r.reset == 60 * SECOND)
  {
    Params(if p.threshold <= 0 then 5 else p.threshold,
           if p.window <= 0 then 60 * SECOND else p.window,
           if p.reset <= 0 then 60 * SECOND else p.reset)
  }

  predicate Proper(p: Params) {
    p.threshold > 0 && p.window > 0 && p.reset > 0
  }

  function Fresh(): ClassState {
    ClassState(Closed, [], 0, false)
  }

  /** `trimWindow`: drop entries from the front while they lie before the cutoff. */
  function Trim(times: seq<int>, cutoff: int): seq<int> {
    if times != [] && times[0] < cutoff then Trim(times[1..], cutoff) else times
  }

  function Allowed(s: ClassState, now: int): (ClassState, bool) {
    if s.mode == Open && now < s.openUntil then (s, false)
    else
      var s' := if s.mode == Open then s.(mode := HalfOpen, probeUsed := false) else s;
      if s'.mode == HalfOpen then (s'.(probeUsed := true), !s'.probeUsed) else (s', true)
  }

  function Success(s: ClassState): ClassState {
    match s.mode
    case HalfOpen => s.(mode := Closed, failures := [], probeUsed := false)
    case Closed => s.(failures := [])
    case Open => s
  }

  /** The length cap on the failure list. */
  function Cap(p: Params, times: seq<int>): seq<int>
    requires Proper(p)
  {
    if |times| > p.threshold * 2 then times[|times| - p.threshold..] else times
  }

  function Failure(p: Params, s: ClassState, now: int): ClassState
    requires Proper(p)
  {
    match s.mode
    case HalfOpen => s.(mode := Open, openUntil := now + p.reset, probeUsed := false)
    case Open => s
    case Closed =>
      var times := Cap(p, Trim(s.failures, now - p.window) + [now]);
      if |times| >= p.threshold then s.(mode := Open, openUntil := now + p.reset, failures := [])
      else s.(failures := times)
  }

  datatype Op = AllowOp | SuccessOp | FailureOp

  datatype Event = Event(op: Op, at: int)

  function Next(p: Params, s: ClassState, e: Event): ClassState
    requires Proper(p)
  {
    match e.op
    case AllowOp => Allowed(s, e.at).0
    case SuccessOp => Success(s)
    case FailureOp => Failure(p, s, e.at)
  }

  /** The state of a class after its events, oldest first. */
  function After(p: Params, log: seq<Event>): ClassState
    requires Proper(p)
  {
    if log == [] then Fresh() else Next(p, After(p, log[..|log| - 1]), log[|log| - 1])
  }

  predicate InTime(log: seq<Event>) {
    forall i, k :: 0 <= i < k < |log| ==> log[i].at <= log[k].at
  }

  // ---- the failure list is short, so the cap is dead code

  predicate Lean(p: Params, s: ClassState) {
    if s.mode == Closed then |s.failures| < p.threshold else s.failures == []
  }

  lemma {:induction false} TrimShortens(times: seq<int>, cutoff: int)
    ensures |Trim(times, cutoff)| <= |times|
  {
    if times != [] && times[0] < cutoff {
      TrimShortens(times[1..], cutoff);
    }
  }

  lemma LeanStep(p: Params, s: ClassState, e: Event)
    requires Proper(p) && Lean(p, s)
    ensures Lean(p, Next(p, s, e))
    ensures s.mode == Closed ==>
      Cap(p, Trim(s.failures, e.at - p.window) + [e.at]) == Trim(s.failures, e.at - p.window) + [e.at]
  {
    TrimShortens(s.failures, e.at - p.window);
  }

  /** In every run, whatever the clock does: a closed class holds fewer failures than the threshold, an
      open or half-open one none, and the length cap changes nothing. */
  lemma {:induction false} CapNeverFires(p: Params, log: seq<Event>, now: int)
    requires Proper(p)
    ensures Lean(p, After(p, log))
    ensures var s := After(p, log); s.mode == Closed ==>
      Cap(p, Trim(s.failures, now - p.window) + [now]) == Trim(s.failures, now - p.window) + [now]
  {
    if log == [] {
    } else {
      CapNeverFires(p, log[..|log| - 1], now);
      LeanStep(p, After(p, log[..|log| - 1]), log[|log| - 1]);
    }
    LeanStep(p, After(p, log), Event(FailureOp, now));
  }

  // ---- timing and probes

  /** The number of calls that an event sequence admits, starting from `s`. */
  function Admitted(p: Params, s: ClassState, events: seq<Event>): nat
    requires Proper(p)
    decreases |events|
  {
    if events == [] then 0
    else (if events[0].op == AllowOp && Allowed(s, events[0].at).1 then 1 else 0)
         + Admitted(p, Next(p, s, events[0]), events[1..])
  }

  function Run(p: Params, s: ClassState, events: seq<Event>): ClassState
    requires Proper(p)
    decreases |events|
  {
    if events == [] then s else Run(p, Next(p, s, events[0]), events[1..])
  }

  lemma {:induction false} AdmittedConcat(p: Params, s: ClassState, a: seq<Event>, b: seq<Event>)
    requires Proper(p)
    ensures Admitted(p, s, a + b) == Admitted(p, s, a) + Admitted(p, Run(p, s, a), b)
    decreases |a|
  {
    if a == [] {
      assert a + b == b;
    } else {
      assert (a + b)[1..] == a[1..] + b;
      AdmittedConcat(p, Next(p, s, a[0]), a[1..], b);
    }
  }

  /** While open and before `openUntil`, nothing is admitted and nothing changes, whatever outcomes of
      jobs still in flight are recorded meanwhile. */
  lemma {:induction false} OpenAdmitsNothing(p: Params, s: ClassState, events: seq<Event>)
    requires Proper(p) && s.mode == Open
    requires forall i :: 0 <= i < |events| && events[i].op == AllowOp ==> events[i].at < s.openUntil
    ensures Admitted(p, s, events) == 0 && Run(p, s, events) == s
    decreases |events|
  {
    if events == [] {
    } else {
      OpenAdmitsNothing(p, s, events[1..]);
    }
  }

  /** After the probe, nothing more until an outcome is recorded. */
  lemma {:induction false} ProbeUsedAdmitsNothing(p: Params, s: ClassState, events: seq<Event>)
    requires Proper(p) && s.mode == HalfOpen && s.probeUsed
    requires forall i :: 0 <= i < |events| ==> events[i].op == AllowOp
    ensures Admitted(p, s, events) == 0 && Run(p, s, events) == s
    decreases |events|
  {
    if events == [] {
    } else {
      ProbeUsedAdmitsNothing(p, s, events[1..]);
    }
  }

  /** From the moment a class opens: no admission before `openUntil`; the first call from then on is
      admitted; and it is the only one until an outcome is recorded. */
  lemma EpisodeAdmitsOne(p: Params, s: ClassState, waiting: seq<Event>, at: int, later: seq<Event>)
    requires Proper(p) && s.mode == Open && at >= s.openUntil
    requires forall i :: 0 <= i < |waiting| && waiting[i].op == AllowOp ==> waiting[i].at < s.openUntil
    requires forall i :: 0 <= i < |later| ==> later[i].op == AllowOp
    ensures Admitted(p, s, waiting) == 0
    ensures Admitted(p, s, waiting + [Event(AllowOp, at)]) == 1
    ensures Admitted(p, s, waiting + [Event(AllowOp, at)] + later) == 1
  {
    var probe := [Event(AllowOp, at)];
    assert probe[1..] == [];
    OpenAdmitsNothing(p, s, waiting);
    AdmittedConcat(p, s, waiting, probe);
    RunConcat(p, s, waiting, probe);
    AdmittedConcat(p, s, waiting + probe, later);
    ProbeUsedAdmitsNothing(p, Run(p, s, waiting + probe), later);
  }

  lemma {:induction false} RunConcat(p: Params, s: ClassState, a: seq<Event>, b: seq<Event>)
    requires Proper(p)
    ensures Run(p, s, a + b) == Run(p, Run(p, s, a), b)
    decreases |a|
  {
    if a == [] {
      assert a + b == b;
    } else {
      assert (a + b)[1..] == a[1..] + b;
      RunConcat(p, Next(p, s, a[0]), a[1..], b);
    }
  }

  /** From the failure that opens a class until `reset` has passed nothing is admitted, whatever else
      is called meanwhile. */
  lemma OpeningDeniesForReset(p: Params, s: ClassState, now: int, events: seq<Event>)
    requires Proper(p) && s.mode != Open && Failure(p, s, now).mode == Open
    requires forall i :: 0 <= i < |events| && events[i].op == AllowOp ==> events[i].at < now + p.reset
    ensures Admitted(p, Failure(p, s, now), events) == 0
  {
    OpenAdmitsNothing(p, Failure(p, s, now), events);
  }
}

/** The breaker against a specification that keeps the whole log and trims nothing. */
module BreakerLog {
  import opened Breaker

  /** `since` is the position in the log after the last reset. */
  datatype Status = IsClosed(since: nat) | IsOpen(until: int) | IsHalfOpen(probeUsed: bool)

  /** The failures among the events that happened at `cutoff` or later. */
  function Recent(events: seq<Event>, cutoff: int): nat {
    if events == [] then 0
    else (if events[0].op == FailureOp && events[0].at >= cutoff then 1 else 0) + Recent(events[1..], cutoff)
  }

  /** The status after the last event of a log, given the status before it. */
  function Judge(p: Params, log: seq<Event>, before: Status): (r: Status)
    requires log != [] && (before.IsClosed? ==> before.since < |log|)
    ensures r.IsClosed? ==> r.since <= |log|
  {
    var e := log[|log| - 1];
    match before
    case IsClosed(since) =>
      (match e.op
       case AllowOp => before
       case SuccessOp => IsClosed(|log|)
       case FailureOp =>
         if Recent(log[since..], e.at - p.window) >= p.threshold then IsOpen(e.at + p.reset) else before)
    case IsOpen(until) => if e.op == AllowOp && e.at >= until then IsHalfOpen(true) else before
    case IsHalfOpen(used) =>
      (match e.op
       case AllowOp => IsHalfOpen(true)
       case SuccessOp => IsClosed(|log|)
       case FailureOp => IsOpen(e.at + p.reset))
  }

  function StatusOf(p: Params, log: seq<Event>): (r: Status)
    ensures r.IsClosed? ==> r.since <= |log|
  {
    if log == [] then IsClosed(0) else Judge(p, log, StatusOf(p, log[..|log| - 1]))
  }

  lemma StatusSnoc(p: Params, log: seq<Event>, e: Event)
    ensures StatusOf(p, log + [e]) == Judge(p, log + [e], StatusOf(p, log))
  {
    assert (log + [e])[..|log + [e]| - 1] == log;
  }

  function FailureTimes(events: seq<Event>): seq<int> {
    if events == [] then []
    else (if events[0].op == FailureOp then [events[0].at] else []) + FailureTimes(events[1..])
  }

  function Within(times: seq<int>, cutoff: int): seq<int> {
    if times == [] then [] else (if times[0] >= cutoff then [times[0]] else []) + Within(times[1..], cutoff)
  }

  predicate Sorted(times: seq<int>) {
    forall i, k :: 0 <= i < k < |times| ==> times[i] <= times[k]
  }

  /** On sorted times, dropping the old prefix is filtering. */
  lemma {:induction false} TrimIsWithin(times: seq<int>, cutoff: int)
    requires Sorted(times)
    ensures Trim(times, cutoff) == Within(times, cutoff)
  {
    if times == [] {
    } else {
      if times[0] >= cutoff {
        WithinAll(times, cutoff);
      } else {
        TrimIsWithin(times[1..], cutoff);
        assert Within(times, cutoff) == Within(times[1..], cutoff);
      }
    }
  }

  lemma {:induction false} WithinAll(times: seq<int>, cutoff: int)
    requires forall i :: 0 <= i < |times| ==> times[i] >= cutoff
    ensures Within(times, cutoff) == times
  {
    if times == [] {
    } else {
      WithinAll(times[1..], cutoff);
    }
  }

  lemma {:induction false} WithinTwice(times: seq<int>, earlier: int, cutoff: int)
    requires earlier <= cutoff
    ensures Within(Within(times, earlier), cutoff) == Within(times, cutoff)
  {
    if times == [] {
    } else {
      WithinTwice(times[1..], earlier, cutoff);
      if times[0] >= earlier {
        assert Within(times, earlier)[1..] == Within(times[1..], earlier);
      } else {
        assert Within(times, earlier) == Within(times[1..], earlier);
        assert Within(times, cutoff) == Within(times[1..], cutoff);
      }
    }
  }

  lemma {:induction false} WithinSnoc(times: seq<int>, t: int, cutoff: int)
    requires t >= cutoff
    ensures Within(times + [t], cutoff) == Within(times, cutoff) + [t]
  {
    if times == [] {
      assert times + [t] == [t];
      assert [t][1..] == [];
    } else {
      WithinSnoc(times[1..], t, cutoff);
      assert (times + [t])[1..] == times[1..] + [t];
    }
  }

  lemma SortedCons(t: int, times: seq<int>)
    requires Sorted(times) && forall u :: u in times ==> t <= u
    ensures Sorted([t] + times)
  {
    var all := [t] + times;
    assert forall i :: 0 < i < |all| ==> all[i] == times[i - 1] && all[i] in times;
  }

  lemma {:induction false} WithinSorted(times: seq<int>, cutoff: int)
    requires Sorted(times)
    ensures Sorted(Within(times, cutoff)) && forall t :: t in Within(times, cutoff) ==> t in times
  {
    if times == [] {
    } else {
      var rest := Within(times[1..], cutoff);
      WithinSorted(times[1..], cutoff);
      assert times == [times[0]] + times[1..];
      assert forall i :: 0 <= i < |times[1..]| ==> times[0] <= times[1..][i];
      hide Sorted;
      SortedCons(times[0], rest);
      assert [] + rest == rest;
    }
  }

  lemma {:induction false} TimesSnoc(events: seq<Event>, e: Event)
    ensures FailureTimes(events + [e]) == FailureTimes(events) + (if e.op == FailureOp then [e.at] else [])
  {
    if events == [] {
      assert events + [e] == [e];
      assert [e][1..] == [];
    } else {
      TimesSnoc(events[1..], e);
      assert (events + [e])[1..] == events[1..] + [e];
    }
  }

  lemma {:induction false} TimesSorted(events: seq<Event>)
    requires InTime(events)
    ensures Sorted(FailureTimes(events))
    ensures forall t :: t in FailureTimes(events) ==> exists i :: 0 <= i < |events| && events[i].at == t
  {
    if events == [] {
    } else {
      TimesSorted(events[1..]);
      assert forall t :: t in FailureTimes(events[1..]) ==> events[0].at <= t by {
        assert forall i :: 0 <= i < |events[1..]| ==> events[0].at <= events[1..][i].at;
      }
      SortedCons(events[0].at, FailureTimes(events[1..]));
      assert [] + FailureTimes(events[1..]) == FailureTimes(events[1..]);
      forall t | t in FailureTimes(events)
        ensures exists i :: 0 <= i < |events| && events[i].at == t
      {
        if t in FailureTimes(events[1..]) {
          var i :| 0 <= i < |events[1..]| && events[1..][i].at == t;
          assert events[i + 1].at == t && events[0].at <= t;
        } else {
          assert events[0].at == t;
        }
      }
    }
  }

  lemma {:induction false} RecentIsLength(events: seq<Event>, cutoff: int)
    ensures Recent(events, cutoff) == |Within(FailureTimes(events), cutoff)|
  {
    if events == [] {
    } else {
      RecentIsLength(events[1..], cutoff);
      if events[0].op == FailureOp {
        assert FailureTimes(events)[1..] == FailureTimes(events[1..]);
      } else {
        assert FailureTimes(events) == FailureTimes(events[1..]);
      }
    }
  }

  /** The times kept by a closed class are those of the log since the reset, seen through some window
      that no later window reaches behind. */
  ghost predicate Seen(p: Params, times: seq<int>, events: seq<Event>, latest: int) {
    exists cutoff :: cutoff <= latest - p.window && times == Within(FailureTimes(events), cutoff)
  }

  ghost predicate Agrees(p: Params, s: ClassState, log: seq<Event>, status: Status)
    requires status.IsClosed? ==> status.since <= |log|
  {
    match status
    case IsClosed(since) =>
      && s.mode == Closed
      && if since == |log| then s.failures == [] else Seen(p, s.failures, log[since..], log[|log| - 1].at)
    case IsOpen(until) => s.mode == Open && s.openUntil == until
    case IsHalfOpen(used) => s.mode == HalfOpen && s.probeUsed == used
  }

  ghost predicate Refines(p: Params, s: ClassState, log: seq<Event>) {
    Agrees(p, s, log, StatusOf(p, log))
  }

  /** One more failure seen by a closed class. */
  lemma FailureSeen(p: Params, times: seq<int>, events: seq<Event>, latest: int, now: int)
    requires Proper(p) && InTime(events + [Event(FailureOp, now)])
    requires events == [] ==> times == []
    requires events != [] ==> latest == events[|events| - 1].at && Seen(p, times, events, latest)
    ensures Trim(times, now - p.window) + [now]
         == Within(FailureTimes(events + [Event(FailureOp, now)]), now - p.window)
    ensures Seen(p, Trim(times, now - p.window) + [now], events + [Event(FailureOp, now)], now)
  {
    var all := events + [Event(FailureOp, now)];
    var cutoff := now - p.window;
    TimesSnoc(events, Event(FailureOp, now));
    WithinSnoc(FailureTimes(events), now, cutoff);
    if events != [] {
      assert all[|events| - 1].at == latest && all[|events|].at == now;
      var earlier :| earlier <= latest - p.window && times == Within(FailureTimes(events), earlier);
      assert InTime(events) by {
        assert forall i :: 0 <= i < |events| ==> events[i] == all[i];
      }
      TimesSorted(events);
      WithinSorted(FailureTimes(events), earlier);
      TrimIsWithin(times, cutoff);
      WithinTwice(FailureTimes(events), earlier, cutoff);
    }
    assert cutoff <= now - p.window && Trim(times, cutoff) + [now] == Within(FailureTimes(all), cutoff);
  }

  lemma InTimeSuffix(log: seq<Event>, since: nat)
    requires InTime(log) && since <= |log|
    ensures InTime(log[since..])
  {
  }

  lemma FailureAgrees(p: Params, s: ClassState, log: seq<Event>, since: nat, now: int)
    requires Proper(p) && s.mode == Closed && since < |log| && log[|log| - 1] == Event(FailureOp, now)
    requires var times := Trim(s.failures, now - p.window) + [now];
      && Cap(p, times) == times && Seen(p, times, log[since..], now)
      && |times| == Recent(log[since..], now - p.window)
    ensures Agrees(p, Failure(p, s, now), log, Judge(p, log, IsClosed(since)))
  {
    hide Trim, Cap, Seen, Recent;
  }

  /** What a closed class that agrees with its log has kept. */
  lemma ClosedKeeps(p: Params, s: ClassState, log: seq<Event>, since: nat)
    requires since <= |log| && Agrees(p, s, log, IsClosed(since))
    ensures s.mode == Closed && (since == |log| ==> s.failures == [])
    ensures since < |log| ==> Seen(p, s.failures, log[since..], log[|log| - 1].at)
  {
    hide Seen;
  }

  lemma CapIdle(p: Params, s: ClassState, now: int)
    requires Proper(p) && s.mode == Closed && Lean(p, s)
    ensures var times := Trim(s.failures, now - p.window) + [now]; Cap(p, times) == times
  {
    TrimShortens(s.failures, now - p.window);
  }

  /** One more failure of a closed class, counted in the events since its reset. */
  lemma FailureCounts(p: Params, s: ClassState, events: seq<Event>, latest: int, now: int)
    requires Proper(p) && InTime(events + [Event(FailureOp, now)]) && s.mode == Closed && Lean(p, s)
    requires events == [] ==> s.failures == []
    requires events != [] ==> latest == events[|events| - 1].at && Seen(p, s.failures, events, latest)
    ensures var times := Trim(s.failures, now - p.window) + [now];
      var all := events + [Event(FailureOp, now)];
      && Cap(p, times) == times && Seen(p, times, all, now) && |times| == Recent(all, now - p.window)
  {
    CapIdle(p, s, now);
    hide Trim, Recent, Within, FailureTimes, Seen, InTime, Cap, Lean;
    FailureSeen(p, s.failures, events, latest, now);
    RecentIsLength(events + [Event(FailureOp, now)], now - p.window);
  }

  lemma SinceReset(log: seq<Event>, e: Event, since: nat)
    requires since <= |log|
    ensures (log + [e])[since..] == log[since..] + [e]
    ensures log[since..] == [] <==> since == |log|
    ensures since < |log| ==> log[since..][|log| - since - 1] == log[|log| - 1]
  {
  }

  lemma FailureRefines(p: Params, s: ClassState, log: seq<Event>, now: int)
    requires Proper(p) && InTime(log + [Event(FailureOp, now)]) && Refines(p, s, log) && Lean(p, s)
    requires StatusOf(p, log).IsClosed?
    ensures Refines(p, Failure(p, s, now), log + [Event(FailureOp, now)])
  {
    var e := Event(FailureOp, now);
    var since := StatusOf(p, log).since;
    hide StatusOf, Agrees, Trim, Recent, Seen, InTime, Cap, Failure, Judge, Lean;
    StatusSnoc(p, log, e);
    ClosedKeeps(p, s, log, since);
    InTimeSuffix(log + [e], since);
    SinceReset(log, e, since);
    FailureCounts(p, s, log[since..], if log == [] then 0 else log[|log| - 1].at, now);
    FailureAgrees(p, s, log + [e], since, now);
  }

  lemma AllowKeepsSeen(p: Params, times: seq<int>, events: seq<Event>, latest: int, now: int)
    requires events == [] ==> times == []
    requires events != [] ==> latest <= now && Seen(p, times, events, latest)
    ensures Seen(p, times, events + [Event(AllowOp, now)], now)
  {
    var events' := events + [Event(AllowOp, now)];
    TimesSnoc(events, Event(AllowOp, now));
    assert FailureTimes(events') == FailureTimes(events);
    if events != [] {
      var cutoff :| cutoff <= latest - p.window && times == Within(FailureTimes(events), cutoff);
      assert cutoff <= now - p.window && times == Within(FailureTimes(events'), cutoff);
    } else {
      assert now - p.window <= now - p.window && times == Within(FailureTimes(events'), now - p.window);
    }
  }

  lemma QuietRefines(p: Params, s: ClassState, log: seq<Event>, e: Event)
    requires Proper(p) && InTime(log + [e]) && Refines(p, s, log)
    requires !(StatusOf(p, log).IsClosed? && e.op == FailureOp)
    ensures Refines(p, Next(p, s, e), log + [e])
  {
    var log' := log + [e];
    var status := StatusOf(p, log);
    StatusSnoc(p, log, e);
    hide StatusOf, Trim, Recent, Within, FailureTimes, Seen;
    if status.IsClosed? && e.op == AllowOp {
      var events := log[status.since..];
      assert log'[status.since..] == events + [e];
      if events != [] {
        assert log'[|log| - 1].at <= log'[|log|].at;
      }
      AllowKeepsSeen(p, s.failures, events, if log == [] then 0 else log[|log| - 1].at, e.at);
    }
  }

  /** In every run whose clock does not go back, the breaker is in the state the untrimmed log dictates:
      in particular a closed class opens at a failure exactly when the failures since its last reset that
      lie within the window ending now reach the threshold. */
  lemma {:induction false} BreakerRefinesLog(p: Params, log: seq<Event>)
    requires Proper(p) && InTime(log)
    ensures Refines(p, After(p, log), log)
  {
    if log == [] {
    } else {
      var init, e := log[..|log| - 1], log[|log| - 1];
      assert log == init + [e];
      BreakerRefinesLog(p, init);
      CapNeverFires(p, init, e.at);
      if StatusOf(p, init).IsClosed? && e.op == FailureOp {
        FailureRefines(p, After(p, init), init, e.at);
      } else {
        QuietRefines(p, After(p, init), init, e);
      }
    }
  }

  /** The decision the log dictates for a call at `now`. */
  predicate Admits(status: Status, now: int) {
    match status
    case IsClosed(_) => true
    case IsOpen(until) => now >= until
    case IsHalfOpen(used) => !used
  }

  lemma DecisionFollowsLog(p: Params, log: seq<Event>, now: int)
    requires Proper(p) && InTime(log)
    ensures Allowed(After(p, log), now).1 <==> Admits(StatusOf(p, log), now)
  {
    BreakerRefinesLog(p, log);
  }
}
