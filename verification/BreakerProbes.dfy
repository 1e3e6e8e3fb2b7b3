/** Calls of one job class with their identities: which of them are in flight, and which of those are
    probes. */
module BreakerProbes {
  import opened Breaker

  /** `flying` are the admitted calls without an outcome, `probes` those of them admitted half-open, and
      `current` the last of these. */
  datatype Traffic = Traffic(now: int, breaker: ClassState, flying: set<nat>, probes: set<nat>, current: nat)

  datatype Step = Call(id: nat, at: int) | Outcome(id: nat, success: bool, at: int)

  function Start(now: int): Traffic {
    Traffic(now, Fresh(), {}, {}, 0)
  }

  predicate Enabled(s: Traffic, t: Step) {
    t.at >= s.now && (t.id in s.flying <==> t.Outcome?)
  }

  function Apply(p: Params, s: Traffic, t: Step): Traffic
    requires Proper(p)
  {
    match t
    case Call(id, at) =>
      var (b, admitted) := Allowed(s.breaker, at);
      if !admitted then s.(now := at, breaker := b)
      else if b.mode == HalfOpen then Traffic(at, b, s.flying + {id}, s.probes + {id}, id)
      else s.(now := at, breaker := b, flying := s.flying + {id})
    case Outcome(id, success, at) =>
      s.(now := at, breaker := if success then Success(s.breaker) else Failure(p, s.breaker, at),
         flying := s.flying - {id}, probes := s.probes - {id})
  }

  ghost predicate Valid(p: Params, s: Traffic, run: seq<Step>)
    requires Proper(p)
    decreases |run|
  {
    run == [] || (Enabled(s, run[0]) && Valid(p, Apply(p, s, run[0]), run[1..]))
  }

  ghost function Final(p: Params, s: Traffic, run: seq<Step>): Traffic
    requires Proper(p)
    decreases |run|
  {
    if run == [] then s else Final(p, Apply(p, s, run[0]), run[1..])
  }

  /** An outcome recorded while the class is half-open that is not the probe's own. */
  predicate Stale(s: Traffic, t: Step) {
    t.Outcome? && s.breaker.mode == HalfOpen && t.id != s.current
  }

  ghost predicate NoStale(p: Params, s: Traffic, run: seq<Step>)
    requires Proper(p)
    decreases |run|
  {
    run == [] || (!Stale(s, run[0]) && NoStale(p, Apply(p, s, run[0]), run[1..]))
  }

  /** Half-open with exactly the current probe in flight, or with none at all. */
  predicate OneProbe(p: Params, s: Traffic) {
    && Lean(p, s.breaker) && s.probes <= s.flying
    && if s.breaker.mode == HalfOpen then s.breaker.probeUsed && s.probes == {s.current} else s.probes == {}
  }

  lemma OneProbeStep(p: Params, s: Traffic, t: Step)
    requires Proper(p) && Enabled(s, t) && OneProbe(p, s) && !Stale(s, t)
    ensures OneProbe(p, Apply(p, s, t))
  {
    LeanStep(p, s.breaker, Event(if t.Call? then AllowOp else if t.success then SuccessOp else FailureOp, t.at));
    hide Trim, Cap;
  }

  lemma {:induction false} OneProbeRun(p: Params, s: Traffic, run: seq<Step>)
    requires Proper(p) && Valid(p, s, run) && NoStale(p, s, run) && OneProbe(p, s)
    ensures OneProbe(p, Final(p, s, run))
    decreases |run|
  {
    if run == [] {
    } else {
      OneProbeStep(p, s, run[0]);
      hide Apply, Enabled, Stale, OneProbe;
      OneProbeRun(p, Apply(p, s, run[0]), run[1..]);
    }
  }

  // ---- after a stale outcome a second probe can join the first

  lemma Then(p: Params, s: Traffic, t: Step, rest: seq<Step>) returns (run: seq<Step>)
    requires Proper(p) && Enabled(s, t) && !Stale(s, t)
    requires Valid(p, Apply(p, s, t), rest) && NoStale(p, Apply(p, s, t), rest)
    ensures run == [t] + rest && Valid(p, s, run) && NoStale(p, s, run)
    ensures Final(p, s, run) == Final(p, Apply(p, s, t), rest)
  {
    hide Apply, Enabled, Stale;
    run := [t] + rest;
    assert run[1..] == rest;
  }

  lemma {:induction false} Concat(p: Params, s: Traffic, a: seq<Step>, b: seq<Step>)
    requires Proper(p) && Valid(p, s, a) && Valid(p, Final(p, s, a), b)
    ensures Valid(p, s, a + b) && Final(p, s, a + b) == Final(p, Final(p, s, a), b)
    decreases |a|
  {
    hide Apply, Enabled;
    if a == [] {
      assert a + b == b;
    } else {
      assert (a + b)[1..] == a[1..] + b;
      Concat(p, Apply(p, s, a[0]), a[1..], b);
    }
  }

  lemma {:induction false} NoStaleConcat(p: Params, s: Traffic, a: seq<Step>, b: seq<Step>)
    requires Proper(p) && NoStale(p, s, a) && NoStale(p, Final(p, s, a), b)
    ensures NoStale(p, s, a + b)
    decreases |a|
  {
    hide Apply, Stale;
    if a == [] {
      assert a + b == b;
    } else {
      assert (a + b)[1..] == a[1..] + b;
      NoStaleConcat(p, Apply(p, s, a[0]), a[1..], b);
    }
  }

  lemma {:induction false} Unused(ids: set<nat>) returns (id: nat)
    ensures forall k :: k in ids ==> k < id
    decreases |ids|
  {
    id := 0;
    if k :| k in ids {
      var other := Unused(ids - {k});
      id := if other > k then other else k + 1;
      assert forall n :: n in ids ==> n == k || n in ids - {k};
    }
  }

  predicate AllAt(times: seq<int>, at: int) {
    forall i :: 0 <= i < |times| ==> times[i] == at
  }

  lemma TrimNothing(times: seq<int>, at: int, cutoff: int)
    requires AllAt(times, at) && cutoff <= at
    ensures Trim(times, cutoff) == times
  {
  }

  ghost predicate Silent(run: seq<Step>, probe: nat) {
    forall i :: 0 <= i < |run| ==> !(run[i].Outcome? && run[i].id == probe)
  }

  /** One call that fails at once. */
  lemma FailOnce(p: Params, s: Traffic, id: nat)
    requires Proper(p) && s.breaker.mode == Closed && id !in s.flying && id !in s.probes
    requires Lean(p, s.breaker) && AllAt(s.breaker.failures, s.now)
    ensures var s1 := Apply(p, s, Call(id, s.now));
      var s2 := Apply(p, s1, Outcome(id, false, s.now));
      && Enabled(s, Call(id, s.now)) && Enabled(s1, Outcome(id, false, s.now)) && s1.breaker.mode == Closed
      && s2 == s.(breaker := Failure(p, s.breaker, s.now))
      && (if |s.breaker.failures| + 1 >= p.threshold
          then s2.breaker.mode == Open && s2.breaker.openUntil == s.now + p.reset
          else s2.breaker.mode == Closed && s2.breaker.failures == s.breaker.failures + [s.now])
  {
    TrimNothing(s.breaker.failures, s.now, s.now - p.window);
    LeanStep(p, s.breaker, Event(FailureOp, s.now));
    assert s.flying + {id} - {id} == s.flying && s.probes - {id} == s.probes;
  }

  /** Enough of them open the class, touching no call in flight. */
  lemma {:induction false} FailUntilOpen(p: Params, s: Traffic, id: nat) returns (run: seq<Step>)
    requires Proper(p) && s.breaker.mode == Closed && id !in s.flying && id !in s.probes
    requires Lean(p, s.breaker) && AllAt(s.breaker.failures, s.now)
    ensures Valid(p, s, run) && NoStale(p, s, run) && forall i :: 0 <= i < |run| ==> run[i].id == id
    ensures var s' := Final(p, s, run);
      s'.breaker.mode == Open && s'.breaker.openUntil == s.now + p.reset && s' == s.(breaker := s'.breaker)
    decreases p.threshold - |s.breaker.failures|
  {
    FailOnce(p, s, id);
    var s1 := Apply(p, s, Call(id, s.now));
    var s2 := Apply(p, s1, Outcome(id, false, s.now));
    hide Apply, Failure;
    run := [];
    if s2.breaker.mode != Open {
      run := FailUntilOpen(p, s2, id);
    }
    run := Then(p, s1, Outcome(id, false, s.now), run);
    run := Then(p, s, Call(id, s.now), run);
  }

  /** From an open class with a probe still in flight, a second probe after the reset time. */
  lemma SecondProbe(p: Params, s: Traffic, id: nat) returns (run: seq<Step>)
    requires Proper(p) && s.breaker.mode == Open && id !in s.flying && s.now <= s.breaker.openUntil
    ensures run == [Call(id, s.breaker.openUntil)] && Valid(p, s, run) && NoStale(p, s, run)
    ensures Final(p, s, run).probes == s.probes + {id}
  {
    run := Then(p, s, Call(id, s.breaker.openUntil), []);
  }

  /** A stale outcome of either kind: some continuation, itself without stale outcomes and without an
      outcome of the first probe, has two probes in flight. */
  lemma StaleLetsSecondProbeIn(p: Params, s: Traffic, t: Step) returns (run: seq<Step>)
    requires Proper(p) && Enabled(s, t) && OneProbe(p, s) && Stale(s, t)
    ensures var s' := Apply(p, s, t);
      && Valid(p, s', run) && NoStale(p, s', run) && Silent(run, s.current)
      && s.current in Final(p, s', run).probes && |Final(p, s', run).probes| == 2
  {
    var s' := Apply(p, s, t);
    assert s'.probes == {s.current} && s.current in s'.flying;
    var id := Unused(s'.flying);
    var opening: seq<Step> := [];
    if t.success {
      opening := FailUntilOpen(p, s', id);
    }
    var s'' := Final(p, s', opening);
    var probe := SecondProbe(p, s'', id);
    hide Apply, Enabled, Stale;
    Concat(p, s', opening, probe);
    NoStaleConcat(p, s', opening, probe);
    run := opening + probe;
    assert Final(p, s', run).probes == {s.current, id};
  }

  // ---- so exactly the runs without stale outcomes are safe

  /** However the run goes on, as long as it goes on without stale outcomes: at most one probe in flight. */
  ghost predicate Secure(p: Params, s: Traffic)
    requires Proper(p)
  {
    forall later :: Valid(p, s, later) && NoStale(p, s, later) ==> |Final(p, s, later).probes| <= 1
  }

  lemma OneProbeSecure(p: Params, s: Traffic)
    requires Proper(p) && OneProbe(p, s)
    ensures Secure(p, s)
  {
    forall later | Valid(p, s, later) && NoStale(p, s, later)
      ensures |Final(p, s, later).probes| <= 1
    {
      OneProbeRun(p, s, later);
    }
  }

  /** All through a run, and through all its continuations without stale outcomes, there is at most one
      probe in flight if and only if no outcome of another call is recorded while the class is half-open. */
  lemma {:induction false} OneProbeInFlightIff(p: Params, s: Traffic, run: seq<Step>)
    requires Proper(p) && Valid(p, s, run) && OneProbe(p, s)
    ensures (forall i :: 0 <= i <= |run| ==> Secure(p, Final(p, s, run[..i]))) <==> NoStale(p, s, run)
    decreases |run|
  {
    assert run[..0] == [];
    OneProbeSecure(p, s);
    if run == [] {
    } else {
      var s', rest := Apply(p, s, run[0]), run[1..];
      assert forall i :: 0 < i <= |run| ==> run[..i][0] == run[0] && run[..i][1..] == rest[..i - 1];
      if Stale(s, run[0]) {
        var later := StaleLetsSecondProbeIn(p, s, run[0]);
        assert rest[..0] == [] && Final(p, s, run[..1]) == s';
        assert !Secure(p, s');
      } else {
        OneProbeStep(p, s, run[0]);
        hide Apply, Secure, OneProbe, Stale, Enabled;
        OneProbeInFlightIff(p, s', rest);
        assert forall k :: 0 <= k <= |rest| ==> Final(p, s, run[..k + 1]) == Final(p, s', rest[..k]);
      }
    }
  }

  /** So "one probe in flight" is not kept: from the start, whatever the settings, there is a run in which
      call 1 is admitted as a probe and never has an outcome, and call 2 is admitted as a probe beside it. */
  lemma StaleFailureAdmitsSecondProbe(p: Params, now: int) returns (run: seq<Step>)
    requires Proper(p)
    ensures Valid(p, Start(now), run) && Silent(run, 1) && Final(p, Start(now), run).probes == {1, 2}
  {
    var s0 := Start(now);
    var s1 := Apply(p, s0, Call(0, now));
    var opening := FailUntilOpen(p, s1, 3);
    var s2 := Final(p, s1, opening);
    var probe, stale := Call(1, now + p.reset), Outcome(0, false, now + p.reset);
    var s3 := Apply(p, s2, probe);
    var s4 := Apply(p, s3, stale);
    assert s4.breaker.mode == Open && s4.probes == {1} && s4.flying == {1};
    var second := SecondProbe(p, s4, 2);
    assert Valid(p, s3, [stale] + second) && Final(p, s3, [stale] + second) == Final(p, s4, second) by {
      assert ([stale] + second)[1..] == second;
    }
    var tail := [probe, stale] + second;
    assert Valid(p, s2, tail) && Final(p, s2, tail) == Final(p, s4, second) by {
      assert tail[1..] == [stale] + second;
    }
    hide Apply, Enabled;
    Concat(p, s1, opening, tail);
    run := [Call(0, now)] + (opening + tail);
    assert run[1..] == opening + tail;
  }
}
