/** The breaker over all job classes: a bounded map with three-pass eviction. */
module BreakerMap {
  import opened Breaker

  const MAX_CLASSES := 10000

  type Classes = map<string, ClassState>

  predicate Clean(s: ClassState) {
    s.mode == Closed && s.failures == []
  }

  predicate AnyClean(m: Classes) {
    exists k :: k in m && Clean(m[k])
  }

  predicate AnyClosed(m: Classes) {
    exists k :: k in m && m[k].mode == Closed
  }

  /** The classes the three passes may pick, whatever order the map is walked in: a closed one without
      failures, else a closed one, else one that opens up earliest. */
  predicate MayEvict(m: Classes, k: string) {
    && k in m
    && (AnyClean(m) ==> Clean(m[k]))
    && (AnyClosed(m) ==> m[k].mode == Closed)
    && (!AnyClosed(m) ==> forall k' :: k' in m ==> m[k].openUntil <= m[k'].openUntil)
  }

  /** The third pass takes the empty name for "nothing found" and then refuses to create an entry. */
  predicate Refuses(m: Classes, victim: string) {
    !AnyClosed(m) && victim == ""
  }

  predicate Full(m: Classes, name: string) {
    name !in m && |m| >= MAX_CLASSES
  }

  /** A call on class `name`; `victim` is the class evicted if room has to be made. */
  datatype Call = Call(name: string, event: Event, victim: string)

  predicate Enabled(m: Classes, c: Call) {
    Full(m, c.name) ==> MayEvict(m, c.victim)
  }

  predicate Denied(m: Classes, c: Call) {
    Full(m, c.name) && Refuses(m, c.victim)
  }

  function Lookup(m: Classes, name: string): ClassState {
    if name in m then m[name] else Fresh()
  }

  /** `getOrCreate`: room is made for a class that is not there. */
  function Room(m: Classes, c: Call): Classes {
    if Full(m, c.name) then m - {c.victim} else m
  }

  function Do(p: Params, m: Classes, c: Call): Classes
    requires Proper(p)
  {
    if Denied(m, c) then m else Room(m, c)[c.name := Next(p, Lookup(m, c.name), c.event)]
  }

  function AllowsCall(m: Classes, c: Call): bool {
    !Denied(m, c) && Allowed(Lookup(m, c.name), c.event.at).1
  }

  ghost predicate Valid(p: Params, m: Classes, calls: seq<Call>)
    requires Proper(p)
    decreases |calls|
  {
    calls == [] || (Enabled(m, calls[0]) && Valid(p, Do(p, m, calls[0]), calls[1..]))
  }

  ghost function Final(p: Params, m: Classes, calls: seq<Call>): Classes
    requires Proper(p)
    decreases |calls|
  {
    if calls == [] then m else Final(p, Do(p, m, calls[0]), calls[1..])
  }

  // ---- the bound, the order of eviction, the sentinel

  lemma BoundStep(p: Params, m: Classes, c: Call)
    requires Proper(p) && Enabled(m, c) && |m| <= MAX_CLASSES
    ensures |Do(p, m, c)| <= MAX_CLASSES
  {
    var r := Room(m, c);
    if Full(m, c.name) {
      assert r.Keys == m.Keys - {c.victim};
      assert |r| == |m| - 1;
    }
    var r' := r[c.name := Next(p, Lookup(m, c.name), c.event)];
    assert r'.Keys == r.Keys + {c.name};
  }

  /** In every run the map stays within its bound; and if no class has the empty name, no call is ever
      turned away by the sentinel. */
  lemma {:induction false} MapBounded(p: Params, m: Classes, calls: seq<Call>)
    requires Proper(p) && Valid(p, m, calls) && |m| <= MAX_CLASSES
    ensures |Final(p, m, calls)| <= 10000
    ensures "" !in m && (forall i :: 0 <= i < |calls| ==> calls[i].name != "") ==>
      "" !in Final(p, m, calls) && forall c :: Enabled(Final(p, m, calls), c) ==> !Denied(Final(p, m, calls), c)
    decreases |calls|
  {
    if calls == [] {
    } else {
      BoundStep(p, m, calls[0]);
      MapBounded(p, Do(p, m, calls[0]), calls[1..]);
    }
  }

  /** A class goes only for a new one when the map is full, and alone. One with failures goes only when no
      clean one is there; one that is not closed goes only when none is, and then with the earliest
      `openUntil`. */
  lemma EvictionOrder(p: Params, m: Classes, c: Call, k: string)
    requires Proper(p) && Enabled(m, c) && k in m && k !in Do(p, m, c)
    ensures c.name !in m && |m| >= 10000 && c.name in Do(p, m, c)
    ensures forall k' :: k' in m && k' != k ==> k' in Do(p, m, c) && Do(p, m, c)[k'] == m[k']
    ensures m[k].mode == Closed && m[k].failures != [] ==>
      forall k' :: k' in m ==> !(m[k'].mode == Closed && m[k'].failures == [])
    ensures m[k].mode != Closed ==>
      forall k' :: k' in m ==> m[k'].mode != Closed && m[k].openUntil <= m[k'].openUntil
  {
    assert c.victim == k;
  }

  /** The third pass takes the empty class name for no find at all: with no closed class in a full map, and the
      class of that name due to go, a new class is turned away and leaves no trace, now and at every later
      call. */
  lemma {:induction false} EmptyNameRefuses(p: Params, m: Classes, calls: seq<Call>)
    requires Proper(p) && |m| >= 10000 && forall k :: k in m ==> m[k].mode != Closed
    requires forall i :: 0 <= i < |calls| ==> calls[i].name !in m && calls[i].victim == ""
    ensures Final(p, m, calls) == m && forall i :: 0 <= i < |calls| ==> !AllowsCall(m, calls[i])
    decreases |calls|
  {
    if calls == [] {
    } else {
      assert forall i :: 0 <= i < |calls[1..]| ==> calls[1..][i] == calls[i + 1];
      EmptyNameRefuses(p, m, calls[1..]);
    }
  }

  predicate Evicts(m: Classes, c: Call, name: string) {
    Full(m, c.name) && !Denied(m, c) && c.victim == name
  }

  ghost predicate NeverEvicts(p: Params, m: Classes, calls: seq<Call>, name: string)
    requires Proper(p)
    decreases |calls|
  {
    calls == [] || (!Evicts(m, calls[0], name) && NeverEvicts(p, Do(p, m, calls[0]), calls[1..], name))
  }

  /** The number of calls of class `name` that a run admits. */
  ghost function Admissions(p: Params, m: Classes, calls: seq<Call>, name: string): nat
    requires Proper(p)
    decreases |calls|
  {
    if calls == [] then 0
    else (if calls[0].name == name && calls[0].event.op == AllowOp && AllowsCall(m, calls[0]) then 1 else 0)
         + Admissions(p, Do(p, m, calls[0]), calls[1..], name)
  }

  predicate OpenUntil(m: Classes, name: string, until: int) {
    name in m && m[name].mode == Open && m[name].openUntil == until
  }

  /** The class is asked for only before `until`. */
  predicate AskedBefore(calls: seq<Call>, name: string, until: int) {
    forall i :: 0 <= i < |calls| && calls[i].name == name && calls[i].event.op == AllowOp ==> calls[i].event.at < until
  }

  lemma OpenStep(p: Params, m: Classes, c: Call, name: string, until: int)
    requires Proper(p) && Enabled(m, c) && OpenUntil(m, name, until) && AskedBefore([c], name, until)
    ensures OpenUntil(Do(p, m, c), name, until) <==> !Evicts(m, c, name)
    ensures c.name == name && c.event.op == AllowOp ==> !AllowsCall(m, c)
    ensures Evicts(m, c, name) ==> name !in Do(p, m, c)
  {
    assert [c][0] == c;
  }

  /** Whatever is called on whatever classes: until its reset time a class stays open, and admits nothing,
      all through a run if and only if no call of the run evicts it. */
  lemma {:induction false} OpenExactlyUntilEvicted(
      p: Params, m: Classes, calls: seq<Call>, name: string, until: int)
    requires Proper(p) && Valid(p, m, calls) && OpenUntil(m, name, until) && AskedBefore(calls, name, until)
    ensures (forall i :: 0 <= i <= |calls| ==> OpenUntil(Final(p, m, calls[..i]), name, until))
      <==> NeverEvicts(p, m, calls, name)
    ensures NeverEvicts(p, m, calls, name) ==> Admissions(p, m, calls, name) == 0
    decreases |calls|
  {
    assert calls[..0] == [];
    if calls == [] {
    } else {
      var m', rest := Do(p, m, calls[0]), calls[1..];
      OpenStep(p, m, calls[0], name, until);
      assert AskedBefore(rest, name, until) by {
        assert forall i :: 0 <= i < |rest| ==> rest[i] == calls[i + 1];
      }
      hide Do, Evicts, OpenUntil, Enabled, AllowsCall, AskedBefore;
      assert forall i :: 0 < i <= |calls| ==> calls[..i][0] == calls[0] && calls[..i][1..] == rest[..i - 1];
      if Evicts(m, calls[0], name) {
        assert rest[..0] == [];
        assert !OpenUntil(Final(p, m, calls[..1]), name, until);
      } else {
        OpenExactlyUntilEvicted(p, m', rest, name, until);
        assert forall k :: 0 <= k <= |rest| ==> Final(p, m, calls[..k + 1]) == Final(p, m', rest[..k]);
      }
    }
  }

  predicate Forgotten(m: Classes, name: string) {
    name in m ==> m[name].mode == Closed
  }

  /** No call on the class records a failure or is turned away by the sentinel. */
  ghost predicate Undisturbed(p: Params, m: Classes, calls: seq<Call>, name: string)
    requires Proper(p)
    decreases |calls|
  {
    calls == [] ||
    (&& (calls[0].name == name ==> calls[0].event.op != FailureOp && !Denied(m, calls[0]))
     && Undisturbed(p, Do(p, m, calls[0]), calls[1..], name))
  }

  lemma ForgottenStep(p: Params, m: Classes, c: Call, name: string)
    requires Proper(p) && Forgotten(m, name) && (c.name == name ==> c.event.op != FailureOp && !Denied(m, c))
    ensures Forgotten(Do(p, m, c), name)
    ensures c.name == name && c.event.op == AllowOp ==> AllowsCall(m, c)
  {
  }

  /** An eviction does end the denial: until a failure is recorded for it again an evicted class admits every
      call, however long its reset time still had to run. */
  lemma {:induction false} EvictionForgets(p: Params, m: Classes, c: Call, calls: seq<Call>, name: string)
    requires Proper(p) && Enabled(m, c) && Evicts(m, c, name) && Undisturbed(p, Do(p, m, c), calls, name)
    ensures Admissions(p, Do(p, m, c), calls, name) == |Asks(calls, name)|
  {
    ForgottenAdmits(p, Do(p, m, c), calls, name);
  }

  lemma {:induction false} ForgottenAdmits(p: Params, m: Classes, calls: seq<Call>, name: string)
    requires Proper(p) && Forgotten(m, name) && Undisturbed(p, m, calls, name)
    ensures Admissions(p, m, calls, name) == |Asks(calls, name)|
    decreases |calls|
  {
    if calls == [] {
    } else {
      ForgottenStep(p, m, calls[0], name);
      hide Do, Forgotten, Denied, AllowsCall;
      ForgottenAdmits(p, Do(p, m, calls[0]), calls[1..], name);
    }
  }

  /** The calls that ask for class `name`. */
  function Asks(calls: seq<Call>, name: string): seq<Call> {
    if calls == [] then []
    else (if calls[0].name == name && calls[0].event.op == AllowOp then [calls[0]] else []) + Asks(calls[1..], name)
  }

  // ---- a probe without an outcome

  /** The class is half-open and its probe taken. */
  predicate Jammed(m: Classes, name: string) {
    name in m && m[name].mode == HalfOpen && m[name].probeUsed
  }

  /** The two events that end a jam: an outcome is recorded for the class, or the class is evicted. */
  predicate Unjams(m: Classes, c: Call, name: string) {
    (c.name == name && c.event.op != AllowOp) || Evicts(m, c, name)
  }

  lemma JamStep(p: Params, m: Classes, c: Call, name: string)
    requires Proper(p) && Enabled(m, c) && Jammed(m, name)
    ensures Jammed(Do(p, m, c), name) <==> !Unjams(m, c, name)
    ensures c.name == name && c.event.op == AllowOp ==> !AllowsCall(m, c)
  {
  }

  ghost predicate NeverUnjams(p: Params, m: Classes, calls: seq<Call>, name: string)
    requires Proper(p)
    decreases |calls|
  {
    calls == [] || (!Unjams(m, calls[0], name) && NeverUnjams(p, Do(p, m, calls[0]), calls[1..], name))
  }

  /** Whatever is called on whatever classes: a jammed class stays jammed, and admits nothing, all through
      a run if and only if no call of it records an outcome for the class or evicts it. */
  lemma {:induction false} JammedExactlyUntil(p: Params, m: Classes, calls: seq<Call>, name: string)
    requires Proper(p) && Valid(p, m, calls) && Jammed(m, name)
    ensures (forall i :: 0 <= i <= |calls| ==> Jammed(Final(p, m, calls[..i]), name))
      <==> NeverUnjams(p, m, calls, name)
    ensures NeverUnjams(p, m, calls, name) ==> Admissions(p, m, calls, name) == 0
    decreases |calls|
  {
    assert calls[..0] == [];
    if calls == [] {
    } else {
      var m', rest := Do(p, m, calls[0]), calls[1..];
      JamStep(p, m, calls[0], name);
      hide Do, Unjams, Jammed, Enabled, AllowsCall;
      assert forall i :: 0 < i <= |calls| ==> calls[..i][0] == calls[0] && calls[..i][1..] == rest[..i - 1];
      if Unjams(m, calls[0], name) {
        assert rest[..0] == [];
        assert !Jammed(Final(p, m, calls[..1]), name);
      } else {
        JammedExactlyUntil(p, m', rest, name);
        assert forall k :: 0 <= k <= |rest| ==> Final(p, m, calls[..k + 1]) == Final(p, m', rest[..k]);
      }
    }
  }

  // ---- isolation

  function Project(calls: seq<Call>, name: string): seq<Event> {
    if calls == [] then []
    else Project(calls[..|calls| - 1], name)
         + (if calls[|calls| - 1].name == name then [calls[|calls| - 1].event] else [])
  }

  /** No call evicts class `name` or is denied for it. */
  ghost predicate Spared(p: Params, m: Classes, calls: seq<Call>, name: string)
    requires Proper(p)
    decreases |calls|
  {
    calls == [] ||
    (var c := calls[0];
     && !(Full(m, c.name) && c.victim == name)
     && !(c.name == name && Denied(m, c))
     && Spared(p, Do(p, m, c), calls[1..], name))
  }

  lemma {:induction false} ProjectCons(calls: seq<Call>, name: string)
    requires calls != []
    ensures Project(calls, name)
         == (if calls[0].name == name then [calls[0].event] else []) + Project(calls[1..], name)
    decreases |calls|
  {
    if |calls| == 1 {
      assert calls[..0] == [] && calls[1..] == [];
    } else {
      var init := calls[..|calls| - 1];
      ProjectCons(init, name);
      assert init[1..] == calls[1..][..|calls[1..]| - 1];
    }
  }

  lemma ClassStep(p: Params, m: Classes, c: Call, name: string)
    requires Proper(p) && !(Full(m, c.name) && c.victim == name) && !(c.name == name && Denied(m, c))
    ensures Lookup(Do(p, m, c), name) == if c.name == name then Next(p, Lookup(m, name), c.event) else Lookup(m, name)
  {
  }

  lemma {:induction false} IsolatedFrom(p: Params, m: Classes, calls: seq<Call>, name: string)
    requires Proper(p) && Spared(p, m, calls, name)
    ensures Lookup(Final(p, m, calls), name) == Run(p, Lookup(m, name), Project(calls, name))
    decreases |calls|
  {
    if calls == [] {
    } else {
      var c := calls[0];
      ClassStep(p, m, c, name);
      IsolatedFrom(p, Do(p, m, c), calls[1..], name);
      ProjectCons(calls, name);
      if c.name == name {
        assert Project(calls, name)[1..] == Project(calls[1..], name);
      } else {
        assert Project(calls, name) == Project(calls[1..], name);
      }
    }
  }

  lemma {:induction false} RunIsAfter(p: Params, log: seq<Event>)
    requires Proper(p)
    ensures Run(p, Fresh(), log) == After(p, log)
  {
    if log == [] {
    } else {
      var init, e := log[..|log| - 1], log[|log| - 1];
      RunIsAfter(p, init);
      RunConcat(p, Fresh(), init, [e]);
      assert log == init + [e] && [e][1..] == [];
    }
  }

  /** Any interleaving of calls on all classes, seen by one class that is not evicted meanwhile, is that
      class's own machine run alone on its own calls. */
  lemma ClassesAreIsolated(p: Params, calls: seq<Call>, name: string)
    requires Proper(p) && Spared(p, map[], calls, name)
    ensures Lookup(Final(p, map[], calls), name) == After(p, Project(calls, name))
  {
    IsolatedFrom(p, map[], calls, name);
    RunIsAfter(p, Project(calls, name));
  }

  ghost function Names(calls: seq<Call>): set<string> {
    set i | 0 <= i < |calls| :: calls[i].name
  }

  /** With fewer distinct classes than the bound nothing is ever evicted or denied. */
  lemma {:induction false} BelowCapacitySpares(p: Params, m: Classes, calls: seq<Call>, name: string)
    requires Proper(p) && |m.Keys + Names(calls)| <= MAX_CLASSES
    ensures Spared(p, m, calls, name)
    decreases |calls|
  {
    if calls == [] {
    } else {
      var c := calls[0];
      var all := m.Keys + Names(calls);
      assert c.name in Names(calls);
      if c.name !in m {
        assert m.Keys < all;
        Smaller(m.Keys, all);
      }
      assert !Full(m, c.name);
      var m' := Do(p, m, c);
      assert m'.Keys + Names(calls[1..]) == all by {
        assert forall i :: 0 <= i < |calls[1..]| ==> calls[1..][i] == calls[i + 1];
        assert forall n :: n in Names(calls) <==> n == c.name || n in Names(calls[1..]) by {
          forall n | n in Names(calls) && n != c.name
            ensures n in Names(calls[1..])
          {
            var i :| 0 <= i < |calls| && calls[i].name == n;
            assert calls[1..][i - 1].name == n;
          }
        }
      }
      BelowCapacitySpares(p, m', calls[1..], name);
    }
  }

  lemma Smaller<T>(a: set<T>, b: set<T>)
    requires a < b
    ensures |a| < |b|
  {
    assert b == a + (b - a);
    assert b - a != {};
  }

  // ---- the object

  class CircuitBreaker {
    const params: Params
    var classes: Classes

    constructor (p: Params)
      ensures params == Configure(p) && classes == map[]
    {
      params := Configure(p);
      classes := map[];
    }

    /** `trimWindow`. */
    static method TrimWindow(times: seq<int>, now: int, window: int) returns (r: seq<int>)
      ensures r == Trim(times, now - window)
    {
      var cutoff := now - window;
      var i := 0;
      while i < |times| && times[i] < cutoff
        invariant i <= |times| && Trim(times[i..], cutoff) == Trim(times, cutoff)
      {
        i := i + 1;
      }
      r := times[i..];
    }

    /** The first two passes: some class that satisfies the test, or none does. */
    method FindClosed(clean: bool) returns (found: bool, victim: string)
      ensures found ==>
        victim in classes && classes[victim].mode == Closed && (clean ==> classes[victim].failures == [])
      ensures !found ==> forall k :: k in classes ==>
        !(classes[k].mode == Closed && (clean ==> classes[k].failures == []))
    {
      found, victim := false, "";
      var keys := classes.Keys;
      while keys != {}
        invariant keys <= classes.Keys
        invariant forall k :: k in classes && k !in keys ==>
          !(classes[k].mode == Closed && (clean ==> classes[k].failures == []))
        decreases |keys|
      {
        var k :| k in keys;
        if classes[k].mode == Closed && (clean ==> classes[k].failures == []) {
          return true, k;
        }
        keys := keys - {k};
      }
    }

    /** The third pass: a class with the earliest `openUntil`. */
    method FindOldest() returns (victim: string)
      requires classes != map[]
      ensures victim in classes && forall k :: k in classes ==> classes[victim].openUntil <= classes[k].openUntil
    {
      assert classes.Keys != {};
      var keys := classes.Keys;
      var first := true;
      victim := "";
      while keys != {}
        invariant keys <= classes.Keys
        invariant first ==> keys == classes.Keys
        invariant !first ==> victim in classes
        invariant !first ==>
          forall k :: k in classes && k !in keys ==> classes[victim].openUntil <= classes[k].openUntil
        decreases |keys|
      {
        var k :| k in keys;
        if first || classes[k].openUntil < classes[victim].openUntil {
          victim := k;
          first := false;
        }
        keys := keys - {k};
      }
    }

    /** Makes room for `name`; `ok` is false where the sentinel would be returned. */
    method MakeRoom(name: string) returns (ok: bool, victim: string)
      modifies this
      ensures Full(old(classes), name) ==> MayEvict(old(classes), victim)
      ensures ok <==> !(Full(old(classes), name) && Refuses(old(classes), victim))
      ensures classes == if ok && Full(old(classes), name) then old(classes) - {victim} else old(classes)
    {
      ok, victim := true, "";
      if name !in classes && |classes| >= MAX_CLASSES {
        var found;
        found, victim := FindClosed(true);
        if !found {
          found, victim := FindClosed(false);
        }
        if !found {
          assert classes != map[];
          victim := FindOldest();
          if victim == "" {
            return false, victim;
          }
        }
        classes := classes - {victim};
      }
    }

    method Allow(name: string, now: int) returns (allowed: bool, ghost victim: string)
      requires Proper(params)
      modifies this
      ensures var c := Call(name, Event(AllowOp, now), victim);
        Enabled(old(classes), c) && allowed == AllowsCall(old(classes), c) && classes == Do(params, old(classes), c)
    {
      var ok, v := MakeRoom(name);
      victim := v;
      if !ok {
        return false, v;
      }
      var s := if name in classes then classes[name] else Fresh();
      if s.mode == Open {
        if now < s.openUntil {
          classes := classes[name := s];
          return false, v;
        }
        s := s.(mode := HalfOpen, probeUsed := false);
      }
      allowed := true;
      if s.mode == HalfOpen {
        allowed := !s.probeUsed;
        s := s.(probeUsed := true);
      }
      classes := classes[name := s];
    }

    method RecordSuccess(name: string, now: int) returns (ghost victim: string)
      requires Proper(params)
      modifies this
      ensures var c := Call(name, Event(SuccessOp, now), victim);
        Enabled(old(classes), c) && classes == Do(params, old(classes), c)
    {
      var ok, v := MakeRoom(name);
      victim := v;
      if ok {
        var s := if name in classes then classes[name] else Fresh();
        if s.mode == HalfOpen {
          s := s.(mode := Closed, failures := [], probeUsed := false);
        } else if s.mode == Closed {
          s := s.(failures := []);
        }
        classes := classes[name := s];
      }
    }

    /** What a failure does to a closed class. */
    method FailClosed(s: ClassState, now: int) returns (r: ClassState)
      requires Proper(params) && s.mode == Closed
      ensures r == Failure(params, s, now)
    {
      var times := TrimWindow(s.failures, now, params.window);
      times := times + [now];
      if |times| > params.threshold * 2 {
        times := times[|times| - params.threshold..];
      }
      if |times| >= params.threshold {
        r := s.(mode := Open, openUntil := now + params.reset, failures := []);
      } else {
        r := s.(failures := times);
      }
    }

    method RecordFailure(name: string, now: int) returns (ghost victim: string)
      requires Proper(params)
      modifies this
      ensures var c := Call(name, Event(FailureOp, now), victim);
        Enabled(old(classes), c) && classes == Do(params, old(classes), c)
    {
      var ok, v := MakeRoom(name);
      victim := v;
      if ok {
        var s := if name in classes then classes[name] else Fresh();
        if s.mode == HalfOpen {
          s := s.(mode := Open, openUntil := now + params.reset, probeUsed := false);
        } else if s.mode == Closed {
          s := FailClosed(s, now);
        }
        classes := classes[name := s];
      }
    }

    /** Open, and a call now would be turned away; never creates an entry. */
    method IsOpen(name: string, now: int) returns (open: bool)
      ensures open <==> name in classes && classes[name].mode == Open && !Allowed(classes[name], now).1
    {
      open := name in classes && classes[name].mode == Open && now < classes[name].openUntil;
    }
  }
}
