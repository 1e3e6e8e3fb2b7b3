/** Middleware composition, with panic as an outcome of its own. */
module Middleware {
  import opened Breaker
  import opened BreakerMap

  datatype Result = Ok | Err(circuitOpen: bool) | Panic

  datatype Task = Task(jid: string, name: string)

  /** The breaker calls made so far, as history. */
  datatype Entry = Asked(name: string, allowed: bool) | Told(name: string, success: bool)

  /** What a handler can see and change: the clock, the breaker, the history of breaker calls. */
  datatype World = World(now: int, classes: Classes, log: seq<Entry>)

  type Handler = (World, Task) -> (Result, World)

  type Layer = Handler -> Handler

  /** The layers around a handler, first layer outermost. */
  function Fold(layers: seq<Layer>, final: Handler): Handler {
    if layers == [] then final else layers[0](Fold(layers[1..], final))
  }

  class Chain {
    var layers: seq<Layer>

    constructor (ls: seq<Layer>)
      ensures layers == ls
    {
      layers := ls;
    }

    method Use(ls: seq<Layer>)
      modifies this
      ensures layers == old(layers) + ls
    {
      layers := layers + ls;
    }

    /** The descending loop. */
    method Wrap(final: Handler) returns (handler: Handler)
      ensures handler == Fold(layers, final)
    {
      handler := final;
      var index := |layers|;
      assert layers[index..] == [];
      while index > 0
        invariant 0 <= index <= |layers|
        invariant handler == Fold(layers[index..], final)
      {
        index := index - 1;
        assert layers[index..][0] == layers[index] && layers[index..][1..] == layers[index + 1..];
        handler := layers[index](handler);
      }
    }
  }

  /** Layers added by `Use` go inside those already there. */
  lemma {:induction false} FoldConcat(outer: seq<Layer>, inner: seq<Layer>, final: Handler)
    ensures Fold(outer + inner, final) == Fold(outer, Fold(inner, final))
  {
    if outer == [] {
      assert outer + inner == inner;
    } else {
      FoldConcat(outer[1..], inner, final);
      assert (outer + inner)[1..] == outer[1..] + inner;
    }
  }

  // ---- the layers the engine installs

  /** A panic comes out as an ordinary error that is not circuit-open. */
  function Recovery(): Layer {
    (next: Handler) => (w: World, t: Task) =>
      var (r, w') := next(w, t);
      (if r == Panic then Err(false) else r, w')
  }

  function Logging(): Layer {
    (next: Handler) => next
  }

  /** `pick` stands for the order in which a full map is walked. */
  function AskCall(pick: Classes -> string, w: World, t: Task): Call {
    Call(t.name, Event(AllowOp, w.now), pick(w.classes))
  }

  function Ask(p: Params, pick: Classes -> string, w: World, t: Task): (bool, World)
    requires Proper(p)
  {
    var c := AskCall(pick, w, t);
    var allowed := AllowsCall(w.classes, c);
    (allowed, w.(classes := Do(p, w.classes, c), log := w.log + [Asked(t.name, allowed)]))
  }

  function Tell(p: Params, pick: Classes -> string, w: World, t: Task, success: bool): World
    requires Proper(p)
  {
    var c := Call(t.name, Event(if success then SuccessOp else FailureOp, w.now), pick(w.classes));
    w.(classes := Do(p, w.classes, c), log := w.log + [Told(t.name, success)])
  }

  function Guard(p: Params, pick: Classes -> string): Layer
    requires Proper(p)
  {
    (next: Handler) => (w: World, t: Task) =>
      var (allowed, w1) := Ask(p, pick, w, t);
      if !allowed then (Err(true), w1)
      else
        var (r, w2) := next(w1, t);
        match r
        case Panic => (Panic, w2)
        case Err(_) => (r, Tell(p, pick, w2, t, false))
        case Ok => (r, Tell(p, pick, w2, t, true))
  }

  /** With recovery outermost no panic escapes, whatever the other layers and the worker do. */
  lemma NoPanicEscapes(layers: seq<Layer>, final: Handler, w: World, t: Task)
    ensures Fold([Recovery()] + layers, final)(w, t).0 != Panic
    ensures var (r, w') := Fold(layers, final)(w, t);
      Fold([Recovery()] + layers, final)(w, t) == (if r == Panic then Err(false) else r, w')
  {
    assert ([Recovery()] + layers)[1..] == layers;
  }

  function EngineChain(p: Params, pick: Classes -> string): seq<Layer>
    requires Proper(p)
  {
    [Recovery(), Logging(), Guard(p, pick)]
  }

  lemma EngineFold(p: Params, pick: Classes -> string, extra: seq<Layer>, work: Handler)
    requires Proper(p)
    ensures Fold(EngineChain(p, pick) + extra, work) == Recovery()(Guard(p, pick)(Fold(extra, work)))
  {
    var chain := EngineChain(p, pick);
    FoldConcat(chain, extra, work);
    assert chain[1..] == [Logging(), Guard(p, pick)] && chain[1..][1..] == [Guard(p, pick)];
    assert chain[1..][1..][1..] == [];
    var inner := Fold(extra, work);
    assert Fold([Guard(p, pick)], inner) == Guard(p, pick)(inner);
    assert Fold([Logging(), Guard(p, pick)], inner) == Guard(p, pick)(inner);
  }

  /** One job through the engine's chain, with any further layers inside. A denied job comes back
      circuit-open without the worker having run. An admitted one whose worker returns is matched by
      exactly one recorded outcome, of the right kind, in the breaker's state and in the history. An
      admitted one that panics comes back as a plain error and no outcome is recorded for it. */
  lemma EngineCall(p: Params, pick: Classes -> string, extra: seq<Layer>, work: Handler, w: World, t: Task)
    requires Proper(p)
    ensures var (result, after) := Fold(EngineChain(p, pick) + extra, work)(w, t);
      var (allowed, asked) := Ask(p, pick, w, t);
      && result != Panic
      && (!allowed ==> result == Err(true) && after == asked && after.log == w.log + [Asked(t.name, false)])
      && (allowed ==>
            var (r, ran) := Fold(extra, work)(asked, t);
            && asked.log == w.log + [Asked(t.name, true)]
            && (r == Panic ==> result == Err(false) && after == ran)
            && (r != Panic ==> result == r && after == Tell(p, pick, ran, t, r == Ok)
                               && after.log == ran.log + [Told(t.name, r == Ok)]))
  {
    EngineFold(p, pick, extra, work);
  }

  // ---- what reaches the breaker

  /** An admitted job whose worker returns, the class not having been evicted meanwhile: an error is a failure
      of its class at that time, success a success, and no other class is touched. */
  lemma OutcomeReachesBreaker(
      p: Params, pick: Classes -> string, extra: seq<Layer>, work: Handler, w: World, t: Task)
    requires Proper(p) && Ask(p, pick, w, t).0
    requires var (r, ran) := Fold(extra, work)(Ask(p, pick, w, t).1, t); r != Panic && t.name in ran.classes
    ensures var (r, ran) := Fold(extra, work)(Ask(p, pick, w, t).1, t);
      var (result, after) := Fold(EngineChain(p, pick) + extra, work)(w, t);
      && result == r && t.name in after.classes
      && after.classes[t.name]
         == (if r == Ok then Success(ran.classes[t.name]) else Failure(p, ran.classes[t.name], ran.now))
      && forall k :: k in ran.classes && k != t.name ==> k in after.classes && after.classes[k] == ran.classes[k]
  {
    EngineCall(p, pick, extra, work, w, t);
  }

  /** An admitted call of a class that is there changes that class as `Allow` does, and no other. */
  lemma AskOnly(p: Params, pick: Classes -> string, w: World, t: Task)
    requires Proper(p) && t.name in w.classes
    ensures var (allowed, asked) := Ask(p, pick, w, t);
      && allowed == Allowed(w.classes[t.name], w.now).1 && asked.now == w.now
      && asked.classes == w.classes[t.name := Allowed(w.classes[t.name], w.now).0]
  {
  }

  /** A worker that answers `r` without a breaker call of its own. */
  ghost predicate Answers(work: Handler, r: Result) {
    forall w, t :: work(w, t).0 == r && work(w, t).1.classes == w.classes && work(w, t).1.now == w.now
  }

  lemma EngineStep(p: Params, pick: Classes -> string, work: Handler, r: Result, w: World, t: Task)
    requires Proper(p) && Answers(work, r) && r != Panic && t.name in w.classes
    requires Allowed(w.classes[t.name], w.now).1
    ensures var (result, after) := Fold(EngineChain(p, pick), work)(w, t);
      var s := Allowed(w.classes[t.name], w.now).0;
      && result == r && t.name in after.classes
      && after.classes[t.name] == (if r == Ok then Success(s) else Failure(p, s, w.now))
  {
    AskOnly(p, pick, w, t);
    assert EngineChain(p, pick) + [] == EngineChain(p, pick) && Fold([], work) == work;
    OutcomeReachesBreaker(p, pick, [], work, w, t);
  }

  /** Jobs of one class put through the handler one after the other, at the given times. */
  ghost function Tried(h: Handler, w: World, times: seq<int>, t: Task): World
    decreases |times|
  {
    if times == [] then w else Tried(h, h(w.(now := times[0]), t).1, times[1..], t)
  }

  /** The times fall into one window. */
  predicate InWindow(times: seq<int>, window: int) {
    forall i, k :: 0 <= i < |times| && 0 <= k < |times| ==> times[i] - window <= times[k]
  }

  lemma FirstInWindow(earlier: seq<int>, times: seq<int>, window: int)
    requires times != [] && InWindow(earlier + times, window)
    ensures earlier + times == earlier + [times[0]] + times[1..]
    ensures Trim(earlier, times[0] - window) == earlier
  {
    var all := earlier + times;
    if earlier != [] {
      assert all[|earlier|] == times[0] && all[0] == earlier[0];
    }
  }

  /** Failing jobs within the window: all are admitted as long as fewer than `threshold` failures have been
      seen, and the class opens at the one that makes up the number, for the reset time. */
  lemma {:induction false} FailuresOpen(
      p: Params, pick: Classes -> string, work: Handler, r: Result, w: World, t: Task,
      earlier: seq<int>, times: seq<int>)
    requires Proper(p) && Answers(work, r) && r.Err? && t.name in w.classes
    requires w.classes[t.name].mode == Closed && w.classes[t.name].failures == earlier
    requires InWindow(earlier + times, p.window) && |earlier| + |times| <= p.threshold && |earlier| < p.threshold
    ensures var after := Tried(Fold(EngineChain(p, pick), work), w, times, t);
      && t.name in after.classes
      && if |earlier| + |times| < p.threshold
         then after.classes[t.name].mode == Closed && after.classes[t.name].failures == earlier + times
         else after.classes[t.name].mode == Open && after.classes[t.name].openUntil == times[|times| - 1] + p.reset
    decreases |times|
  {
    if times == [] {
      assert earlier + times == earlier;
    } else {
      var h := Fold(EngineChain(p, pick), work);
      var w1 := w.(now := times[0]);
      FirstInWindow(earlier, times, p.window);
      EngineStep(p, pick, work, r, w1, t);
      hide Fold, EngineChain, Answers, Trim, InWindow;
      var next := h(w1, t).1;
      if |earlier| + 1 < p.threshold {
        FailuresOpen(p, pick, work, r, next, t, earlier + [times[0]], times[1..]);
      } else {
        assert times[1..] == [] && Tried(h, next, times[1..], t) == next;
      }
    }
  }

  /** So, whatever the settings, `threshold` failing jobs of a class within the window open it, and one fewer
      do not. */
  lemma ThresholdOpens(
      p: Params, pick: Classes -> string, work: Handler, r: Result, w: World, t: Task, times: seq<int>)
    requires Proper(p) && Answers(work, r) && r.Err? && t.name in w.classes
    requires w.classes[t.name].mode == Closed && w.classes[t.name].failures == []
    requires InWindow(times, p.window) && |times| <= p.threshold
    ensures var after := Tried(Fold(EngineChain(p, pick), work), w, times, t);
      && t.name in after.classes
      && (after.classes[t.name].mode == Open <==> |times| == p.threshold)
      && (|times| == p.threshold ==> after.classes[t.name].openUntil == times[|times| - 1] + p.reset)
  {
    assert [] + times == times;
    FailuresOpen(p, pick, work, r, w, t, [], times);
  }

  /** The probe decides: if its worker returns without error the class is closed and clean, and if not it is open
      for another reset time. */
  lemma ProbeDecides(p: Params, pick: Classes -> string, work: Handler, r: Result, w: World, t: Task)
    requires Proper(p) && Answers(work, r) && r != Panic && t.name in w.classes
    requires w.classes[t.name].mode == Open && w.now >= w.classes[t.name].openUntil
    ensures var (result, after) := Fold(EngineChain(p, pick), work)(w, t);
      && result == r && t.name in after.classes
      && (r == Ok ==> after.classes[t.name].mode == Closed && after.classes[t.name].failures == [])
      && (r != Ok ==> after.classes[t.name].mode == Open && after.classes[t.name].openUntil == w.now + p.reset)
  {
    EngineStep(p, pick, work, r, w, t);
  }

  // ---- a consequence for the half-open state

  /** A job of a jammed class goes through the engine's chain without running, and leaves the jam. Recovery
      sits outside the breaker, so a probe that panics makes such a jam. */
  lemma JammedClassTurnsAway(p: Params, pick: Classes -> string, extra: seq<Layer>, work: Handler, w: World, t: Task)
    requires Proper(p) && Jammed(w.classes, t.name)
    ensures var (result, after) := Fold(EngineChain(p, pick) + extra, work)(w, t);
      result == Err(true) && Jammed(after.classes, t.name) && after.log == w.log + [Asked(t.name, false)]
  {
    EngineCall(p, pick, extra, work, w, t);
    JamStep(p, w.classes, AskCall(pick, w, t), t.name);
  }

  /** The first job after the reset time takes the probe. */
  lemma ProbeTaken(p: Params, pick: Classes -> string, w: World, t: Task)
    requires Proper(p) && t.name in w.classes
    requires w.classes[t.name].mode == Open && w.now >= w.classes[t.name].openUntil
    ensures Ask(p, pick, w, t).0 && Jammed(Ask(p, pick, w, t).1.classes, t.name)
  {
  }

  /** A probe that panics takes the probe without an outcome. `calls` are the breaker calls that other
      goroutines make from then on, on whatever classes, the first `k` of them while the probe still runs. The
      class stays jammed all the way, and admits nothing, if and only if none of them records an outcome for
      it or evicts it. */
  lemma PanickingProbeJams(
      p: Params, pick: Classes -> string, work: Handler, w: World, t: Task, calls: seq<Call>, k: nat)
    requires Proper(p) && t.name in w.classes && k <= |calls|
    requires w.classes[t.name].mode == Open && w.now >= w.classes[t.name].openUntil
    requires Valid(p, Ask(p, pick, w, t).1.classes, calls)
    requires var asked := Ask(p, pick, w, t).1;
      work(asked, t).0 == Panic && work(asked, t).1.classes == Final(p, asked.classes, calls[..k])
    ensures var (result, after) := Fold(EngineChain(p, pick), work)(w, t);
      var asked := Ask(p, pick, w, t).1.classes;
      && result == Err(false) && after.classes == Final(p, asked, calls[..k])
      && ((forall i :: 0 <= i <= |calls| ==> Jammed(Final(p, asked, calls[..i]), t.name))
          <==> NeverUnjams(p, asked, calls, t.name))
      && (NeverUnjams(p, asked, calls, t.name) ==> Admissions(p, asked, calls, t.name) == 0)
  {
    var asked := Ask(p, pick, w, t).1.classes;
    ProbeTaken(p, pick, w, t);
    EngineCall(p, pick, [], work, w, t);
    assert EngineChain(p, pick) + [] == EngineChain(p, pick) && Fold([], work) == work;
    hide Do, Jammed, NeverUnjams, Admissions;
    JammedExactlyUntil(p, asked, calls, t.name);
  }
}
