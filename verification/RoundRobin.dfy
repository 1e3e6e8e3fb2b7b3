/** Weighted round-robin polling: weights expanded into a slice walked by a cyclic cursor. */
module RoundRobin {
  import opened Sequences

  datatype QueueConfig = QueueConfig(name: string, weight: int)

  function Weight(c: QueueConfig): nat {
    if c.weight <= 0 then 1 else c.weight
  }

  /** The weight a name has in all: its entries add up. */
  function Share(configs: seq<QueueConfig>, q: string): nat {
    if configs == [] then 0
    else if configs[0].name != q then Share(configs[1..], q)
    else (if configs[0].weight > 0 then configs[0].weight else 1) + Share(configs[1..], q)
  }

  function Times(name: string, n: nat): seq<string> {
    seq(n, _ => name)
  }

  function Slots(configs: seq<QueueConfig>): seq<string> {
    if configs == [] then [] else Times(configs[0].name, Weight(configs[0])) + Slots(configs[1..])
  }

  /** `NewProcessor`: the expanded slice, or just the default queue. */
  function Expanded(configs: seq<QueueConfig>): seq<string> {
    if Slots(configs) == [] then ["default"] else Slots(configs)
  }

  lemma NextSlots(before: seq<string>, configs: seq<QueueConfig>, i: nat)
    requires i < |configs|
    ensures before + Slots(configs[i..])
         == before + Times(configs[i].name, Weight(configs[i])) + Slots(configs[i + 1..])
  {
    assert configs[i..][0] == configs[i] && configs[i..][1..] == configs[i + 1..];
  }

  method Expand(configs: seq<QueueConfig>) returns (queues: seq<string>)
    ensures queues == Expanded(configs) && queues != []
  {
    queues := [];
    for i := 0 to |configs|
      invariant queues + Slots(configs[i..]) == Slots(configs)
    {
      var weight := configs[i].weight;
      if weight <= 0 {
        weight := 1;
      }
      ghost var before := queues;
      for n := 0 to weight
        invariant queues == before + Times(configs[i].name, n)
      {
        assert Times(configs[i].name, n + 1) == Times(configs[i].name, n) + [configs[i].name];
        queues := queues + [configs[i].name];
      }
      NextSlots(before, configs, i);
    }
    assert configs[|configs|..] == [];
    if |queues| == 0 {
      queues := ["default"];
    }
  }

  lemma {:induction false} CountTimes(name: string, n: nat, q: string)
    ensures Count(Times(name, n), q) == if name == q then n else 0
  {
    if n == 0 {
    } else {
      CountTimes(name, n - 1, q);
      assert Times(name, n)[1..] == Times(name, n - 1);
    }
  }

  lemma {:induction false} SlotsGiveShares(configs: seq<QueueConfig>, q: string)
    ensures Count(Slots(configs), q) == Share(configs, q)
  {
    if configs == [] {
    } else {
      CountTimes(configs[0].name, Weight(configs[0]), q);
      SlotsGiveShares(configs[1..], q);
      CountConcat(Times(configs[0].name, Weight(configs[0])), Slots(configs[1..]), q);
    }
  }

  // ---- polling

  function Succ(cursor: nat, n: nat): (r: nat)
    requires cursor < n
    ensures r == if cursor + 1 == n then 0 else cursor + 1
  {
    (cursor + 1) % n
  }

  /** The cursor after `m` polls over `n` slots. */
  function Cursor(n: nat, cursor: nat, m: nat): (r: nat)
    requires cursor < n
    ensures r < n
    decreases m
  {
    if m == 0 then cursor else Cursor(n, Succ(cursor, n), m - 1)
  }

  /** The queues the next `m` polls go to. */
  function Polled(queues: seq<string>, cursor: nat, m: nat): (r: seq<string>)
    requires cursor < |queues|
    ensures |r| == m
    decreases m
  {
    if m == 0 then [] else [queues[cursor]] + Polled(queues, Succ(cursor, |queues|), m - 1)
  }

  /** The fetcher's loop as far as it concerns the cursor. */
  method Poll(queues: seq<string>, start: nat, m: nat) returns (polled: seq<string>, cursor: nat)
    requires start < |queues|
    ensures polled == Polled(queues, start, m) && cursor == Cursor(|queues|, start, m)
  {
    polled, cursor := [], start;
    for i := 0 to m
      invariant cursor < |queues|
      invariant polled + Polled(queues, cursor, m - i) == Polled(queues, start, m)
      invariant Cursor(|queues|, cursor, m - i) == Cursor(|queues|, start, m)
    {
      var current := queues[cursor];
      assert polled + Polled(queues, cursor, m - i)
          == polled + [current] + Polled(queues, Succ(cursor, |queues|), m - i - 1);
      cursor := (cursor + 1) % |queues|;
      polled := polled + [current];
    }
  }

  lemma {:induction false} PolledSplit(queues: seq<string>, cursor: nat, a: nat, b: nat)
    requires cursor < |queues|
    ensures Polled(queues, cursor, a + b) == Polled(queues, cursor, a) + Polled(queues, Cursor(|queues|, cursor, a), b)
    decreases a
  {
    hide Succ;
    if a == 0 {
    } else {
      PolledSplit(queues, Succ(cursor, |queues|), a - 1, b);
    }
  }

  lemma NextSlot(queues: seq<string>, cursor: nat, m: nat)
    requires cursor < |queues| && m > 0 && cursor + m <= |queues|
    ensures queues[cursor..cursor + m] == [queues[cursor]] + queues[cursor + 1..cursor + m]
  {
  }

  /** Up to the end of the slice, polling walks it. */
  lemma {:induction false} PolledWalks(queues: seq<string>, cursor: nat, m: nat)
    requires cursor < |queues| && cursor + m <= |queues|
    ensures Polled(queues, cursor, m) == queues[cursor..cursor + m]
    ensures Cursor(|queues|, cursor, m) == if cursor + m == |queues| then 0 else cursor + m
    decreases m
  {
    hide Succ;
    if m == 0 {
    } else {
      NextSlot(queues, cursor, m);
      if cursor + 1 == |queues| {
        assert m == 1 && Polled(queues, 0, 0) == [];
      } else {
        PolledWalks(queues, cursor + 1, m - 1);
        assert cursor + 1 + (m - 1) == cursor + m;
      }
    }
  }

  lemma CountTurned(queues: seq<string>, cursor: nat, q: string)
    requires cursor < |queues|
    ensures Count(queues[cursor..cursor + (|queues| - cursor)] + queues[0..cursor], q) == Count(queues, q)
  {
    var head, tail := queues[..cursor], queues[cursor..];
    assert cursor + (|queues| - cursor) == |queues|;
    assert queues[cursor..|queues|] == tail && queues[0..cursor] == head;
    CountConcat(tail, head, q);
    CountConcat(head, tail, q);
    assert head + tail == queues;
  }

  /** One full turn from any position: every slot once. */
  lemma FullTurn(queues: seq<string>, cursor: nat, q: string)
    requires cursor < |queues|
    ensures Count(Polled(queues, cursor, |queues|), q) == Count(queues, q)
    ensures Cursor(|queues|, cursor, |queues|) == cursor
  {
    hide Succ, Count, Polled, Cursor;
    var n := |queues|;
    var head := n - cursor;
    assert head + cursor == n;
    PolledSplit(queues, cursor, head, cursor);
    PolledWalks(queues, cursor, head);
    PolledWalks(queues, 0, cursor);
    CursorSplit(n, cursor, head, cursor);
    CountTurned(queues, cursor, q);
  }

  lemma {:induction false} CursorSplit(n: nat, cursor: nat, a: nat, b: nat)
    requires cursor < n
    ensures Cursor(n, cursor, a + b) == Cursor(n, Cursor(n, cursor, a), b)
    decreases a
  {
    hide Succ;
    if a == 0 {
    } else {
      CursorSplit(n, Succ(cursor, n), a - 1, b);
    }
  }

  /** `k` full turns poll each queue exactly `k` times its share, whatever the starting position. */
  lemma {:induction false} TurnsAreFair(queues: seq<string>, cursor: nat, k: nat, q: string)
    requires cursor < |queues|
    ensures Count(Polled(queues, cursor, k * |queues|), q) == k * Count(queues, q)
    ensures Cursor(|queues|, cursor, k * |queues|) == cursor
    decreases k
  {
    hide Succ;
    if k == 0 {
    } else {
      var n := |queues|;
      var rest := (k - 1) * n;
      assert k * n == n + rest;
      assert k * Count(queues, q) == Count(queues, q) + (k - 1) * Count(queues, q);
      FullTurn(queues, cursor, q);
      TurnsAreFair(queues, cursor, k - 1, q);
      PolledSplit(queues, cursor, n, rest);
      CursorSplit(n, cursor, n, rest);
      CountConcat(Polled(queues, cursor, n), Polled(queues, cursor, rest), q);
    }
  }

  /** Less than a turn polls a queue at most its share. */
  lemma PartTurn(queues: seq<string>, cursor: nat, r: nat, q: string)
    requires cursor < |queues| && r <= |queues|
    ensures Count(Polled(queues, cursor, r), q) <= Count(queues, q)
  {
    hide Succ, Polled, Cursor, Count;
    var n := |queues|;
    FullTurn(queues, cursor, q);
    PolledSplit(queues, cursor, r, n - r);
    CountConcat(Polled(queues, cursor, r), Polled(queues, Cursor(n, cursor, r), n - r), q);
  }

  lemma AnyWindow(queues: seq<string>, cursor: nat, k: nat, r: nat, q: string)
    requires cursor < |queues| && r < |queues|
    ensures var polls := Count(Polled(queues, cursor, k * |queues| + r), q);
      && k * Count(queues, q) <= polls <= (if r == 0 then k else k + 1) * Count(queues, q)
  {
    var n := |queues|;
    assert r == 0 ==> Count(Polled(queues, cursor, r), q) == 0;
    assert (k + 1) * Count(queues, q) == k * Count(queues, q) + Count(queues, q);
    hide Succ, Polled, Cursor, Count;
    TurnsAreFair(queues, cursor, k, q);
    PolledSplit(queues, cursor, k * n, r);
    CountConcat(Polled(queues, cursor, k * n), Polled(queues, cursor, r), q);
    PartTurn(queues, cursor, r, q);
  }

  // ---- in terms of the configuration

  /** What the polls owe a queue per turn; without any configuration only the default queue is polled. */
  function Entitled(configs: seq<QueueConfig>, q: string): nat {
    if configs == [] then (if q == "default" then 1 else 0) else Share(configs, q)
  }

  /** The length of a turn. */
  function TotalWeight(configs: seq<QueueConfig>): nat {
    if configs == [] then 0 else (if configs[0].weight > 0 then configs[0].weight else 1) + TotalWeight(configs[1..])
  }

  lemma {:induction false} SlotsLength(configs: seq<QueueConfig>)
    ensures |Slots(configs)| == TotalWeight(configs)
  {
    if configs == [] {
    } else {
      SlotsLength(configs[1..]);
    }
  }

  /** The expanded slice is one turn: as long as the weights together, each queue in it as often as its
      entries weigh. */
  lemma ExpandedGivesShares(configs: seq<QueueConfig>, q: string)
    ensures |Expanded(configs)| == if configs == [] then 1 else TotalWeight(configs)
    ensures Count(Expanded(configs), q) == Entitled(configs, q)
  {
    SlotsLength(configs);
    SlotsGiveShares(configs, q);
    if configs == [] {
      assert ["default"][1..] == [];
    } else {
      assert TotalWeight(configs) >= Weight(configs[0]) >= 1;
    }
  }

  function CeilDiv(m: nat, n: nat): nat
    requires n > 0
  {
    if m % n == 0 then m / n else m / n + 1
  }

  /** Weighted fairness over any window of `m` polls from any position: with turns of `n` slots, a queue
      is polled between `floor(m / n)` and `ceil(m / n)` times its weight, so exactly in proportion
      whenever `n` divides `m`. */
  lemma WeightedFairness(configs: seq<QueueConfig>, cursor: nat, m: nat, q: string)
    requires cursor < |Expanded(configs)|
    ensures var n := |Expanded(configs)|;
      var polls := Count(Polled(Expanded(configs), cursor, m), q);
      m / n * Entitled(configs, q) <= polls <= CeilDiv(m, n) * Entitled(configs, q)
  {
    hide Polled, Count, Share, Slots, Entitled, Expanded;
    ExpandedGivesShares(configs, q);
    var n := |Expanded(configs)|;
    assert m == m / n * n + m % n;
    AnyWindow(Expanded(configs), cursor, m / n, m % n, q);
  }
}
