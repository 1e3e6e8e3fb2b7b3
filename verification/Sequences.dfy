/** An optional value. */
module Options {
  datatype Option<T> = None | Some(value: T)
}

/** Counting over sequences and over finite maps. */
module Sequences {

  function Count<T(==)>(s: seq<T>, x: T): nat {
    if s == [] then 0 else (if s[0] == x then 1 else 0) + Count(s[1..], x)
  }

  lemma {:induction false} CountConcat<T>(a: seq<T>, b: seq<T>, x: T)
    ensures Count(a + b, x) == Count(a, x) + Count(b, x)
  {
    if a == [] {
      assert a + b == b;
    } else {
      CountConcat(a[1..], b, x);
      assert (a + b)[1..] == a[1..] + b;
    }
  }

  lemma {:induction false} CountPositive<T>(s: seq<T>, x: T)
    ensures Count(s, x) > 0 <==> x in s
  {
    if s == [] {
    } else {
      CountPositive(s[1..], x);
      assert s == [s[0]] + s[1..];
    }
  }

  /** A fixed choice of key, so that `MapSum` is a function. */
  ghost function Pick<K(!new), V>(m: map<K, V>): (k: K)
    requires m != map[]
    ensures k in m
  {
    var k :| k in m.Keys; k
  }

  /** The sum of `f` over the values of a finite map. */
  ghost function MapSum<K(!new), V>(m: map<K, V>, f: V -> nat): nat
    decreases |m|
  {
    if m == map[] then 0
    else
      var k := Pick(m);
      f(m[k]) + MapSum(m - {k}, f)
  }

  lemma {:induction false} MapSumSplit<K(!new), V>(m: map<K, V>, f: V -> nat, k: K)
    requires k in m
    ensures MapSum(m, f) == f(m[k]) + MapSum(m - {k}, f)
    decreases |m|
  {
    var p := Pick(m);
    if p != k {
      MapSumSplit(m - {p}, f, k);
      MapSumSplit(m - {k}, f, p);
      assert m - {p} - {k} == m - {k} - {p};
    }
  }

  lemma MapSumUpdate<K(!new), V>(m: map<K, V>, f: V -> nat, k: K, v: V)
    ensures MapSum(m[k := v], f) == MapSum(m, f) - (if k in m then f(m[k]) else 0) + f(v)
  {
    var m' := m[k := v];
    MapSumSplit(m', f, k);
    assert m' - {k} == m - {k};
    if k in m {
      MapSumSplit(m, f, k);
    } else {
      assert m - {k} == m;
    }
  }

  lemma MapSumRemove<K(!new), V>(m: map<K, V>, f: V -> nat, k: K)
    ensures MapSum(m - {k}, f) == MapSum(m, f) - (if k in m then f(m[k]) else 0)
  {
    if k in m {
      MapSumSplit(m, f, k);
    } else {
      assert m - {k} == m;
    }
  }

  /** A key weighs no more than the whole map, and two keys no more together. */
  lemma MapSumAtLeast<K(!new), V>(m: map<K, V>, f: V -> nat, k: K, k': K)
    requires k in m && k' in m
    ensures f(m[k]) <= MapSum(m, f)
    ensures k != k' ==> f(m[k]) + f(m[k']) <= MapSum(m, f)
  {
    MapSumSplit(m, f, k);
    if k != k' {
      MapSumSplit(m - {k}, f, k');
    }
  }

  lemma {:induction false} MapSumOnly<K(!new), V>(m: map<K, V>, f: V -> nat, k: K)
    requires forall k' :: k' in m && k' != k ==> f(m[k']) == 0
    ensures MapSum(m, f) == if k in m then f(m[k]) else 0
    decreases |m|
  {
    if m != map[] {
      MapSumOnly(m - {Pick(m)}, f, k);
    }
  }

  /** A positive sum has a key of positive weight. */
  lemma {:induction false} MapSumWitness<K(!new), V>(m: map<K, V>, f: V -> nat) returns (k: K)
    requires MapSum(m, f) > 0
    ensures k in m && f(m[k]) > 0
    decreases |m|
  {
    k := Pick(m);
    if f(m[k]) == 0 {
      k := MapSumWitness(m - {k}, f);
    }
  }
}
