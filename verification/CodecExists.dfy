/** A codec with the laws that the Redis results assume of JSON: they can all be met at once, with every
    argument list canonical. */
module CodecExists {
  import opened Options
  import opened Payload
  import opened Redis

  function Number(n: nat): Bytes {
    if n == 0 then [0] else [1] + Number(n - 1)
  }

  function Signed(i: int): Bytes {
    if i >= 0 then [0] + Number(i) else [1] + Number(-i)
  }

  function Text(s: string): Bytes {
    if s == [] then [0] else [1] + (Number(s[0] as int) + Text(s[1..]))
  }

  function Texts(ss: seq<string>): Bytes {
    if ss == [] then [0] else [1] + (Text(ss[0]) + Texts(ss[1..]))
  }

  function StateCode(s: JobState): nat {
    match s
    case Unset => 0
    case Pending => 1
    case Active => 2
    case Success => 3
    case Failed => 4
    case Dead => 5
  }

  /** Every field after the other, each marking its own end. */
  function Encode(j: Job): Bytes {
    Text(j.jid) + (Text(j.kind) + (Texts(j.args) + (Text(j.queue) + EncodeRest(j))))
  }

  function EncodeRest(j: Job): Bytes {
    Signed(j.retry) + (Signed(j.retryCount) + (Signed(j.createdAt) + (Signed(j.enqueuedAt)
      + (Number(if j.backtrace then 1 else 0) + (Number(StateCode(j.state)) + [])))))
  }

  lemma FirstByte(a: Byte, s: Bytes, x: Bytes, b: Byte, t: Bytes, y: Bytes)
    requires [a] + s + x == [b] + t + y
    ensures a == b && s + x == t + y
  {
    assert ([a] + s + x)[0] == a && ([b] + t + y)[0] == b;
    assert ([a] + s + x)[1..] == s + x && ([b] + t + y)[1..] == t + y;
  }

  lemma Regroup(s: Bytes, t: Bytes, x: Bytes)
    ensures s + t + x == s + (t + x)
  {
  }

  lemma {:induction false} NumberEnds(a: nat, x: Bytes, b: nat, y: Bytes)
    requires Number(a) + x == Number(b) + y
    ensures a == b && x == y
  {
    var s, t := if a == 0 then [] else Number(a - 1), if b == 0 then [] else Number(b - 1);
    assert Number(a) == [if a == 0 then 0 else 1] + s && Number(b) == [if b == 0 then 0 else 1] + t;
    FirstByte(if a == 0 then 0 else 1, s, x, if b == 0 then 0 else 1, t, y);
    if a == 0 {
      assert s + x == x && t + y == y;
    } else {
      NumberEnds(a - 1, x, b - 1, y);
    }
  }

  lemma SignedEnds(a: int, x: Bytes, b: int, y: Bytes)
    requires Signed(a) + x == Signed(b) + y
    ensures a == b && x == y
  {
    hide Number;
    var m, n := if a >= 0 then a else -a, if b >= 0 then b else -b;
    FirstByte(if a >= 0 then 0 else 1, Number(m), x, if b >= 0 then 0 else 1, Number(n), y);
    NumberEnds(m, x, n, y);
  }

  lemma {:induction false} TextEnds(a: string, x: Bytes, b: string, y: Bytes)
    requires Text(a) + x == Text(b) + y
    ensures a == b && x == y
  {
    hide Number;
    var s := if a == [] then [] else Number(a[0] as int) + Text(a[1..]);
    var t := if b == [] then [] else Number(b[0] as int) + Text(b[1..]);
    assert Text(a) == [if a == [] then 0 else 1] + s && Text(b) == [if b == [] then 0 else 1] + t;
    FirstByte(if a == [] then 0 else 1, s, x, if b == [] then 0 else 1, t, y);
    if a == [] {
      assert s + x == x && t + y == y;
    } else {
      hide Text;
      Regroup(Number(a[0] as int), Text(a[1..]), x);
      Regroup(Number(b[0] as int), Text(b[1..]), y);
      NumberEnds(a[0] as int, Text(a[1..]) + x, b[0] as int, Text(b[1..]) + y);
      TextEnds(a[1..], x, b[1..], y);
      assert a == [a[0]] + a[1..] && b == [b[0]] + b[1..];
    }
  }

  lemma {:induction false} TextsEnd(a: seq<string>, x: Bytes, b: seq<string>, y: Bytes)
    requires Texts(a) + x == Texts(b) + y
    ensures a == b && x == y
  {
    hide Text;
    var s := if a == [] then [] else Text(a[0]) + Texts(a[1..]);
    var t := if b == [] then [] else Text(b[0]) + Texts(b[1..]);
    assert Texts(a) == [if a == [] then 0 else 1] + s && Texts(b) == [if b == [] then 0 else 1] + t;
    FirstByte(if a == [] then 0 else 1, s, x, if b == [] then 0 else 1, t, y);
    if a == [] {
      assert s + x == x && t + y == y;
    } else {
      hide Texts;
      Regroup(Text(a[0]), Texts(a[1..]), x);
      Regroup(Text(b[0]), Texts(b[1..]), y);
      TextEnds(a[0], Texts(a[1..]) + x, b[0], Texts(b[1..]) + y);
      TextsEnd(a[1..], x, b[1..], y);
      assert a == [a[0]] + a[1..] && b == [b[0]] + b[1..];
    }
  }

  lemma RestInjective(j: Job, k: Job)
    requires EncodeRest(j) == EncodeRest(k)
    ensures j.retry == k.retry && j.retryCount == k.retryCount && j.createdAt == k.createdAt
    ensures j.enqueuedAt == k.enqueuedAt && j.backtrace == k.backtrace && j.state == k.state
  {
    hide Signed, Number;
    var j6, k6 := Number(StateCode(j.state)) + [], Number(StateCode(k.state)) + [];
    var j5, k5 := Number(if j.backtrace then 1 else 0) + j6, Number(if k.backtrace then 1 else 0) + k6;
    var j4, k4 := Signed(j.enqueuedAt) + j5, Signed(k.enqueuedAt) + k5;
    var j3, k3 := Signed(j.createdAt) + j4, Signed(k.createdAt) + k4;
    var j2, k2 := Signed(j.retryCount) + j3, Signed(k.retryCount) + k3;
    SignedEnds(j.retry, j2, k.retry, k2);
    SignedEnds(j.retryCount, j3, k.retryCount, k3);
    SignedEnds(j.createdAt, j4, k.createdAt, k4);
    SignedEnds(j.enqueuedAt, j5, k.enqueuedAt, k5);
    NumberEnds(if j.backtrace then 1 else 0, j6, if k.backtrace then 1 else 0, k6);
    NumberEnds(StateCode(j.state), [], StateCode(k.state), []);
  }

  lemma EncodeInjective(j: Job, k: Job)
    requires Encode(j) == Encode(k) && j.raw == k.raw
    ensures j == k
  {
    hide EncodeRest, Text, Texts;
    var j4, k4 := Text(j.queue) + EncodeRest(j), Text(k.queue) + EncodeRest(k);
    var j3, k3 := Texts(j.args) + j4, Texts(k.args) + k4;
    TextEnds(j.jid, Text(j.kind) + j3, k.jid, Text(k.kind) + k3);
    TextEnds(j.kind, j3, k.kind, k3);
    TextsEnd(j.args, j4, k.args, k4);
    TextEnds(j.queue, EncodeRest(j), k.queue, EncodeRest(k));
    RestInjective(j, k);
  }

  /** The job that bytes encode, if they encode one. */
  ghost function Inverse(b: Bytes): (r: Option<Job>)
    ensures r.Some? ==> r.value.raw == [] && Encode(r.value) == b
    ensures r == None ==> forall j: Job :: Encode(j) == b ==> j.raw != []
  {
    if j: Job :| j.raw == [] && Encode(j) == b then Some(j) else None
  }

  lemma LawfulCodecExists() returns (c: Codec)
    ensures Lawful(c) && forall args :: c.canonical(args)
  {
    c := Codec((j: Job) => Encode(j), (b: Bytes) => Inverse(b), (args: seq<string>) => true);
    forall j: Job
      ensures Encode(j) == Encode(j.(raw := [])) && Encode(j) != []
    {
      assert Text(j.jid) != [];
    }
    assert Inverse([]) == None;
    forall j: Job | j.raw == []
      ensures Inverse(Encode(j)) == Some(j)
    {
      EncodeInjective(Inverse(Encode(j)).value, j);
    }
    hide Encode, Inverse;
  }
}
