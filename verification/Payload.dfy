/** Job records: the retry bounds, the backoff delay and the normalisation done when a job is decoded. */
module Payload {

  const MAX_RETRY_COUNT := 25
  const MAX_BACKOFF_SHIFT := 30

  /** Time is counted in nanoseconds, as `time.Duration` is. */
  const SECOND := 1_000_000_000
  /** `DefaultLeaseDuration`, shared by both brokers. */
  const LEASE := 300 * SECOND

  const MAX_INT64 := 0x7fff_ffff_ffff_ffff

  /** `Unset` is the empty string a foreign producer may leave in the JSON. */
  datatype JobState = Unset | Pending | Active | Success | Failed | Dead

  type Byte = bv8
  type Bytes = seq<Byte>

  /** `kind` is the worker class; `raw` is `RawPayload`: the exact bytes leased at dequeue, not serialised. */
  datatype Job = Job(
    jid: string, kind: string, args: seq<string>, queue: string,
    retry: int, retryCount: int, createdAt: int, enqueuedAt: int, backtrace: bool,
    state: JobState, raw: Bytes)

  function Clamp(n: int): (r: int)
    ensures 0 <= r <= 25 && (0 <= n <= 25 ==> r == n) && (n > 25 ==> r == 25) && (n < 0 ==> r == 0)
  {
    if n > MAX_RETRY_COUNT then MAX_RETRY_COUNT else if n < 0 then 0 else n
  }

  function NewJob(jid: string, kind: string, queue: string, args: seq<string>, now: int): Job {
    Job(jid, kind, args, queue, 5, 0, now, now, false, Pending, [])
  }

  function SetRetry(j: Job, count: int): Job {
    j.(retry := Clamp(count))
  }

  /** What `FromJSON` does to the freshly unmarshalled record. */
  function Normalise(j: Job): Job {
    j.(state := if j.state == Unset then Pending else j.state,
       retry := Clamp(j.retry),
       retryCount := Clamp(j.retryCount))
  }

  /** Records that `Normalise` leaves alone. */
  predicate Normal(j: Job) {
    && j.state != Unset
    && 0 <= j.retry <= MAX_RETRY_COUNT
    && 0 <= j.retryCount <= MAX_RETRY_COUNT
  }

  /** What a client makes, with any retry setting, is within the bounds and starts without attempts. */
  lemma ClientJobIsNormal(jid: string, kind: string, queue: string, args: seq<string>, now: int, count: int)
    ensures Normal(NewJob(jid, kind, queue, args, now)) && NewJob(jid, kind, queue, args, now).retry == 5
    ensures var j := SetRetry(NewJob(jid, kind, queue, args, now), count);
      && Normal(j) && j.retryCount == 0 && j.state == Pending && j.queue == queue && j.args == args
      && (0 <= count <= 25 ==> j.retry == count) && (count > 25 ==> j.retry == 25) && (count < 0 ==> j.retry == 0)
  {
  }

  lemma NormaliseProjects(j: Job)
    ensures Normal(Normalise(j)) && Normalise(Normalise(j)) == Normalise(j)
    ensures Normalise(j) == j <==> Normal(j)
    ensures var j' := Normalise(j);
      && (j.retry > 25 ==> j'.retry == 25) && (j.retry < 0 ==> j'.retry == 0)
      && (j.retryCount > 25 ==> j'.retryCount == 25) && (j.retryCount < 0 ==> j'.retryCount == 0)
      && j'.state == (if j.state == Unset then Pending else j.state)
      && j' == j.(retry := j'.retry, retryCount := j'.retryCount, state := j'.state)
  {
  }

  function Pow2(n: nat): (p: nat)
    ensures p >= 1
  {
    if n == 0 then 1 else 2 * Pow2(n - 1)
  }

  function Shift(retryCount: nat): nat {
    if retryCount > MAX_BACKOFF_SHIFT then MAX_BACKOFF_SHIFT else retryCount
  }

  /** The wait before attempt `retryCount + 1`. */
  function Delay(retryCount: nat): nat {
    Pow2(Shift(retryCount)) * SECOND
  }

  lemma {:induction false} Pow2Monotone(a: nat, b: nat)
    requires a <= b
    ensures Pow2(a) <= Pow2(b)
  {
    if a < b {
      Pow2Monotone(a, b - 1);
    }
  }

  lemma Pow2Thirty()
    ensures Pow2(30) == 1_073_741_824
  {
    assert Pow2(10) == 1024;
    assert Pow2(20) == 1024 * Pow2(10);
    assert Pow2(30) == 1024 * Pow2(20);
  }

  /** Below the cap each delay is twice the one before; the cap never bites for a bounded job;
      and no retry count, however large, overflows the 64-bit nanosecond delay. */
  lemma DelayDoublesAndFits(retryCount: nat)
    ensures Delay(0) == 1_000_000_000
    ensures 1 <= retryCount <= 30 ==> Delay(retryCount) == 2 * Delay(retryCount - 1)
    ensures retryCount <= 25 ==> Delay(retryCount) == Pow2(retryCount) * 1_000_000_000
    ensures 0 < Delay(retryCount) <= 0x7fff_ffff_ffff_ffff
    ensures retryCount >= 30 ==> Delay(retryCount) == Delay(30)
  {
    Pow2Monotone(Shift(retryCount), MAX_BACKOFF_SHIFT);
    Pow2Thirty();
  }
}
