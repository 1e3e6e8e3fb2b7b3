/** The job lifecycle protocol: clients, fetchers, workers, retry loops and reapers of any number of
    processors interleaving over one in-memory broker. Each broker call is one atomic step; the points
    between calls at which a goroutine can be overtaken are the phases below. */
module Lifecycle {
  import opened Options
  import opened Sequences
  import opened Payload
  import opened MemoryBroker

  datatype Role = Fetcher | Worker(index: nat) | RetryLoop | Reaper

  /** A goroutine of processor `pid`. */
  datatype Actor = Actor(pid: nat, role: Role)

  datatype Outcome = Succeeded | Failing | CircuitOpen

  datatype Destination = ToRetry(at: int) | ToDead

  datatype Phase =
    | Idle
    | Polling(queue: string)                           // fetcher inside Dequeue
    | Holding(lease: Timed, queue: string)             // fetcher offering a job to the workers
    | PuttingBack(lease: Timed, queue: string)         // fetcher about to re-enqueue on shutdown
    | Executing(lease: Timed)                          // worker inside the handler
    | Recording(lease: Timed, outcome: Outcome)        // handler returned, counter not yet bumped
    | Placing(lease: Timed, to: Destination)           // about to add to the retry or dead set
    | Acking(jid: Jid, placed: bool)                   // placed (or succeeded) but not yet acked
    | Batch(due: seq<Jid>)                             // retry loop going through a batch
    | Carrying(jid: Jid, due: seq<Jid>)                // taken out of retry, not yet enqueued
    | Refused(jid: Jid, due: seq<Jid>, to: Destination) // re-enqueue refused, to be placed again
    | Reaped(orphans: seq<Jid>)                        // orphans taken out of processing
    | Stopped
    | Crashed

  /** The shared job record. The last four fields are history only: handler failures that were not
      circuit-open, refused retry re-enqueues, the time of the first of either, and the sum of the waits
      that they imposed. */
  datatype Record = Record(
    queue: string, retry: nat, retryCount: nat,
    failures: nat, refusals: nat, charged: Option<int>, imposed: nat)

  /** `jobs` holds every job ever accepted; `succeeded` and `dropped` are history. */
  datatype State = State(
    now: int,
    store: Store,
    jobs: map<Jid, Record>,
    actors: map<Actor, Phase>,
    cancelled: set<nat>,
    succeeded: set<Jid>,
    dropped: set<Jid>)

  /** The queue names each processor is configured with. */
  datatype Config = Config(known: map<nat, set<string>>)

  datatype Step =
    | Tick(now: int)
    | Submit(jid: Jid, queue: string, retry: nat)
    | Cancel(pid: nat)
    | Close
    | DeleteQueue(queue: string)
    | Poll(actor: Actor, queue: string)
    | PollTimeout(actor: Actor)
    | Dequeue(actor: Actor)
    | Handoff(actor: Actor, worker: Actor)
    | Interrupt(actor: Actor)
    | PutBack(actor: Actor)
    | Return(actor: Actor, outcome: Outcome)
    | Record(actor: Actor)
    | Place(actor: Actor)
    | Ack(actor: Actor)
    | RetryTick(actor: Actor)
    | RetryNext(actor: Actor)
    | RetryEnqueue(actor: Actor)
    | RetryPlace(actor: Actor)
    | ReapTick(actor: Actor)
    | ReapNext(actor: Actor)
    | Exit(actor: Actor)
    | Crash(actor: Actor)

  const RETRY_BATCH := 100
  const CIRCUIT_OPEN_WAIT := 5 * SECOND
  const REFUSED_WAIT := 60 * SECOND

  predicate Known(c: Config, a: Actor, q: string) {
    a.pid in c.known && q in c.known[a.pid]
  }

  ghost predicate Init(s: State) {
    && IsEmpty(s.store) && s.jobs == map[] && s.cancelled == {} && s.succeeded == {} && s.dropped == {}
    && forall a :: a in s.actors ==> s.actors[a] == Idle
  }

  predicate Enabled(c: Config, s: State, t: Step) {
    match t
    case Tick(now) => s.now <= now
    case Submit(j, _, r) => j !in s.jobs && r <= MAX_RETRY_COUNT && Accepts(s.store, false)
    case Cancel(_) => true
    case Close => true
    case DeleteQueue(_) => true
    case Poll(a, q) =>
      a in s.actors && a.role == Fetcher && s.actors[a] == Idle && a.pid !in s.cancelled && Known(c, a, q)
    case PollTimeout(a) => a in s.actors && s.actors[a].Polling?
    case Dequeue(a) => a in s.actors && s.actors[a].Polling? && Waiting(s.store, s.actors[a].queue) != []
    case Handoff(a, w) =>
      && a in s.actors && s.actors[a].Holding?
      && w in s.actors && w.pid == a.pid && w.role.Worker? && s.actors[w] == Idle
    case Interrupt(a) => a in s.actors && s.actors[a].Holding? && a.pid in s.cancelled
    case PutBack(a) => a in s.actors && s.actors[a].PuttingBack?
    case Return(a, _) => a in s.actors && s.actors[a].Executing?
    case Record(a) =>
      a in s.actors && s.actors[a].Recording? && s.actors[a].lease.jid in s.jobs
    case Place(a) => a in s.actors && s.actors[a].Placing?
    case Ack(a) => a in s.actors && s.actors[a].Acking?
    case RetryTick(a) => a in s.actors && a.role == RetryLoop && s.actors[a] == Idle
    case RetryNext(a) =>
      a in s.actors && s.actors[a].Batch? && (s.actors[a].due != [] ==> s.actors[a].due[0] in s.jobs)
    case RetryEnqueue(a) => a in s.actors && s.actors[a].Carrying? && s.actors[a].jid in s.jobs
    case RetryPlace(a) => a in s.actors && s.actors[a].Refused?
    case ReapTick(a) => a in s.actors && a.role == Reaper && s.actors[a] == Idle
    case ReapNext(a) =>
      a in s.actors && s.actors[a].Reaped? && (s.actors[a].orphans != [] ==> s.actors[a].orphans[0] in s.jobs)
    case Exit(a) =>
      && a in s.actors && s.actors[a] == Idle
      && if a.role.Worker?
         then Actor(a.pid, Fetcher) in s.actors && s.actors[Actor(a.pid, Fetcher)].Stopped?
         else a.pid in s.cancelled
    case Crash(a) => a in s.actors && s.actors[a] != Stopped
  }

  function Move(s: State, a: Actor, p: Phase): State {
    s.(actors := s.actors[a := p])
  }

  function Add(s: Store, j: Jid, to: Destination): Store {
    match to
    case ToRetry(at) => s.(retry := s.retry + [Timed(j, at)])
    case ToDead => s.(dead := s.dead + [j])
  }

  /** One more attempt used at `now`, at the price of a wait. */
  function Charge(job: Record, now: int, wait: nat): Record {
    job.(retryCount := job.retryCount + 1, imposed := job.imposed + wait,
         charged := if job.charged == None then Some(now) else job.charged)
  }

  /** `handleFailure` up to its broker call: what happens to the record, and where the job goes. */
  function AfterFailure(job: Record, now: int): (Record, Destination) {
    var count := job.retryCount + 1;
    var wait := if count <= job.retry then Delay(count) else 0;
    (Charge(job, now, wait).(failures := job.failures + 1),
     if count <= job.retry then ToRetry(now + wait) else ToDead)
  }

  /** The retry loop's reaction to a refused re-enqueue. */
  function AfterRefusal(job: Record, now: int): (Record, Destination) {
    var count := job.retryCount + 1;
    var wait := if count > job.retry then 0 else REFUSED_WAIT;
    (Charge(job, now, wait).(refusals := job.refusals + 1),
     if count > job.retry then ToDead else ToRetry(now + wait))
  }

  /** The jobs that exist only in a goroutine's local variables. */
  function InHand(p: Phase): seq<Jid> {
    match p
    case Carrying(j, _) => [j]
    case Refused(j, _, _) => [j]
    case Reaped(orphans) => orphans
    case _ => []
  }

  // ---- the steps of the fetcher and of the workers

  function Leased(s: State, a: Actor): State
    requires a in s.actors && s.actors[a].Polling? && Waiting(s.store, s.actors[a].queue) != []
  {
    var q := s.actors[a].queue;
    Move(s, a, Holding(Timed(Waiting(s.store, q)[0], s.now + LEASE), q)).(store := Lease(s.store, q, s.now))
  }

  function HandedOff(s: State, a: Actor, w: Actor): State
    requires a in s.actors && s.actors[a].Holding? && w in s.actors && s.actors[w] == Idle
  {
    Move(Move(s, a, Idle), w, Executing(s.actors[a].lease))
  }

  /** Shutdown of a fetcher that holds a job: back into its queue, or into retry if that is refused. */
  function GivenBack(s: State, a: Actor): State
    requires a in s.actors && s.actors[a].PuttingBack?
  {
    var p := s.actors[a];
    if Accepts(s.store, false)
    then Move(s, a, Acking(p.lease.jid, true)).(store := Push(s.store, p.queue, p.lease.jid))
    else Move(s, a, Placing(p.lease, ToRetry(s.now)))
  }

  function Returned(s: State, a: Actor, outcome: Outcome): State
    requires a in s.actors && s.actors[a].Executing?
  {
    var l := s.actors[a].lease;
    Move(s, a, Recording(l, outcome))
      .(succeeded := if outcome == Succeeded then s.succeeded + {l.jid} else s.succeeded)
  }

  function Recorded(s: State, a: Actor): State
    requires a in s.actors && s.actors[a].Recording? && s.actors[a].lease.jid in s.jobs
  {
    var p := s.actors[a];
    match p.outcome
    case Succeeded =>
      Move(s, a, Acking(p.lease.jid, false)).(store := s.store.(processed := s.store.processed + 1))
    case CircuitOpen =>
      Move(s, a, Placing(p.lease, ToRetry(s.now + CIRCUIT_OPEN_WAIT)))
        .(store := s.store.(failed := s.store.failed + 1))
    case Failing =>
      var (job, to) := AfterFailure(s.jobs[p.lease.jid], s.now);
      Move(s, a, Placing(p.lease, to))
        .(store := s.store.(failed := s.store.failed + 1), jobs := s.jobs[p.lease.jid := job])
  }

  function PlacedAway(s: State, a: Actor): State
    requires a in s.actors && s.actors[a].Placing?
  {
    var p := s.actors[a];
    Move(s, a, Acking(p.lease.jid, true)).(store := Add(s.store, p.lease.jid, p.to))
  }

  /** The ack takes the first processing entry of the JID, whoever leased it. */
  function Acked(s: State, a: Actor): State
    requires a in s.actors && s.actors[a].Acking?
  {
    Move(s, a, if a.role == Fetcher then Stopped else Idle)
      .(store := s.store.(processing := RemoveFirst(s.store.processing, s.actors[a].jid)))
  }

  // ---- the steps of the retry loop

  function BatchRead(s: State, a: Actor): State {
    Move(s, a, Batch(Jids(Due(s.store.retry, s.now, RETRY_BATCH))))
  }

  function NextDue(c: Config, s: State, a: Actor): State
    requires a in s.actors && s.actors[a].Batch? && (s.actors[a].due != [] ==> s.actors[a].due[0] in s.jobs)
  {
    var due := s.actors[a].due;
    if due == [] then Move(s, a, Idle)
    else if !Known(c, a, s.jobs[due[0]].queue) then Move(s, a, Batch(due[1..]))
    else Move(s, a, Carrying(due[0], due[1..]))
           .(store := s.store.(retry := RemoveFirst(s.store.retry, due[0])))
  }

  function Requeued(s: State, a: Actor): State
    requires a in s.actors && s.actors[a].Carrying? && s.actors[a].jid in s.jobs
  {
    var Carrying(j, due) := s.actors[a];
    if Accepts(s.store, a.pid in s.cancelled)
    then Move(s, a, Batch(due)).(store := Push(s.store, s.jobs[j].queue, j))
    else
      var (job, to) := AfterRefusal(s.jobs[j], s.now);
      Move(s, a, Refused(j, due, to)).(jobs := s.jobs[j := job])
  }

  function Replaced(s: State, a: Actor): State
    requires a in s.actors && s.actors[a].Refused?
  {
    var Refused(j, due, to) := s.actors[a];
    Move(s, a, Batch(due)).(store := Add(s.store, j, to))
  }

  // ---- the steps of the reaper

  function OrphansTaken(s: State, a: Actor): State {
    Move(s, a, Reaped(Jids(Before(s.store.processing, s.now))))
      .(store := s.store.(processing := NotBefore(s.store.processing, s.now)))
  }

  function NextOrphan(c: Config, s: State, a: Actor): State
    requires a in s.actors && s.actors[a].Reaped? && (s.actors[a].orphans != [] ==> s.actors[a].orphans[0] in s.jobs)
  {
    var orphans := s.actors[a].orphans;
    if orphans == [] then Move(s, a, Idle)
    else if Reclaims(c, s, a)
    then Move(s, a, Reaped(orphans[1..])).(store := Push(s.store, s.jobs[orphans[0]].queue, orphans[0]))
    else Move(s, a, Reaped(orphans[1..])).(dropped := s.dropped + {orphans[0]})
  }

  /** The guard of the two branches in which the reaper lets go of an orphan for good. */
  predicate Reclaims(c: Config, s: State, a: Actor)
    requires a in s.actors && s.actors[a].Reaped? && s.actors[a].orphans != []
    requires s.actors[a].orphans[0] in s.jobs
  {
    Known(c, a, s.jobs[s.actors[a].orphans[0]].queue) && Accepts(s.store, a.pid in s.cancelled)
  }

  // ---- the environment

  function Submitted(s: State, j: Jid, q: string, retry: nat): State {
    s.(store := Push(s.store, q, j), jobs := s.jobs[j := Record.Record(q, retry, 0, 0, 0, None, 0)])
  }

  function Deleted(s: State, q: string): State {
    s.(store := s.store.(queues := s.store.queues - {q}),
       dropped := s.dropped + set j | j in Waiting(s.store, q))
  }

  function Died(s: State, a: Actor): State
    requires a in s.actors
  {
    Move(s, a, Crashed).(dropped := s.dropped + set j | j in InHand(s.actors[a]))
  }

  function Apply(c: Config, s: State, t: Step): State
    requires Enabled(c, s, t)
  {
    match t
    case Tick(now) => s.(now := now)
    case Submit(j, q, r) => Submitted(s, j, q, r)
    case Cancel(p) => s.(cancelled := s.cancelled + {p})
    case Close => s.(store := s.store.(closed := true))
    case DeleteQueue(q) => Deleted(s, q)
    case Poll(a, q) => Move(s, a, Polling(q))
    case PollTimeout(a) => Move(s, a, Idle)
    case Dequeue(a) => Leased(s, a)
    case Handoff(a, w) => HandedOff(s, a, w)
    case Interrupt(a) => Move(s, a, PuttingBack(s.actors[a].lease, s.actors[a].queue))
    case PutBack(a) => GivenBack(s, a)
    case Return(a, outcome) => Returned(s, a, outcome)
    case Record(a) => Recorded(s, a)
    case Place(a) => PlacedAway(s, a)
    case Ack(a) => Acked(s, a)
    case RetryTick(a) => BatchRead(s, a)
    case RetryNext(a) => NextDue(c, s, a)
    case RetryEnqueue(a) => Requeued(s, a)
    case RetryPlace(a) => Replaced(s, a)
    case ReapTick(a) => OrphansTaken(s, a)
    case ReapNext(a) => NextOrphan(c, s, a)
    case Exit(a) => Move(s, a, Stopped)
    case Crash(a) => Died(s, a)
  }

  ghost predicate Valid(c: Config, s: State, run: seq<Step>)
    decreases |run|
  {
    run == [] || (Enabled(c, s, run[0]) && Valid(c, Apply(c, s, run[0]), run[1..]))
  }

  ghost function Final(c: Config, s: State, run: seq<Step>): State
    requires Valid(c, s, run)
    decreases |run|
  {
    if run == [] then s else Final(c, Apply(c, s, run[0]), run[1..])
  }
}

/** Where a JID is, counted: the numbers every lifecycle invariant is stated over. */
module LifecycleCensus {
  import opened Sequences
  import opened Payload
  import opened MemoryBroker
  import opened Lifecycle

  /** A goroutine that leased the job and has not yet put it anywhere. */
  function Pre(p: Phase, j: Jid): nat {
    match p
    case Holding(l, _) => Is(l.jid, j)
    case PuttingBack(l, _) => Is(l.jid, j)
    case Executing(l) => Is(l.jid, j)
    case Recording(l, o) => if o == Succeeded then 0 else Is(l.jid, j)
    case Placing(l, _) => Is(l.jid, j)
    case _ => 0
  }

  /** A worker whose handler succeeded and that has still to ack. */
  function Won(p: Phase, j: Jid): nat {
    match p
    case Recording(l, o) => if o == Succeeded then Is(l.jid, j) else 0
    case Acking(k, placed) => if placed then 0 else Is(k, j)
    case _ => 0
  }

  /** A goroutine that has placed the job and has still to ack. */
  function Owed(p: Phase, j: Jid): nat {
    match p
    case Acking(k, placed) => if placed then Is(k, j) else 0
    case _ => 0
  }

  /** Copies held only in a loop's local variables. */
  function Hand(p: Phase, j: Jid): nat {
    match p
    case Carrying(k, _) => Is(k, j)
    case Refused(k, _, _) => Is(k, j)
    case Reaped(orphans) => Count(orphans, j)
    case _ => 0
  }

  /** Mentions in the rest of a retry batch. */
  function DueIn(p: Phase, j: Jid): nat {
    match p
    case Batch(due) => Count(due, j)
    case Carrying(_, due) => Count(due, j)
    case Refused(_, due, _) => Count(due, j)
    case _ => 0
  }

  function Is(k: Jid, j: Jid): nat {
    if k == j then 1 else 0
  }

  ghost function PreOf(j: Jid): Phase -> nat { p => Pre(p, j) }
  ghost function WonOf(j: Jid): Phase -> nat { p => Won(p, j) }
  ghost function OwedOf(j: Jid): Phase -> nat { p => Owed(p, j) }
  ghost function HandOf(j: Jid): Phase -> nat { p => Hand(p, j) }
  ghost function DueOf(j: Jid): Phase -> nat { p => DueIn(p, j) }
  ghost function QueuedOf(j: Jid): seq<Jid> -> nat { q => Count(q, j) }

  /** Entries in the broker's sets, and goroutines by what they still have to do with the job. */
  datatype Entries = Entries(queued: int, leased: int, retrying: int, dead: int)
  datatype Goroutines = Goroutines(pre: int, won: int, owed: int, hand: int, due: int)
  datatype Census = Census(at: Entries, go: Goroutines)

  predicate Nowhere(n: Census) {
    && n.at.queued == 0 && n.at.leased == 0 && n.at.retrying == 0 && n.at.dead == 0
    && n.go.pre == 0 && n.go.won == 0 && n.go.owed == 0 && n.go.hand == 0 && n.go.due == 0
  }

  ghost function CensusOf(s: State, j: Jid): (n: Census)
    ensures n.at.queued >= 0 && n.at.leased >= 0 && n.at.retrying >= 0 && n.at.dead >= 0
    ensures n.go.pre >= 0 && n.go.won >= 0 && n.go.owed >= 0 && n.go.hand >= 0 && n.go.due >= 0
  {
    Census(
      Entries(MapSum(s.store.queues, QueuedOf(j)),
              Tally(s.store.processing, j), Tally(s.store.retry, j), Count(s.store.dead, j)),
      Goroutines(MapSum(s.actors, PreOf(j)), MapSum(s.actors, WonOf(j)), MapSum(s.actors, OwedOf(j)),
                 MapSum(s.actors, HandOf(j)), MapSum(s.actors, DueOf(j))))
  }

  function Placed(n: Census, to: Destination, i: int): Census {
    if to.ToDead? then n.(at := n.at.(dead := n.at.dead + i)) else n.(at := n.at.(retrying := n.at.retrying + i))
  }

  /** What a step does to the numbers `n` of JID `j`. */
  function Moved(c: Config, s: State, t: Step, j: Jid, n: Census): Census
    requires Enabled(c, s, t)
  {
    match t
    case Submit(k, _, _) => SubmitMoves(n, Is(k, j))
    case DeleteQueue(q) => SubmitMoves(n, 0 - Count(Waiting(s.store, q), j))
    case Dequeue(a) => LeaseMoves(n, Is(Waiting(s.store, s.actors[a].queue)[0], j))
    case PutBack(a) => if Accepts(s.store, false) then PutBackMoves(n, Is(s.actors[a].lease.jid, j)) else n
    case Return(a, outcome) => if outcome == Succeeded then WinMoves(n, Is(s.actors[a].lease.jid, j)) else n
    case Place(a) => PlaceMoves(n, s.actors[a].to, Is(s.actors[a].lease.jid, j))
    case Ack(a) => AckMoves(n, s.actors[a].placed, Is(s.actors[a].jid, j))
    case RetryTick(a) => DueMoves(n, Tally(Due(s.store.retry, s.now, RETRY_BATCH), j))
    case RetryNext(a) => NextDueMoves(c, s, a, j, n)
    case RetryEnqueue(a) =>
      if Accepts(s.store, a.pid in s.cancelled) then RequeueMoves(n, Is(s.actors[a].jid, j)) else n
    case RetryPlace(a) => ReplaceMoves(n, s.actors[a].to, Is(s.actors[a].jid, j))
    case ReapTick(a) => ReapMoves(n, Tally(Before(s.store.processing, s.now), j))
    case ReapNext(a) => NextOrphanMoves(c, s, a, j, n)
    case Crash(a) => CrashMoves(n, s.actors[a], j)
    case _ => n
  }

  function NextDueMoves(c: Config, s: State, a: Actor, j: Jid, n: Census): Census
    requires a in s.actors && s.actors[a].Batch? && (s.actors[a].due != [] ==> s.actors[a].due[0] in s.jobs)
  {
    var due := s.actors[a].due;
    if due == [] then n
    else if !Known(c, a, s.jobs[due[0]].queue) then n.(go := n.go.(due := n.go.due - Is(due[0], j)))
    else TakeMoves(n, Is(due[0], j))
  }

  function NextOrphanMoves(c: Config, s: State, a: Actor, j: Jid, n: Census): Census
    requires a in s.actors && s.actors[a].Reaped? && (s.actors[a].orphans != [] ==> s.actors[a].orphans[0] in s.jobs)
  {
    var orphans := s.actors[a].orphans;
    if orphans == [] then n
    else if Reclaims(c, s, a) then RequeueMoves(n, Is(orphans[0], j))
    else n.(go := n.go.(hand := n.go.hand - Is(orphans[0], j)))
  }

  function SubmitMoves(n: Census, i: int): Census {
    n.(at := n.at.(queued := n.at.queued + i))
  }

  function LeaseMoves(n: Census, i: int): Census {
    n.(at := n.at.(queued := n.at.queued - i, leased := n.at.leased + i), go := n.go.(pre := n.go.pre + i))
  }

  function PutBackMoves(n: Census, i: int): Census {
    n.(at := n.at.(queued := n.at.queued + i), go := n.go.(pre := n.go.pre - i, owed := n.go.owed + i))
  }

  function WinMoves(n: Census, i: int): Census {
    n.(go := n.go.(pre := n.go.pre - i, won := n.go.won + i))
  }

  function PlaceMoves(n: Census, to: Destination, i: int): Census {
    Placed(n.(go := n.go.(pre := n.go.pre - i, owed := n.go.owed + i)), to, i)
  }

  function AckMoves(n: Census, placed: bool, i: int): Census {
    var n' := n.(at := n.at.(leased := if i == 1 && n.at.leased > 0 then n.at.leased - 1 else n.at.leased));
    if placed then n'.(go := n'.go.(owed := n.go.owed - i)) else n'.(go := n'.go.(won := n.go.won - i))
  }

  function DueMoves(n: Census, i: int): Census {
    n.(go := n.go.(due := n.go.due + i))
  }

  function TakeMoves(n: Census, i: int): Census {
    n.(at := n.at.(retrying := if i == 1 && n.at.retrying > 0 then n.at.retrying - 1 else n.at.retrying),
       go := n.go.(due := n.go.due - i, hand := n.go.hand + i))
  }

  function RequeueMoves(n: Census, i: int): Census {
    n.(at := n.at.(queued := n.at.queued + i), go := n.go.(hand := n.go.hand - i))
  }

  function ReplaceMoves(n: Census, to: Destination, i: int): Census {
    Placed(n.(go := n.go.(hand := n.go.hand - i)), to, i)
  }

  function ReapMoves(n: Census, i: int): Census {
    n.(at := n.at.(leased := n.at.leased - i), go := n.go.(hand := n.go.hand + i))
  }

  function CrashMoves(n: Census, p: Phase, j: Jid): Census {
    n.(go := Goroutines(n.go.pre - Pre(p, j), n.go.won - Won(p, j), n.go.owed - Owed(p, j),
                        n.go.hand - Hand(p, j), n.go.due - DueIn(p, j)))
  }

  /** Moving one actor changes the actor counts by the difference of the two phases. */
  lemma ActorMoves(m: map<Actor, Phase>, a: Actor, p: Phase, j: Jid)
    requires a in m
    ensures MapSum(m[a := p], PreOf(j)) == MapSum(m, PreOf(j)) - Pre(m[a], j) + Pre(p, j)
    ensures MapSum(m[a := p], WonOf(j)) == MapSum(m, WonOf(j)) - Won(m[a], j) + Won(p, j)
    ensures MapSum(m[a := p], OwedOf(j)) == MapSum(m, OwedOf(j)) - Owed(m[a], j) + Owed(p, j)
    ensures MapSum(m[a := p], HandOf(j)) == MapSum(m, HandOf(j)) - Hand(m[a], j) + Hand(p, j)
    ensures MapSum(m[a := p], DueOf(j)) == MapSum(m, DueOf(j)) - DueIn(m[a], j) + DueIn(p, j)
  {
    hide MapSum;
    MapSumUpdate(m, PreOf(j), a, p);
    MapSumUpdate(m, WonOf(j), a, p);
    MapSumUpdate(m, OwedOf(j), a, p);
    MapSumUpdate(m, HandOf(j), a, p);
    MapSumUpdate(m, DueOf(j), a, p);
  }

  lemma Pushed(s: Store, q: string, k: Jid, j: Jid)
    ensures MapSum(Push(s, q, k).queues, QueuedOf(j)) == MapSum(s.queues, QueuedOf(j)) + Is(k, j)
  {
    hide MapSum;
    MapSumUpdate(s.queues, QueuedOf(j), q, Waiting(s, q) + [k]);
    CountConcat(Waiting(s, q), [k], j);
  }

  lemma Popped(s: Store, q: string, now: int, j: Jid)
    requires Waiting(s, q) != []
    ensures MapSum(Lease(s, q, now).queues, QueuedOf(j)) == MapSum(s.queues, QueuedOf(j)) - Is(Waiting(s, q)[0], j)
    ensures Tally(Lease(s, q, now).processing, j) == Tally(s.processing, j) + Is(Waiting(s, q)[0], j)
  {
    hide MapSum;
    var waiting := Waiting(s, q);
    MapSumUpdate(s.queues, QueuedOf(j), q, waiting[1..]);
    TallyConcat(s.processing, [Timed(waiting[0], now + LEASE)], j);
  }

  lemma Added(s: Store, k: Jid, to: Destination, j: Jid)
    ensures to.ToRetry? ==> Tally(Add(s, k, to).retry, j) == Tally(s.retry, j) + Is(k, j)
    ensures to.ToDead? ==> Count(Add(s, k, to).dead, j) == Count(s.dead, j) + Is(k, j)
  {
    hide MapSum;
    match to
    case ToRetry(at) => TallyConcat(s.retry, [Timed(k, at)], j);
    case ToDead => CountConcat(s.dead, [k], j);
  }

  lemma LeasedCensus(s: State, a: Actor, j: Jid)
    requires a in s.actors && s.actors[a].Polling? && Waiting(s.store, s.actors[a].queue) != []
    ensures CensusOf(Leased(s, a), j) == LeaseMoves(CensusOf(s, j), Is(Waiting(s.store, s.actors[a].queue)[0], j))
  {
    hide MapSum;
    var q := s.actors[a].queue;
    var waiting := Waiting(s.store, q);
    var lease := Timed(waiting[0], s.now + LEASE);
    ActorMoves(s.actors, a, Holding(lease, q), j);
    Popped(s.store, q, s.now, j);
  }

  lemma HandedOffCensus(s: State, a: Actor, w: Actor, j: Jid)
    requires a in s.actors && s.actors[a].Holding? && w in s.actors && s.actors[w] == Idle
    ensures CensusOf(HandedOff(s, a, w), j) == CensusOf(s, j)
  {
    hide MapSum;
    ActorMoves(s.actors, a, Idle, j);
    ActorMoves(s.actors[a := Idle], w, Executing(s.actors[a].lease), j);
  }

  lemma GivenBackCensus(s: State, a: Actor, j: Jid)
    requires a in s.actors && s.actors[a].PuttingBack?
    ensures CensusOf(GivenBack(s, a), j) ==
      if Accepts(s.store, false) then PutBackMoves(CensusOf(s, j), Is(s.actors[a].lease.jid, j)) else CensusOf(s, j)
  {
    hide MapSum;
    var p := s.actors[a];
    if Accepts(s.store, false) {
      ActorMoves(s.actors, a, Acking(p.lease.jid, true), j);
      Pushed(s.store, p.queue, p.lease.jid, j);
    } else {
      ActorMoves(s.actors, a, Placing(p.lease, ToRetry(s.now)), j);
    }
  }

  lemma ReturnedCensus(s: State, a: Actor, outcome: Outcome, j: Jid)
    requires a in s.actors && s.actors[a].Executing?
    ensures CensusOf(Returned(s, a, outcome), j) ==
      if outcome == Succeeded then WinMoves(CensusOf(s, j), Is(s.actors[a].lease.jid, j)) else CensusOf(s, j)
  {
    hide MapSum;
    ActorMoves(s.actors, a, Recording(s.actors[a].lease, outcome), j);
  }

  lemma RecordedCensus(s: State, a: Actor, j: Jid)
    requires a in s.actors && s.actors[a].Recording? && s.actors[a].lease.jid in s.jobs
    ensures CensusOf(Recorded(s, a), j) == CensusOf(s, j)
  {
    hide MapSum;
    var p := s.actors[a];
    match p.outcome
    case Succeeded => ActorMoves(s.actors, a, Acking(p.lease.jid, false), j);
    case CircuitOpen => ActorMoves(s.actors, a, Placing(p.lease, ToRetry(s.now + CIRCUIT_OPEN_WAIT)), j);
    case Failing => ActorMoves(s.actors, a, Placing(p.lease, AfterFailure(s.jobs[p.lease.jid], s.now).1), j);
  }

  lemma PlacedCensus(s: State, a: Actor, j: Jid)
    requires a in s.actors && s.actors[a].Placing?
    ensures CensusOf(PlacedAway(s, a), j) == PlaceMoves(CensusOf(s, j), s.actors[a].to, Is(s.actors[a].lease.jid, j))
  {
    hide MapSum;
    var p := s.actors[a];
    ActorMoves(s.actors, a, Acking(p.lease.jid, true), j);
    Added(s.store, p.lease.jid, p.to, j);
  }

  lemma AckedCensus(s: State, a: Actor, j: Jid)
    requires a in s.actors && s.actors[a].Acking?
    ensures CensusOf(Acked(s, a), j) == AckMoves(CensusOf(s, j), s.actors[a].placed, Is(s.actors[a].jid, j))
  {
    hide MapSum;
    ActorMoves(s.actors, a, if a.role == Fetcher then Stopped else Idle, j);
    TallyRemoveFirst(s.store.processing, s.actors[a].jid, j);
  }

  lemma BatchReadCensus(s: State, a: Actor, j: Jid)
    requires a in s.actors && s.actors[a] == Idle
    ensures CensusOf(BatchRead(s, a), j) == DueMoves(CensusOf(s, j), Tally(Due(s.store.retry, s.now, RETRY_BATCH), j))
  {
    hide MapSum;
    ActorMoves(s.actors, a, Batch(Jids(Due(s.store.retry, s.now, RETRY_BATCH))), j);
    TallyJids(Due(s.store.retry, s.now, RETRY_BATCH), j);
  }

  lemma NextDueCensus(c: Config, s: State, a: Actor, j: Jid)
    requires a in s.actors && s.actors[a].Batch? && (s.actors[a].due != [] ==> s.actors[a].due[0] in s.jobs)
    ensures CensusOf(NextDue(c, s, a), j) == NextDueMoves(c, s, a, j, CensusOf(s, j))
  {
    hide MapSum;
    var due := s.actors[a].due;
    if due == [] {
      ActorMoves(s.actors, a, Idle, j);
    } else if !Known(c, a, s.jobs[due[0]].queue) {
      ActorMoves(s.actors, a, Batch(due[1..]), j);
    } else {
      ActorMoves(s.actors, a, Carrying(due[0], due[1..]), j);
      TallyRemoveFirst(s.store.retry, due[0], j);
    }
  }

  lemma RequeuedCensus(s: State, a: Actor, j: Jid)
    requires a in s.actors && s.actors[a].Carrying? && s.actors[a].jid in s.jobs
    ensures CensusOf(Requeued(s, a), j) ==
      if Accepts(s.store, a.pid in s.cancelled) then RequeueMoves(CensusOf(s, j), Is(s.actors[a].jid, j))
      else CensusOf(s, j)
  {
    hide MapSum;
    var Carrying(k, due) := s.actors[a];
    if Accepts(s.store, a.pid in s.cancelled) {
      ActorMoves(s.actors, a, Batch(due), j);
      Pushed(s.store, s.jobs[k].queue, k, j);
    } else {
      ActorMoves(s.actors, a, Refused(k, due, AfterRefusal(s.jobs[k], s.now).1), j);
    }
  }

  lemma ReplacedCensus(s: State, a: Actor, j: Jid)
    requires a in s.actors && s.actors[a].Refused?
    ensures CensusOf(Replaced(s, a), j) == ReplaceMoves(CensusOf(s, j), s.actors[a].to, Is(s.actors[a].jid, j))
  {
    hide MapSum;
    var Refused(k, due, to) := s.actors[a];
    ActorMoves(s.actors, a, Batch(due), j);
    Added(s.store, k, to, j);
  }

  lemma OrphansTakenCensus(s: State, a: Actor, j: Jid)
    requires a in s.actors && s.actors[a] == Idle
    ensures CensusOf(OrphansTaken(s, a), j) == ReapMoves(CensusOf(s, j), Tally(Before(s.store.processing, s.now), j))
  {
    hide MapSum;
    var orphans := Before(s.store.processing, s.now);
    ActorMoves(s.actors, a, Reaped(Jids(orphans)), j);
    TallyReap(s.store.processing, s.now, j);
    TallyJids(orphans, j);
  }

  lemma NextOrphanCensus(c: Config, s: State, a: Actor, j: Jid)
    requires a in s.actors && s.actors[a].Reaped? && (s.actors[a].orphans != [] ==> s.actors[a].orphans[0] in s.jobs)
    ensures CensusOf(NextOrphan(c, s, a), j) == NextOrphanMoves(c, s, a, j, CensusOf(s, j))
  {
    hide MapSum;
    var orphans := s.actors[a].orphans;
    if orphans == [] {
      ActorMoves(s.actors, a, Idle, j);
    } else {
      ActorMoves(s.actors, a, Reaped(orphans[1..]), j);
      if Reclaims(c, s, a) {
        Pushed(s.store, s.jobs[orphans[0]].queue, orphans[0], j);
      }
    }
  }

  lemma QuietCensus(s: State, a: Actor, p: Phase, j: Jid)
    requires a in s.actors
    requires Pre(p, j) == Pre(s.actors[a], j) && Won(p, j) == Won(s.actors[a], j)
    requires Owed(p, j) == Owed(s.actors[a], j) && Hand(p, j) == Hand(s.actors[a], j)
    requires DueIn(p, j) == DueIn(s.actors[a], j)
    ensures CensusOf(Move(s, a, p), j) == CensusOf(s, j)
  {
    hide MapSum;
    ActorMoves(s.actors, a, p, j);
  }

  lemma QuietEnvironment(c: Config, s: State, t: Step, j: Jid)
    requires t.Tick? || t.Cancel? || t.Close?
    requires Enabled(c, s, t)
    ensures CensusOf(Apply(c, s, t), j) == CensusOf(s, j)
  {
    hide MapSum;
  }

  lemma SubmittedCensus(s: State, k: Jid, q: string, retry: nat, j: Jid)
    ensures CensusOf(Submitted(s, k, q, retry), j) == SubmitMoves(CensusOf(s, j), Is(k, j))
  {
    hide MapSum;
    Pushed(s.store, q, k, j);
  }

  lemma DeletedCensus(s: State, q: string, j: Jid)
    ensures CensusOf(Deleted(s, q), j) == SubmitMoves(CensusOf(s, j), 0 - Count(Waiting(s.store, q), j))
  {
    hide MapSum;
    MapSumRemove(s.store.queues, QueuedOf(j), q);
  }

  lemma DiedCensus(s: State, a: Actor, j: Jid)
    requires a in s.actors
    ensures CensusOf(Died(s, a), j) == CrashMoves(CensusOf(s, j), s.actors[a], j)
  {
    hide MapSum;
    ActorMoves(s.actors, a, Crashed, j);
  }

  /** The census of the next state is the one `Moved` predicts, for every step and every JID. */
  lemma CensusStep(c: Config, s: State, t: Step, j: Jid)
    requires Enabled(c, s, t)
    ensures CensusOf(Apply(c, s, t), j) == Moved(c, s, t, j, CensusOf(s, j))
  {
    hide CensusOf, Leased, HandedOff, GivenBack, Returned, Recorded, PlacedAway, Acked, BatchRead, NextDue;
    hide Requeued, Replaced, OrphansTaken, NextOrphan, Submitted, Deleted, Died, Move;
    match t
    case Tick(_) | Cancel(_) | Close => QuietEnvironment(c, s, t, j);
    case Submit(k, q, r) => SubmittedCensus(s, k, q, r, j);
    case DeleteQueue(q) => DeletedCensus(s, q, j);
    case Poll(a, q) => QuietCensus(s, a, Polling(q), j);
    case PollTimeout(a) => QuietCensus(s, a, Idle, j);
    case Dequeue(a) => LeasedCensus(s, a, j);
    case Handoff(a, w) => HandedOffCensus(s, a, w, j);
    case Interrupt(a) => QuietCensus(s, a, PuttingBack(s.actors[a].lease, s.actors[a].queue), j);
    case PutBack(a) => GivenBackCensus(s, a, j);
    case Return(a, outcome) => ReturnedCensus(s, a, outcome, j);
    case Record(a) => RecordedCensus(s, a, j);
    case Place(a) => PlacedCensus(s, a, j);
    case Ack(a) => AckedCensus(s, a, j);
    case RetryTick(a) => BatchReadCensus(s, a, j);
    case RetryNext(a) => NextDueCensus(c, s, a, j);
    case RetryEnqueue(a) => RequeuedCensus(s, a, j);
    case RetryPlace(a) => ReplacedCensus(s, a, j);
    case ReapTick(a) => OrphansTakenCensus(s, a, j);
    case ReapNext(a) => NextOrphanCensus(c, s, a, j);
    case Exit(a) => QuietCensus(s, a, Stopped, j);
    case Crash(a) => DiedCensus(s, a, j);
  }
}
