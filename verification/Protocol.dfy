/** The queue and its worker pool as one step system.  Every manager call and every phase of a
    pool goroutine is one atomic action; Interleaving.dfy takes the storage calls apart. */
module PoolProtocol {
  import opened Jobs
  import opened MemoryStorage
  import opened QueueManager
  import opened QueueSelection
  import opened Backoff
  import opened WorkerPool

  /** A worker goroutine: waiting, holding a received job, running its handler, or gone. */
  datatype Slot = Idle | Taken(job: Job) | Executing(job: Job) | Exited

  /** History of one job: its retry count when submitted, when its attempts started, and when
      they failed with the queue configuration read at that moment. */
  datatype Failure = Failure(at: int, config: Option<QueueConfig>)
  datatype Trace = Trace(base: int, starts: seq<int>, failures: seq<Failure>)

  datatype World = World(
    m: Mgr, pool: PoolConfig,
    hand: Option<Job>, ch: seq<Job>, slots: seq<Slot>,
    fetching: bool, stopped: bool, now: int,
    traces: map<string, Trace>)
  {
    function Jobs(): map<string, Job> {
      m.store.jobs
    }
  }

  datatype Action =
    | Submit(job: Job) | Register(config: QueueConfig) | Reconfigure(config: QueueConfig)
    | Cancel(id: string) | Pause(q: string) | Resume(q: string) | Tick(to: int)
    | Fetch(draw: nat) | Send | GiveBack
    | Take(i: nat) | Start(i: nat) | Succeed(i: nat) | Fail(i: nat, msg: string)
    | Stop | FetcherExits | WorkerExits(i: nat)

  /** A submission carries PENDING, as every caller of Enqueue sets it.  A fetch that would panic
      has no successor. */
  ghost predicate Enabled(w: World, a: Action) {
    match a
    case Submit(j) => j.status == Pending
    case Tick(to) => w.now <= to
    case Fetch(_) =>
      && w.fetching && w.hand.None? && |w.ch| < w.pool.concurrency
      && !Panics(w.m, w.pool.queues)
    case Send => w.hand.Some? && |w.ch| < w.pool.concurrency
    case GiveBack => w.hand.Some? && w.stopped
    case Take(i) => i < |w.slots| && w.slots[i].Idle? && w.ch != []
    case Start(i) => i < |w.slots| && w.slots[i].Taken?
    case Succeed(i) => i < |w.slots| && w.slots[i].Executing?
    case Fail(i, _) => i < |w.slots| && w.slots[i].Executing?
    case Stop => !w.stopped
    case FetcherExits => w.fetching && w.stopped && w.hand.None?
    case WorkerExits(i) => i < |w.slots| && w.slots[i].Idle? && w.stopped
    case _ => true
  }

  function AfterStart(w: World, i: nat): World
    requires i < |w.slots| && w.slots[i].Taken?
  {
    var j := w.slots[i].job;
    if j.id !in w.Jobs() then w.(slots := w.slots[i := Idle])
    else
      var t := if j.id in w.traces then w.traces[j.id] else Trace(j.retryCount, [], []);
      w.(m := StartPhase(w.m, j, w.now),
         slots := w.slots[i := Executing(j)],
         traces := w.traces[j.id := t.(starts := t.starts + [w.now])])
  }

  function AfterFailure(w: World, i: nat, msg: string): World
    requires i < |w.slots| && w.slots[i].Executing?
  {
    var j := w.slots[i].job;
    var t := if j.id in w.traces then w.traces[j.id] else Trace(j.retryCount, [], []);
    w.(m := FailurePhase(w.m, j, msg, w.now, w.pool.id),
       slots := w.slots[i := Idle],
       traces := w.traces[j.id := t.(failures := t.failures + [Failure(w.now, w.m.Lookup(j.queue))])])
  }

  ghost function Apply(w: World, a: Action): World
    requires Enabled(w, a)
  {
    match a
    case Submit(j) =>
      var (m, r) := w.m.Enqueue(j, w.now);
      w.(m := m,
         traces := if r.Ok? then w.traces[j.id := Trace(j.retryCount, [], [])] else w.traces)
    case Register(c) => w.(m := w.m.RegisterQueue(c))
    case Reconfigure(c) => w.(m := w.m.UpdateQueueConfig(c))
    case Cancel(id) => w.(m := w.m.CancelJob(id, w.now).0)
    case Pause(q) => w.(m := w.m.(store := w.m.store.(paused := w.m.store.paused[q := true])))
    case Resume(q) => w.(m := w.m.(store := w.m.store.(paused := w.m.store.paused[q := false])))
    case Tick(to) => w.(now := to)
    case Fetch(draw) =>
      var (m, r) := w.m.Dequeue(w.pool.queues, draw, w.now);
      w.(m := m, hand := if r.Fetched? then Some(r.job) else None)
    case Send => w.(hand := None, ch := w.ch + [w.hand.value])
    case GiveBack => w.(hand := None, m := w.m.Requeue(w.hand.value, 0, w.now))
    case Take(i) => w.(ch := w.ch[1..], slots := w.slots[i := Taken(w.ch[0])])
    case Start(i) => AfterStart(w, i)
    case Succeed(i) =>
      w.(m := SuccessPhase(w.m, w.slots[i].job, w.now, w.pool.id), slots := w.slots[i := Idle])
    case Fail(i, msg) => AfterFailure(w, i, msg)
    case Stop => w.(stopped := true)
    case FetcherExits => w.(fetching := false)
    case WorkerExits(i) => w.(slots := w.slots[i := Exited])
  }

  function Initial(pool: PoolConfig, now: int): World {
    World(Mgr(EMPTY_STORE.(workers := map[pool.id := WorkerCounts(0, 0)]), map[]), pool,
          None, [], seq(pool.concurrency, i => Idle), true, false, now, map[])
  }

  ghost predicate Runnable(w: World, acts: seq<Action>)
    decreases |acts|
  {
    acts == [] || (Enabled(w, acts[0]) && Runnable(Apply(w, acts[0]), acts[1..]))
  }

  ghost function Exec(w: World, acts: seq<Action>): World
    requires Runnable(w, acts)
    decreases |acts|
  {
    if acts == [] then w else Exec(Apply(w, acts[0]), acts[1..])
  }

  ghost predicate Reachable(w: World) {
    exists pool, now, acts ::
      Runnable(Initial(pool, now), acts) && Exec(Initial(pool, now), acts) == w
  }

  // ---- where a job can be ----

  datatype Place = InQueue(q: string, k: nat) | InHand | InChannel(k: nat) | InSlot(i: nat)

  datatype Token = Waiting(entry: Entry) | Carried(job: Job) | Handled(job: Job)
  {
    function Id(): string {
      if Waiting? then entry.jobId else job.id
    }
  }

  function At(w: World, p: Place): Option<Token> {
    match p
    case InQueue(q, k) =>
      if k < |w.m.store.Entries(q)| then Some(Waiting(w.m.store.Entries(q)[k])) else None
    case InHand => if w.hand.Some? then Some(Carried(w.hand.value)) else None
    case InChannel(k) => if k < |w.ch| then Some(Carried(w.ch[k])) else None
    case InSlot(i) =>
      if i >= |w.slots| then None
      else if w.slots[i].Taken? then Some(Carried(w.slots[i].job))
      else if w.slots[i].Executing? then Some(Handled(w.slots[i].job))
      else None
  }

  predicate Holds(w: World, p: Place, id: string) {
    At(w, p).Some? && At(w, p).value.Id() == id
  }

  ghost predicate Placed(w: World, id: string) {
    exists p :: Holds(w, p, id)
  }

  /** No job is in two places. */
  ghost predicate SingleOwner(w: World) {
    forall p, p', id :: Holds(w, p, id) && Holds(w, p', id) ==> p == p'
  }
}
