/** The same system with every storage call its own step: any number of submitters, cancellers,
    fetchers and workers, of any number of pools, share one store, and only single calls are atomic.
    Here a job is owned at most once; CallOutcomes.dfy, CallAttempts.dfy and CallCancellation.dfy say
    exactly when outcomes are final, jobs are kept and cancellations work. */
module CallInterleaving {
  import opened Jobs
  import opened Backoff
  import opened MemoryStorage
  import opened QueueManager
  import P = PoolProtocol

  /** Where a goroutine stands between two calls, with its local copy of the job.  `p` is the pool it
      belongs to. */
  datatype Task =
    | Gone
    | Submitting(j: Job)                         // Enqueue, before the configuration is looked up
    | Creating(j: Job)                           // before CreateJob
    | Created(j: Job)                            // before the entry is appended
    | Counting                                   // before RecordJobCreated
    | Reading(id: string)                        // CancelJob, before GetJob
    | Cancelling(j: Job)                         // before UpdateStatus
    | Marked(j: Job)                             // before Remove
    | Polling(p: string)                         // a fetcher, before a dequeue
    | Dequeued(p: string, id: string)            // before GetJob
    | Carrying(p: string, j: Job)                // before the send
    | Returning(p: string, j: Job)               // stopping: copy written back, before the entry
    | Waiting(p: string)                         // a worker, before it receives
    | Received(p: string, j: Job)                // before UpdateStatus RUNNING
    | Handling(p: string, j: Job)                // the handler runs
    | Succeeded(p: string, j: Job)               // SUCCESS written, before UpdateProgress
    | Finishing(p: string)                       // before RecordJobCompleted
    | Crediting(p: string)                       // before IncrementProcessed
    | Failing(p: string, j: Job)                 // error text written
    | Resaving(p: string, j: Job, delay: int)    // RETRYING written, before UpdateJob
    | Requeueing(p: string, j: Job, delay: int)  // copy written back, before the entry
    | Repeating(p: string)                       // before RecordJobRetried
    | Condemned(p: string, j: Job)               // FAILED written, before RecordJobFailed
    | Judging(p: string, j: Job)                 // before the dead-letter queue is looked up
    | Burying(p: string, j: Job)                 // the dead letter's Enqueue, as Submitting
    | Interring(p: string, j: Job)               // as Creating
    | Buried(p: string, j: Job)                  // as Created
    | Mourning(p: string)                        // as Counting
    | Blaming(p: string)                         // before IncrementFailed

  /** `traces` is history: per job the retry count it was submitted with, when its attempts started,
      and when they failed with the configuration found then; so is `dropped`, the retries that found no
      configuration.  `stopped` are the pools whose Stop was called. */
  datatype Calls = Calls(
    store: Store, channels: map<string, seq<Job>>, tasks: map<nat, Task>, stopped: set<string>,
    now: int, traces: map<string, P.Trace>, dropped: nat)
  {
    function Channel(p: string): seq<Job> {
      if p in channels then channels[p] else []
    }

    function With(t: nat, task: Task): Calls {
      this.(tasks := tasks[t := task])
    }

    function Then(t: nat, store: Store, task: Task): Calls {
      this.(store := store, tasks := tasks[t := task])
    }
  }

  /** What the environment decides for one call: the queue asked (or the error text), the branch
      taken, the configuration a lookup finds, and the clock. */
  datatype Choice = Choice(q: string, yes: bool, config: Option<QueueConfig>, now: int)

  // ---- the calls ----

  function QueueOf(j: Job): string {
    if j.queue == "" then "default" else j.queue
  }

  /** A submission with the defaults of its queue's configuration. */
  function Completed(j: Job, config: Option<QueueConfig>): Job {
    var c := if config.Some? then config.value else DefaultConfig(QueueOf(j));
    j.(queue := QueueOf(j), maxRetries := if j.maxRetries == 0 then c.maxRetries else j.maxRetries)
  }

  /** A queue without a configuration is registered with the default one. */
  function Registered(s: Store, q: string, config: Option<QueueConfig>): Store {
    if config.Some? then s else s.(configs := s.configs[q := WithDefaults(DefaultConfig(q))])
  }

  function DueAt(j: Job, now: int): int {
    if j.scheduledAt > now then j.scheduledAt else now
  }

  function Create(s: Calls, t: nat, j: Job, created: Task, refused: Task): Calls {
    if j.id in s.store.jobs then s.With(t, refused)
    else s.Then(t, s.store.CreateJob(j), created).(traces := s.traces[j.id := P.Trace(j.retryCount, [], [])])
  }

  function Append(s: Calls, t: nat, j: Job, due: int, next: Task): Calls {
    s.Then(t, s.store.Enqueue(j.queue, j.id, j.priority, due), next)
  }

  function Read(s: Calls, t: nat, id: string): Calls {
    if id !in s.store.jobs || s.store.jobs[id].IsTerminal() then s.With(t, Gone)
    else s.With(t, Cancelling(s.store.jobs[id]))
  }

  function Mark(s: Calls, t: nat, j: Job): Calls {
    s.Then(t, s.store.UpdateStatus(j.id, Cancelled, s.now),
           if j.id in s.store.jobs && j.status == Pending then Marked(j) else Gone)
  }

  function Poll(s: Calls, t: nat, p: string, q: string): Calls {
    var (store, r) := s.store.Dequeue(q, s.now);
    if r.Ok? then s.Then(t, store, Dequeued(p, r.value)) else s
  }

  function Send(s: Calls, t: nat, p: string, j: Job): Calls {
    s.(channels := s.channels[p := s.Channel(p) + [j]]).With(t, Polling(p))
  }

  function Receive(s: Calls, t: nat, p: string): Calls {
    if s.Channel(p) == [] then s
    else s.(channels := s.channels[p := s.Channel(p)[1..]]).With(t, Received(p, s.Channel(p)[0]))
  }

  function Traced(s: Calls, id: string): P.Trace {
    if id in s.traces then s.traces[id] else P.Trace(0, [], [])
  }

  function Start(s: Calls, t: nat, p: string, j: Job): Calls {
    if j.id !in s.store.jobs then s.With(t, Waiting(p))
    else
      var trace := Traced(s, j.id);
      s.Then(t, s.store.UpdateStatus(j.id, Running, s.now), Handling(p, j))
       .(traces := s.traces[j.id := trace.(starts := trace.starts + [s.now])])
  }

  function NoteFailure(s: Calls, id: string, config: Option<QueueConfig>): Calls {
    var trace := Traced(s, id);
    s.(traces := s.traces[id := trace.(failures := trace.failures + [P.Failure(s.now, config)])])
  }

  /** The branch of handleJobFailure, with the call that follows it. */
  function Fail(s: Calls, t: nat, p: string, j: Job, config: Option<QueueConfig>): Calls {
    var s1 := NoteFailure(s, j.id, config);
    if !j.CanRetry() then s1.Then(t, s.store.UpdateStatus(j.id, Failed, s.now), Condemned(p, j))
    else if config.None? then s1.With(t, Waiting(p)).(dropped := s.dropped + 1)
    else
      var j' := j.(retryCount := j.retryCount + 1);
      s1.Then(t, s.store.UpdateStatus(j.id, Retrying, s.now),
              Resaving(p, j', CalculateRetryDelay(j'.retryCount, config.value)))
  }

  /** Task t performs its next call. */
  function Step(s0: Calls, t: nat, c: Choice): Calls
    requires t in s0.tasks
  {
    var s := s0.(now := c.now);
    match s.tasks[t]
    case Gone => s
    case Submitting(j) => s.Then(t, Registered(s.store, QueueOf(j), c.config), Creating(Completed(j, c.config)))
    case Creating(j) => Create(s, t, j, Created(j), Gone)
    case Created(j) => Append(s, t, j, DueAt(j, c.now), Counting)
    case Counting => s.Then(t, s.store.(created := s.store.created + 1), Gone)
    case Reading(id) => Read(s, t, id)
    case Cancelling(j) => Mark(s, t, j)
    case Marked(j) => s.Then(t, s.store.Remove(j.queue, j.id), Gone)
    case Polling(p) => Poll(s, t, p, c.q)
    case Dequeued(p, id) =>
      s.With(t, if id in s.store.jobs then Carrying(p, s.store.jobs[id]) else Polling(p))
    case Carrying(p, j) =>
      if c.yes then Send(s, t, p, j)
      else s.Then(t, s.store.UpdateJob(j), if j.id in s.store.jobs then Returning(p, j) else Polling(p))
    case Returning(p, j) => Append(s, t, j, c.now, Polling(p))
    case Waiting(p) => Receive(s, t, p)
    case Received(p, j) => Start(s, t, p, j)
    case Handling(p, j) =>
      if c.yes then s.Then(t, s.store.UpdateStatus(j.id, Success, c.now), Succeeded(p, j))
      else s.Then(t, s.store.SetError(j.id, c.q), Failing(p, j))
    case Succeeded(p, j) => s.Then(t, s.store.UpdateProgress(j.id, 100), Finishing(p))
    case Finishing(p) => s.Then(t, s.store.(completed := s.store.completed + 1), Crediting(p))
    case Crediting(p) => s.Then(t, s.store.IncrementProcessed(p), Waiting(p))
    case Failing(p, j) => Fail(s, t, p, j, c.config)
    case Resaving(p, j, delay) =>
      s.Then(t, s.store.UpdateJob(j), if j.id in s.store.jobs then Requeueing(p, j, delay) else Repeating(p))
    case Requeueing(p, j, delay) => Append(s, t, j, c.now + delay, Repeating(p))
    case Repeating(p) => s.Then(t, s.store.(retried := s.store.retried + 1), Blaming(p))
    case Condemned(p, j) => s.Then(t, s.store.(failed := s.store.failed + 1), Judging(p, j))
    case Judging(p, j) =>
      if c.config.None? || c.config.value.deadLetterQueue == "" then s.With(t, Blaming(p))
      else s.With(t, Burying(p, j.(queue := c.config.value.deadLetterQueue, status := Pending)))
    case Burying(p, j) => s.Then(t, Registered(s.store, QueueOf(j), c.config), Interring(p, Completed(j, c.config)))
    case Interring(p, j) => Create(s, t, j, Buried(p, j), Blaming(p))
    case Buried(p, j) => Append(s, t, j, DueAt(j, c.now), Mourning(p))
    case Mourning(p) => s.Then(t, s.store.(created := s.store.created + 1), Blaming(p))
    case Blaming(p) => s.Then(t, s.store.IncrementFailed(p), Waiting(p))
  }

  // ---- runs ----

  /** A goroutine starts: a caller of Enqueue or CancelJob, a fetcher or a worker of a pool that is not
      stopped. */
  predicate Beginning(s: Calls, task: Task) {
    task.Submitting? || task.Reading? || ((task.Polling? || task.Waiting?) && task.p !in s.stopped)
  }

  datatype Event =
    | Begin(t: nat, task: Task)
    | Call(t: nat, choice: Choice)
    | SetPaused(q: string, value: bool)
    | StopPool(p: string)
    | Exit(t: nat)                    // a fetcher or a waiting worker sees that its pool is stopped

  /** Clock readings do not run backwards; a fetched job is given back only when the pool is stopped. */
  predicate Possible(s: Calls, e: Event) {
    match e
    case Begin(t, task) => t !in s.tasks && Beginning(s, task)
    case Call(t, c) =>
      t in s.tasks && s.now <= c.now && (s.tasks[t].Carrying? && !c.yes ==> s.tasks[t].p in s.stopped)
    case SetPaused(_, _) => true
    case StopPool(p) => p !in s.stopped
    case Exit(t) => t in s.tasks && (s.tasks[t].Polling? || s.tasks[t].Waiting?) && s.tasks[t].p in s.stopped
  }

  function Next(s: Calls, e: Event): Calls
    requires Possible(s, e)
  {
    match e
    case Begin(t, task) => s.With(t, task)
    case Call(t, c) => Step(s, t, c)
    case SetPaused(q, value) => s.(store := s.store.(paused := s.store.paused[q := value]))
    case StopPool(p) => s.(stopped := s.stopped + {p})
    case Exit(t) => s.With(t, Gone)
  }

  ghost predicate Happens(s: Calls, events: seq<Event>, s': Calls)
    decreases |events|
  {
    if events == [] then s' == s
    else Possible(s, events[0]) && Happens(Next(s, events[0]), events[1..], s')
  }

  const START := Calls(EMPTY_STORE, map[], map[], {}, 0, map[], 0)

  lemma {:induction false} HappensThen(s: Calls, events: seq<Event>, s': Calls, e: Event)
    requires Happens(s, events, s') && Possible(s', e)
    ensures Happens(s, events + [e], Next(s', e))
    decreases |events|
  {
    if events == [] {
      assert [e][1..] == [];
    } else {
      HappensThen(Next(s, events[0]), events[1..], s', e);
      assert (events + [e])[1..] == events[1..] + [e];
    }
  }

  lemma {:induction false} HappensBoth(s: Calls, first: seq<Event>, s1: Calls, second: seq<Event>, s2: Calls)
    requires Happens(s, first, s1) && Happens(s1, second, s2)
    ensures Happens(s, first + second, s2)
    decreases |first|
  {
    if first == [] {
      assert first + second == second;
    } else {
      HappensBoth(Next(s, first[0]), first[1..], s1, second, s2);
      assert (first + second)[1..] == first[1..] + second;
    }
  }

  // ---- ownership ----

  /** The job a goroutine is responsible for between two calls. */
  function Owned(task: Task): Option<string> {
    match task
    case Created(j) => Some(j.id)
    case Dequeued(_, id) => Some(id)
    case Carrying(_, j) => Some(j.id)
    case Returning(_, j) => Some(j.id)
    case Received(_, j) => Some(j.id)
    case Handling(_, j) => Some(j.id)
    case Failing(_, j) => Some(j.id)
    case Resaving(_, j, _) => Some(j.id)
    case Requeueing(_, j, _) => Some(j.id)
    case Buried(_, j) => Some(j.id)
    case _ => None
  }

  datatype Spot = OfQueue(q: string, k: nat) | OfChannel(p: string, k: nat) | OfTask(t: nat)

  /** What stands for a job at a spot: an entry, a copy in a channel, a goroutine. */
  datatype Held = Entered(e: Entry) | Sent(j: Job) | Tended(task: Task)
  {
    function Id(): Option<string> {
      match this
      case Entered(e) => Some(e.jobId)
      case Sent(j) => Some(j.id)
      case Tended(task) => Owned(task)
    }
  }

  function At(s: Calls, x: Spot): Option<Held> {
    match x
    case OfQueue(q, k) => if k < |s.store.Entries(q)| then Some(Entered(s.store.Entries(q)[k])) else None
    case OfChannel(p, k) => if k < |s.Channel(p)| then Some(Sent(s.Channel(p)[k])) else None
    case OfTask(t) => if t in s.tasks && Owned(s.tasks[t]).Some? then Some(Tended(s.tasks[t])) else None
  }

  function Owner(s: Calls, x: Spot): Option<string> {
    if At(s, x).Some? then At(s, x).value.Id() else None
  }

  /** Across all queues, channels and goroutines a job ID occurs at most once. */
  ghost predicate OwnedOnce(s: Calls) {
    forall x, y :: Owner(s, x).Some? && Owner(s, x) == Owner(s, y) ==> x == y
  }

  /** Every job is stored under its own ID and has a history. */
  ghost predicate Filed(s: Calls) {
    && (forall id :: id in s.store.jobs ==> s.store.jobs[id].id == id)
    && (forall id :: id in s.store.jobs <==> id in s.traces)
  }

  ghost predicate OwnersStored(s: Calls) {
    forall x :: Owner(s, x).Some? ==> Owner(s, x).value in s.store.jobs
  }

  ghost predicate Safe(s: Calls) {
    OwnedOnce(s) && OwnersStored(s) && Filed(s)
  }

  // ---- how one step moves what stands for a job ----

  datatype Gap = Keep | DropEntry(q: string, k: nat) | DropHead(p: string)

  /** Behind a removed entry or head the rest moves up; what was at `src` stands at `to` now. */
  datatype Flow = Flow(gap: Gap, src: Option<Spot>, to: Option<Spot>)

  function From(g: Gap, x: Spot): Spot {
    match g
    case Keep => x
    case DropEntry(q, k) => if x.OfQueue? && x.q == q && x.k >= k then OfQueue(q, x.k + 1) else x
    case DropHead(p) => if x.OfChannel? && x.p == p then OfChannel(p, x.k + 1) else x
  }

  /** Where a spot other than the dropped one goes. */
  function Onto(g: Gap, x: Spot): Spot {
    match g
    case Keep => x
    case DropEntry(q, k) => if x.OfQueue? && x.q == q && x.k > k then OfQueue(q, x.k - 1) else x
    case DropHead(p) => if x.OfChannel? && x.p == p && x.k > 0 then OfChannel(p, x.k - 1) else x
  }

  function Dropped(g: Gap): Option<Spot> {
    match g
    case Keep => None
    case DropEntry(q, k) => Some(OfQueue(q, k))
    case DropHead(p) => Some(OfChannel(p, 0))
  }

  /** What stands at x stood where From says. */
  ghost predicate CameFrom(s: Calls, s': Calls, f: Flow, x: Spot) {
    Some(x) != f.to && At(s', x).Some? ==>
      At(s', x) == At(s, From(f.gap, x)) && Some(From(f.gap, x)) != f.src && Some(From(f.gap, x)) != Dropped(f.gap)
  }

  /** What stood at x stands where Onto says. */
  ghost predicate WentOn(s: Calls, s': Calls, f: Flow, x: Spot) {
    Some(x) != f.src && At(s, x).Some? && Some(x) != Dropped(f.gap) ==> At(s', Onto(f.gap, x)) == At(s, x)
  }

  /** Everything stands where it stood, up to the gap, but for `src` and `to`; what is at `to` is the
      job from `src`, or a new one. */
  ghost predicate Flows(s: Calls, s': Calls, f: Flow) {
    && (forall x :: CameFrom(s, s', f, x))
    && (forall x :: WentOn(s, s', f, x))
    && (f.src.Some? ==> At(s, f.src.value).Some?)
    && (Dropped(f.gap).Some? ==> f.src == Dropped(f.gap))
    && (f.to.Some? ==> At(s', f.to.value).Some?)
    && (f.to.Some? && f.src.Some? ==> Owner(s', f.to.value) == Owner(s, f.src.value))
    && (f.to.Some? && f.src.None? ==> Owner(s', f.to.value).value !in s.store.jobs)
  }

  lemma FromInjective(g: Gap, x: Spot, y: Spot)
    requires From(g, x) == From(g, y)
    ensures x == y
  {
  }

  lemma FlowKeepsOwnedOnce(s: Calls, s': Calls, f: Flow)
    requires OwnedOnce(s) && OwnersStored(s) && Flows(s, s', f)
    ensures OwnedOnce(s')
  {
    forall x, y | Owner(s', x).Some? && Owner(s', x) == Owner(s', y)
      ensures x == y
    {
      assert CameFrom(s, s', f, x) && CameFrom(s, s', f, y);
      if Some(x) != f.to {
        assert Owner(s', x) == Owner(s, From(f.gap, x));
      }
      if Some(y) != f.to {
        assert Owner(s', y) == Owner(s, From(f.gap, y));
      }
      if Some(x) != f.to && Some(y) != f.to {
        FromInjective(f.gap, x, y);
      }
    }
  }

  lemma FlowKeepsStored(s: Calls, s': Calls, f: Flow)
    requires OwnersStored(s) && Flows(s, s', f) && s.store.jobs.Keys <= s'.store.jobs.Keys
    requires f.to.Some? && f.src.None? ==> Owner(s', f.to.value).value in s'.store.jobs
    ensures OwnersStored(s')
  {
    forall x | Owner(s', x).Some?
      ensures Owner(s', x).value in s'.store.jobs
    {
      assert CameFrom(s, s', f, x);
      if Some(x) != f.to {
        assert Owner(s', x) == Owner(s, From(f.gap, x));
      }
    }
  }

  // ---- the kinds of call ----

  /** Queues and channels stay; the goroutine keeps its job, lets go of it, or had none. */
  ghost predicate InPlace(s: Calls, s': Calls, t: nat) {
    && t in s.tasks && t in s'.tasks
    && s'.tasks == s.tasks[t := s'.tasks[t]]
    && s'.channels == s.channels && s'.store.queues == s.store.queues
    && (Owned(s'.tasks[t]).None? || Owned(s'.tasks[t]) == Owned(s.tasks[t]))
  }

  function InPlaceFlow(s: Calls, s': Calls, t: nat): Flow
    requires t in s.tasks && t in s'.tasks
  {
    Flow(Keep, if Owned(s.tasks[t]).Some? then Some(OfTask(t)) else None,
         if Owned(s'.tasks[t]).Some? then Some(OfTask(t)) else None)
  }

  lemma InPlaceFlows(s: Calls, s': Calls, t: nat)
    requires InPlace(s, s', t)
    ensures Flows(s, s', InPlaceFlow(s, s', t))
  {
  }

  /** A goroutine comes to own a job that did not exist. */
  lemma CreateFlows(s: Calls, s': Calls, t: nat, j: Job)
    requires t in s.tasks && Owned(s.tasks[t]).None? && t in s'.tasks && Owned(s'.tasks[t]) == Some(j.id)
    requires s'.tasks == s.tasks[t := s'.tasks[t]] && s'.channels == s.channels && s'.store.queues == s.store.queues
    requires j.id !in s.store.jobs
    ensures Flows(s, s', Flow(Keep, None, Some(OfTask(t))))
  {
  }

  /** A goroutine hands its job to the end of a queue. */
  lemma AppendFlows(s: Calls, t: nat, j: Job, due: int, next: Task)
    requires t in s.tasks && Owned(s.tasks[t]) == Some(j.id) && Owned(next).None? && j.id in s.store.jobs
    ensures Flows(s, Append(s, t, j, due, next),
                  Flow(Keep, Some(OfTask(t)), Some(OfQueue(j.queue, |s.store.Entries(j.queue)|))))
  {
  }

  lemma SendFlows(s: Calls, t: nat, p: string, j: Job)
    requires t in s.tasks && Owned(s.tasks[t]) == Some(j.id)
    ensures Flows(s, Send(s, t, p, j), Flow(Keep, Some(OfTask(t)), Some(OfChannel(p, |s.Channel(p)|))))
  {
  }

  lemma ReceiveAt(s: Calls, t: nat, p: string, x: Spot)
    requires t in s.tasks && Owned(s.tasks[t]).None? && s.Channel(p) != []
    ensures var f := Flow(DropHead(p), Some(OfChannel(p, 0)), Some(OfTask(t)));
      CameFrom(s, Receive(s, t, p), f, x) && WentOn(s, Receive(s, t, p), f, x)
  {
    var s' := Receive(s, t, p);
    assert s'.Channel(p) == s.Channel(p)[1..];
    match x
    case OfQueue(q, k) =>
    case OfChannel(p', k) => assert p' != p ==> s'.Channel(p') == s.Channel(p');
    case OfTask(u) =>
  }

  lemma ReceiveFlows(s: Calls, t: nat, p: string)
    requires t in s.tasks && Owned(s.tasks[t]).None? && s.Channel(p) != []
    ensures Flows(s, Receive(s, t, p), Flow(DropHead(p), Some(OfChannel(p, 0)), Some(OfTask(t))))
  {
    forall x
      ensures var f := Flow(DropHead(p), Some(OfChannel(p, 0)), Some(OfTask(t)));
        CameFrom(s, Receive(s, t, p), f, x) && WentOn(s, Receive(s, t, p), f, x)
    {
      ReceiveAt(s, t, p, x);
    }
  }

  ghost predicate Takes(s: Calls, s': Calls, t: nat, q: string, k: nat) {
    && t in s.tasks && Owned(s.tasks[t]).None? && k < |s.store.Entries(q)|
    && t in s'.tasks && (Owned(s'.tasks[t]).None? || Owned(s'.tasks[t]) == Some(s.store.Entries(q)[k].jobId))
    && s' == s.Then(t, s.store.TakeAt(q, k), s'.tasks[t])
  }

  function TakeFlow(s': Calls, t: nat, q: string, k: nat): Flow
    requires t in s'.tasks
  {
    Flow(DropEntry(q, k), Some(OfQueue(q, k)), if Owned(s'.tasks[t]).Some? then Some(OfTask(t)) else None)
  }

  lemma TakeAtSpot(s: Calls, s': Calls, t: nat, q: string, k: nat, x: Spot)
    requires Takes(s, s', t, q, k)
    ensures CameFrom(s, s', TakeFlow(s', t, q, k), x) && WentOn(s, s', TakeFlow(s', t, q, k), x)
  {
    assert s'.store.Entries(q) == RemoveAt(s.store.Entries(q), k);
    match x
    case OfQueue(q', i) => assert q' != q ==> s'.store.Entries(q') == s.store.Entries(q');
    case OfChannel(p, i) => assert s'.Channel(p) == s.Channel(p);
    case OfTask(u) =>
  }

  /** An entry leaves its queue, into the goroutine's care or for good. */
  lemma TakeFlows(s: Calls, s': Calls, t: nat, q: string, k: nat)
    requires Takes(s, s', t, q, k)
    ensures Flows(s, s', TakeFlow(s', t, q, k))
  {
    forall x
      ensures CameFrom(s, s', TakeFlow(s', t, q, k), x) && WentOn(s, s', TakeFlow(s', t, q, k), x)
    {
      TakeAtSpot(s, s', t, q, k, x);
    }
  }

  // ---- every call ----

  predicate Submitter(task: Task) {
    task.Gone? || task.Submitting? || task.Creating? || task.Created? || task.Counting?
  }

  predicate Burier(task: Task) {
    task.Burying? || task.Interring? || task.Buried? || task.Mourning?
  }

  predicate Canceller(task: Task) {
    task.Reading? || task.Cancelling? || task.Marked?
  }

  predicate Fetcher(task: Task) {
    task.Polling? || task.Dequeued? || task.Carrying? || task.Returning?
  }

  predicate Runner(task: Task) {
    task.Waiting? || task.Received? || task.Handling?
  }

  predicate Winner(task: Task) {
    task.Succeeded? || task.Finishing? || task.Crediting?
  }

  predicate Failer(task: Task) {
    task.Failing? || task.Resaving? || task.Requeueing? || task.Repeating?
  }

  predicate Loser(task: Task) {
    task.Condemned? || task.Judging? || task.Blaming?
  }

  /** The job whose record or history a call may write. */
  function Subject(task: Task): Option<string> {
    match task
    case Creating(j) => Some(j.id)
    case Cancelling(j) => Some(j.id)
    case Carrying(_, j) => Some(j.id)
    case Received(_, j) => Some(j.id)
    case Handling(_, j) => Some(j.id)
    case Succeeded(_, j) => Some(j.id)
    case Failing(_, j) => Some(j.id)
    case Resaving(_, j, _) => Some(j.id)
    case Interring(_, j) => Some(j.id)
    case _ => None
  }

  /** Records and histories of all jobs but one stay. */
  ghost predicate OnlyWrites(s: Calls, s': Calls, subject: Option<string>) {
    forall id :: Some(id) != subject ==>
      && (id in s.store.jobs <==> id in s'.store.jobs) && (id in s.traces <==> id in s'.traces)
      && (id in s.store.jobs ==> s'.store.jobs[id] == s.store.jobs[id])
      && (id in s.traces ==> s'.traces[id] == s.traces[id])
  }

  ghost predicate Recorded(s: Calls, s': Calls, subject: Option<string>) {
    Filed(s') && s.store.jobs.Keys <= s'.store.jobs.Keys && OnlyWrites(s, s', subject)
  }

  /** The call wrote no record and no history, or those of one stored job. */
  ghost predicate Writes(s: Calls, s': Calls, subject: Option<string>) {
    || (s'.store.jobs == s.store.jobs && s'.traces == s.traces)
    || (subject.Some? && Wrote(s, s', subject.value))
  }

  ghost predicate Wrote(s: Calls, s': Calls, id: string) {
    && id in s'.store.jobs && s'.store.jobs[id].id == id && id in s'.traces
    && s'.store.jobs == s.store.jobs[id := s'.store.jobs[id]]
    && s'.traces == s.traces[id := s'.traces[id]]
  }

  lemma WritesAreRecorded(s: Calls, s': Calls, subject: Option<string>)
    requires Filed(s) && Writes(s, s', subject)
    ensures Recorded(s, s', subject)
  {
  }

  lemma SubmitterWrites(s: Calls, t: nat, c: Choice)
    requires t in s.tasks && Submitter(s.tasks[t]) && Filed(s)
    ensures Writes(s, Step(s, t, c), Subject(s.tasks[t]))
  {
  }

  lemma BurierWrites(s: Calls, t: nat, c: Choice)
    requires t in s.tasks && Burier(s.tasks[t]) && Filed(s)
    ensures Writes(s, Step(s, t, c), Subject(s.tasks[t]))
  {
  }

  lemma CancellerWrites(s: Calls, t: nat, c: Choice)
    requires t in s.tasks && Canceller(s.tasks[t]) && Filed(s)
    ensures Writes(s, Step(s, t, c), Subject(s.tasks[t]))
  {
  }

  lemma FetcherWrites(s: Calls, t: nat, c: Choice)
    requires t in s.tasks && Fetcher(s.tasks[t]) && Filed(s)
    ensures Writes(s, Step(s, t, c), Subject(s.tasks[t]))
  {
  }

  /** A goroutine's own job has a record. */
  lemma OwnStored(s: Calls, t: nat)
    requires OwnersStored(s) && t in s.tasks && Owned(s.tasks[t]).Some?
    ensures Owned(s.tasks[t]).value in s.store.jobs
  {
    assert Owner(s, OfTask(t)) == Owned(s.tasks[t]);
  }

  lemma RunnerWrites(s: Calls, t: nat, c: Choice)
    requires t in s.tasks && Runner(s.tasks[t]) && Filed(s)
    requires Owned(s.tasks[t]).Some? ==> Owned(s.tasks[t]).value in s.store.jobs
    ensures Writes(s, Step(s, t, c), Subject(s.tasks[t]))
  {
  }

  lemma WinnerWrites(s: Calls, t: nat, c: Choice)
    requires t in s.tasks && Winner(s.tasks[t]) && Filed(s)
    ensures Writes(s, Step(s, t, c), Subject(s.tasks[t]))
  {
  }

  lemma FailerWrites(s: Calls, t: nat, c: Choice)
    requires t in s.tasks && Failer(s.tasks[t]) && Filed(s)
    requires Owned(s.tasks[t]).Some? ==> Owned(s.tasks[t]).value in s.store.jobs
    ensures Writes(s, Step(s, t, c), Subject(s.tasks[t]))
  {
    if s.tasks[t].Failing? {
      FailWrites(s.(now := c.now), t, s.tasks[t].p, s.tasks[t].j, c.config);
    }
  }

  lemma FailWrites(s: Calls, t: nat, p: string, j: Job, config: Option<QueueConfig>)
    requires j.id in s.store.jobs && Filed(s)
    ensures Wrote(s, Fail(s, t, p, j, config), j.id)
  {
    if !j.CanRetry() || config.Some? {
      FailMarks(s, t, p, j, config);
    } else {
      FailDrops(s, t, p, j);
    }
  }

  lemma FailMarks(s: Calls, t: nat, p: string, j: Job, config: Option<QueueConfig>)
    requires j.id in s.store.jobs && Filed(s) && (!j.CanRetry() || config.Some?)
    ensures Wrote(s, Fail(s, t, p, j, config), j.id)
  {
    var status := if j.CanRetry() then Retrying else Failed;
    assert Fail(s, t, p, j, config).store == s.store.UpdateStatus(j.id, status, s.now);
    assert Fail(s, t, p, j, config).traces == NoteFailure(s, j.id, config).traces;
  }

  lemma FailDrops(s: Calls, t: nat, p: string, j: Job)
    requires j.id in s.store.jobs && Filed(s) && j.CanRetry()
    ensures Wrote(s, Fail(s, t, p, j, None), j.id)
  {
  }

  lemma LoserWrites(s: Calls, t: nat, c: Choice)
    requires t in s.tasks && Loser(s.tasks[t])
    ensures Writes(s, Step(s, t, c), Subject(s.tasks[t]))
  {
  }

  /** A call writes at most one job's record and history, and removes none. */
  lemma CallRecords(s: Calls, t: nat, c: Choice)
    requires t in s.tasks && Filed(s) && OwnersStored(s)
    ensures Recorded(s, Step(s, t, c), Subject(s.tasks[t]))
  {
    var k := s.tasks[t];
    if Owned(k).Some? { OwnStored(s, t); }
    if Submitter(k) { SubmitterWrites(s, t, c); }
    else if Burier(k) { BurierWrites(s, t, c); }
    else if Canceller(k) { CancellerWrites(s, t, c); }
    else if Fetcher(k) { FetcherWrites(s, t, c); }
    else if Runner(k) { RunnerWrites(s, t, c); }
    else if Winner(k) { WinnerWrites(s, t, c); }
    else if Failer(k) { FailerWrites(s, t, c); }
    else { LoserWrites(s, t, c); }
    WritesAreRecorded(s, Step(s, t, c), Subject(k));
  }

  /** The job a call leaves without anything that stands for it: one whose outcome was just recorded,
      a retry that finds no configuration, an entry removed by a canceller. */
  function Releases(s: Calls, t: nat, c: Choice): Option<string>
    requires t in s.tasks
  {
    match s.tasks[t]
    case Handling(_, j) => if c.yes then Some(j.id) else None
    case Failing(_, j) => if j.CanRetry() && c.config.Some? then None else Some(j.id)
    case Marked(j) =>
      if FirstOf(s.store.Entries(j.queue), j.id) < |s.store.Entries(j.queue)| then Some(j.id) else None
    case _ => None
  }

  /** The flow of a call of task t: its own job, or one it takes from a queue or a channel. */
  ghost predicate IsFlow(s: Calls, s': Calls, t: nat, f: Flow, released: Option<string>) {
    && Flows(s, s', f)
    && released == (if f.src.Some? && f.to.None? then Owner(s, f.src.value) else None)
    && (f.src.Some? && f.src.value.OfTask? ==> f.src.value.t == t)
    && (f.to.Some? && f.src != Some(OfTask(t)) ==> f.to == Some(OfTask(t)))
    && (f.to.Some? && f.src.None? ==> Owner(s', f.to.value).value in s'.store.jobs)
    && (f.src.Some? && f.src.value.OfChannel? ==> t in s.tasks && s.tasks[t] == Waiting(f.src.value.p))
    && (f.to.Some? && f.to.value.OfChannel? ==>
          t in s.tasks && s.tasks[t].Carrying? && s.tasks[t].p == f.to.value.p)
  }

  lemma Retimed(s: Calls, now: int, s': Calls, f: Flow)
    requires Flows(s.(now := now), s', f)
    ensures Flows(s, s', f)
  {
    var r := s.(now := now);
    assert forall x :: At(r, x) == At(s, x);
    forall x
      ensures CameFrom(s, s', f, x) && WentOn(s, s', f, x)
    {
      assert CameFrom(r, s', f, x) && WentOn(r, s', f, x);
    }
  }

  lemma StaysFlow(s: Calls, s': Calls, t: nat) returns (f: Flow)
    requires InPlace(s, s', t)
    ensures IsFlow(s, s', t, f, if Owned(s'.tasks[t]).Some? then None else Owned(s.tasks[t]))
  {
    f := InPlaceFlow(s, s', t);
    InPlaceFlows(s, s', t);
  }

  lemma CreatesFlow(s: Calls, t: nat, j: Job, created: Task, refused: Task) returns (f: Flow)
    requires t in s.tasks && Owned(s.tasks[t]).None? && Owned(created) == Some(j.id) && Owned(refused).None?
    ensures IsFlow(s, Create(s, t, j, created, refused), t, f, None)
  {
    var s' := Create(s, t, j, created, refused);
    if j.id in s.store.jobs {
      f := StaysFlow(s, s', t);
    } else {
      f := Flow(Keep, None, Some(OfTask(t)));
      CreateFlows(s, s', t, j);
    }
  }

  lemma AppendsFlow(s: Calls, t: nat, j: Job, due: int, next: Task) returns (f: Flow)
    requires t in s.tasks && Owned(s.tasks[t]) == Some(j.id) && Owned(next).None? && j.id in s.store.jobs
    ensures IsFlow(s, Append(s, t, j, due, next), t, f, None)
  {
    f := Flow(Keep, Some(OfTask(t)), Some(OfQueue(j.queue, |s.store.Entries(j.queue)|)));
    AppendFlows(s, t, j, due, next);
  }

  lemma SubmitterFlow(s: Calls, t: nat, c: Choice) returns (f: Flow)
    requires Safe(s) && t in s.tasks && Submitter(s.tasks[t])
    ensures IsFlow(s, Step(s, t, c), t, f, Releases(s, t, c))
  {
    var r, s' := s.(now := c.now), Step(s, t, c);
    if s.tasks[t].Creating? {
      f := CreatesFlow(r, t, s.tasks[t].j, Created(s.tasks[t].j), Gone);
      Retimed(s, c.now, s', f);
    } else if s.tasks[t].Created? {
      OwnStored(s, t);
      f := AppendsFlow(r, t, s.tasks[t].j, DueAt(s.tasks[t].j, c.now), Counting);
      Retimed(s, c.now, s', f);
    } else {
      f := StaysFlow(s, s', t);
    }
  }

  lemma BurierStays(s: Calls, t: nat, c: Choice)
    requires t in s.tasks && (s.tasks[t].Burying? || s.tasks[t].Mourning?)
    ensures InPlace(s, Step(s, t, c), t)
  {
  }

  lemma InterringFlow(s: Calls, t: nat, c: Choice) returns (f: Flow)
    requires Safe(s) && t in s.tasks && s.tasks[t].Interring?
    ensures IsFlow(s, Step(s, t, c), t, f, Releases(s, t, c))
  {
    var p, j := s.tasks[t].p, s.tasks[t].j;
    f := CreatesFlow(s.(now := c.now), t, j, Buried(p, j), Blaming(p));
    Retimed(s, c.now, Step(s, t, c), f);
  }

  lemma BuriedFlow(s: Calls, t: nat, c: Choice) returns (f: Flow)
    requires Safe(s) && t in s.tasks && s.tasks[t].Buried?
    ensures IsFlow(s, Step(s, t, c), t, f, Releases(s, t, c))
  {
    var p, j := s.tasks[t].p, s.tasks[t].j;
    OwnStored(s, t);
    f := AppendsFlow(s.(now := c.now), t, j, DueAt(j, c.now), Mourning(p));
    Retimed(s, c.now, Step(s, t, c), f);
  }

  lemma BurierFlow(s: Calls, t: nat, c: Choice) returns (f: Flow)
    requires Safe(s) && t in s.tasks && Burier(s.tasks[t])
    ensures IsFlow(s, Step(s, t, c), t, f, Releases(s, t, c))
  {
    if s.tasks[t].Interring? {
      f := InterringFlow(s, t, c);
    } else if s.tasks[t].Buried? {
      f := BuriedFlow(s, t, c);
    } else {
      BurierStays(s, t, c);
      f := StaysFlow(s, Step(s, t, c), t);
    }
  }

  lemma CancellerFlow(s: Calls, t: nat, c: Choice) returns (f: Flow)
    requires Safe(s) && t in s.tasks && Canceller(s.tasks[t])
    ensures IsFlow(s, Step(s, t, c), t, f, Releases(s, t, c))
  {
    var r, s' := s.(now := c.now), Step(s, t, c);
    if s.tasks[t].Marked? {
      var j := s.tasks[t].j;
      var k := FirstOf(s.store.Entries(j.queue), j.id);
      if k < |s.store.Entries(j.queue)| {
        f := TakeFlow(s', t, j.queue, k);
        TakeFlows(r, s', t, j.queue, k);
        Retimed(s, c.now, s', f);
        return;
      }
    }
    f := StaysFlow(s, s', t);
  }

  lemma PollFlow(s: Calls, t: nat, c: Choice) returns (f: Flow)
    requires Safe(s) && t in s.tasks && s.tasks[t].Polling?
    ensures IsFlow(s, Step(s, t, c), t, f, Releases(s, t, c))
  {
    var r, s' := s.(now := c.now), Step(s, t, c);
    if s.store.CanServe(c.q, c.now) {
      var k := BestIndex(s.store.Entries(c.q), c.now);
      f := TakeFlow(s', t, c.q, k);
      TakeFlows(r, s', t, c.q, k);
      Retimed(s, c.now, s', f);
    } else {
      f := StaysFlow(s, s', t);
    }
  }

  lemma FetcherFlow(s: Calls, t: nat, c: Choice) returns (f: Flow)
    requires Safe(s) && t in s.tasks && Fetcher(s.tasks[t])
    ensures IsFlow(s, Step(s, t, c), t, f, Releases(s, t, c))
  {
    var r, s' := s.(now := c.now), Step(s, t, c);
    if s.tasks[t].Polling? {
      f := PollFlow(s, t, c);
    } else if s.tasks[t].Returning? {
      OwnStored(s, t);
      f := AppendsFlow(r, t, s.tasks[t].j, c.now, Polling(s.tasks[t].p));
      Retimed(s, c.now, s', f);
    } else if s.tasks[t].Carrying? && c.yes {
      f := Flow(Keep, Some(OfTask(t)), Some(OfChannel(s.tasks[t].p, |s.Channel(s.tasks[t].p)|)));
      SendFlows(r, t, s.tasks[t].p, s.tasks[t].j);
      Retimed(s, c.now, s', f);
    } else {
      if Owned(s.tasks[t]).Some? { OwnStored(s, t); }
      f := StaysFlow(s, s', t);
    }
  }

  lemma RunnerStays(s: Calls, t: nat, c: Choice)
    requires t in s.tasks && Runner(s.tasks[t]) && (s.tasks[t].Waiting? ==> s.Channel(s.tasks[t].p) == [])
    requires Owned(s.tasks[t]).Some? ==> Owned(s.tasks[t]).value in s.store.jobs
    ensures InPlace(s, Step(s, t, c), t)
    ensures Releases(s, t, c) == if Owned(Step(s, t, c).tasks[t]).Some? then None else Owned(s.tasks[t])
  {
  }

  lemma RunnerFlow(s: Calls, t: nat, c: Choice) returns (f: Flow)
    requires Safe(s) && t in s.tasks && Runner(s.tasks[t])
    ensures IsFlow(s, Step(s, t, c), t, f, Releases(s, t, c))
  {
    if s.tasks[t].Waiting? && s.Channel(s.tasks[t].p) != [] {
      var p := s.tasks[t].p;
      f := Flow(DropHead(p), Some(OfChannel(p, 0)), Some(OfTask(t)));
      ReceiveFlows(s.(now := c.now), t, p);
      Retimed(s, c.now, Step(s, t, c), f);
    } else {
      if Owned(s.tasks[t]).Some? { OwnStored(s, t); }
      RunnerStays(s, t, c);
      f := StaysFlow(s, Step(s, t, c), t);
    }
  }

  lemma FailingStays(s: Calls, t: nat, p: string, j: Job, config: Option<QueueConfig>)
    requires t in s.tasks && Owned(s.tasks[t]) == Some(j.id)
    ensures InPlace(s, Fail(s, t, p, j, config), t)
    ensures Owned(Fail(s, t, p, j, config).tasks[t]) == if j.CanRetry() && config.Some? then Some(j.id) else None
  {
  }

  lemma FailerStays(s: Calls, t: nat, c: Choice)
    requires t in s.tasks && Failer(s.tasks[t]) && !s.tasks[t].Requeueing?
    requires Owned(s.tasks[t]).Some? ==> Owned(s.tasks[t]).value in s.store.jobs
    ensures InPlace(s, Step(s, t, c), t)
    ensures Releases(s, t, c) == if Owned(Step(s, t, c).tasks[t]).Some? then None else Owned(s.tasks[t])
  {
    if s.tasks[t].Failing? {
      FailingStays(s.(now := c.now), t, s.tasks[t].p, s.tasks[t].j, c.config);
    }
  }

  lemma FailerFlow(s: Calls, t: nat, c: Choice) returns (f: Flow)
    requires Safe(s) && t in s.tasks && Failer(s.tasks[t])
    ensures IsFlow(s, Step(s, t, c), t, f, Releases(s, t, c))
  {
    if s.tasks[t].Requeueing? {
      OwnStored(s, t);
      f := AppendsFlow(s.(now := c.now), t, s.tasks[t].j, c.now + s.tasks[t].delay, Repeating(s.tasks[t].p));
      Retimed(s, c.now, Step(s, t, c), f);
    } else {
      if Owned(s.tasks[t]).Some? { OwnStored(s, t); }
      FailerStays(s, t, c);
      f := StaysFlow(s, Step(s, t, c), t);
    }
  }

  lemma WinnerStays(s: Calls, t: nat, c: Choice)
    requires t in s.tasks && Winner(s.tasks[t])
    ensures InPlace(s, Step(s, t, c), t)
  {
  }

  lemma LoserStays(s: Calls, t: nat, c: Choice)
    requires t in s.tasks && Loser(s.tasks[t])
    ensures InPlace(s, Step(s, t, c), t)
  {
  }

  /** The counters and what surrounds them own nothing. */
  lemma CounterFlow(s: Calls, t: nat, c: Choice) returns (f: Flow)
    requires Safe(s) && t in s.tasks && (Winner(s.tasks[t]) || Loser(s.tasks[t]))
    ensures IsFlow(s, Step(s, t, c), t, f, Releases(s, t, c))
  {
    if Winner(s.tasks[t]) { WinnerStays(s, t, c); } else { LoserStays(s, t, c); }
    f := StaysFlow(s, Step(s, t, c), t);
  }

  lemma CallFlow(s: Calls, t: nat, c: Choice) returns (f: Flow)
    requires Safe(s) && t in s.tasks
    ensures IsFlow(s, Step(s, t, c), t, f, Releases(s, t, c))
  {
    var k := s.tasks[t];
    if Submitter(k) { f := SubmitterFlow(s, t, c); }
    else if Burier(k) { f := BurierFlow(s, t, c); }
    else if Canceller(k) { f := CancellerFlow(s, t, c); }
    else if Fetcher(k) { f := FetcherFlow(s, t, c); }
    else if Runner(k) { f := RunnerFlow(s, t, c); }
    else if Failer(k) { f := FailerFlow(s, t, c); }
    else { f := CounterFlow(s, t, c); }
  }

  lemma CallKeepsSafe(s: Calls, t: nat, c: Choice)
    requires Safe(s) && t in s.tasks
    ensures Safe(Step(s, t, c))
  {
    var f := CallFlow(s, t, c);
    CallRecords(s, t, c);
    FlowKeepsOwnedOnce(s, Step(s, t, c), f);
    FlowKeepsStored(s, Step(s, t, c), f);
  }

  /** The other events move nothing. */
  lemma OtherEventStays(s: Calls, e: Event, x: Spot)
    requires Possible(s, e) && !e.Call?
    ensures At(Next(s, e), x) == At(s, x)
  {
  }

  lemma EventKeepsSafe(s: Calls, e: Event)
    requires Safe(s) && Possible(s, e)
    ensures Safe(Next(s, e))
  {
    if e.Call? {
      CallKeepsSafe(s, e.t, e.choice);
    } else {
      var s' := Next(s, e);
      forall x
        ensures Owner(s', x) == Owner(s, x)
      {
        OtherEventStays(s, e, x);
      }
    }
  }

  /** Under every interleaving of storage calls, by any number of pools and callers, a job ID
      occurs at most once across all queues, channels and goroutines. */
  lemma {:induction false} SingleOwnershipOfCalls(s: Calls, events: seq<Event>, s': Calls)
    requires Safe(s) && Happens(s, events, s')
    ensures Safe(s')
    decreases |events|
  {
    if events != [] {
      EventKeepsSafe(s, events[0]);
      SingleOwnershipOfCalls(Next(s, events[0]), events[1..], s');
    }
  }

  lemma StartSafe()
    ensures Safe(START)
  {
    assert forall x :: At(START, x).None?;
  }

  // ---- pools that can still receive ----

  /** The pool a worker goroutine belongs to, whatever it is doing. */
  function WorkerOf(task: Task): Option<string> {
    match task
    case Waiting(p) => Some(p)
    case Received(p, _) => Some(p)
    case Handling(p, _) => Some(p)
    case Succeeded(p, _) => Some(p)
    case Finishing(p) => Some(p)
    case Crediting(p) => Some(p)
    case Failing(p, _) => Some(p)
    case Resaving(p, _, _) => Some(p)
    case Requeueing(p, _, _) => Some(p)
    case Repeating(p) => Some(p)
    case Condemned(p, _) => Some(p)
    case Judging(p, _) => Some(p)
    case Burying(p, _) => Some(p)
    case Interring(p, _) => Some(p)
    case Buried(p, _) => Some(p)
    case Mourning(p) => Some(p)
    case Blaming(p) => Some(p)
    case _ => None
  }

  predicate WorksFor(s: Calls, t: nat, p: string) {
    t in s.tasks && WorkerOf(s.tasks[t]) == Some(p)
  }

  /** Not stopped, or with a worker left: what lies in the channel can still be received. */
  ghost predicate Live(s: Calls, p: string) {
    p !in s.stopped || exists t :: WorksFor(s, t, p)
  }

  /** A call starts no other goroutine, stops no pool, and leaves its goroutine in its pool. */
  ghost predicate SamePool(s: Calls, s': Calls, t: nat) {
    && t in s.tasks && t in s'.tasks && s'.tasks == s.tasks[t := s'.tasks[t]] && s'.stopped == s.stopped
    && WorkerOf(s'.tasks[t]) == WorkerOf(s.tasks[t])
  }

  lemma SubmitterPool(s: Calls, t: nat, c: Choice)
    requires t in s.tasks && (Submitter(s.tasks[t]) || Canceller(s.tasks[t]))
    ensures SamePool(s, Step(s, t, c), t)
  {
  }

  lemma FetcherPool(s: Calls, t: nat, c: Choice)
    requires t in s.tasks && Fetcher(s.tasks[t])
    ensures SamePool(s, Step(s, t, c), t)
  {
  }

  lemma RunnerPool(s: Calls, t: nat, c: Choice)
    requires t in s.tasks && Runner(s.tasks[t])
    ensures SamePool(s, Step(s, t, c), t)
  {
  }

  lemma FailerPool(s: Calls, t: nat, c: Choice)
    requires t in s.tasks && Failer(s.tasks[t])
    ensures SamePool(s, Step(s, t, c), t)
  {
  }

  lemma BurierPool(s: Calls, t: nat, c: Choice)
    requires t in s.tasks && Burier(s.tasks[t])
    ensures SamePool(s, Step(s, t, c), t)
  {
  }

  lemma CounterPool(s: Calls, t: nat, c: Choice)
    requires t in s.tasks && (Winner(s.tasks[t]) || Loser(s.tasks[t]))
    ensures SamePool(s, Step(s, t, c), t)
  {
  }

  lemma CallSamePool(s: Calls, t: nat, c: Choice)
    requires t in s.tasks
    ensures SamePool(s, Step(s, t, c), t)
  {
    var k := s.tasks[t];
    if Submitter(k) || Canceller(k) { SubmitterPool(s, t, c); }
    else if Fetcher(k) { FetcherPool(s, t, c); }
    else if Runner(k) { RunnerPool(s, t, c); }
    else if Failer(k) { FailerPool(s, t, c); }
    else if Burier(k) { BurierPool(s, t, c); }
    else { CounterPool(s, t, c); }
  }

  lemma CallKeepsLive(s: Calls, t: nat, c: Choice, p: string)
    requires t in s.tasks
    ensures Live(Step(s, t, c), p) <==> Live(s, p)
  {
    CallSamePool(s, t, c);
    var s' := Step(s, t, c);
    assert forall u :: WorksFor(s', u, p) <==> WorksFor(s, u, p);
  }

  /** A pool that nobody works for any more gets no worker again. */
  lemma DeadStays(s: Calls, e: Event, p: string)
    requires Possible(s, e) && !Live(s, p)
    ensures !Live(Next(s, e), p)
  {
    if e.Call? {
      CallKeepsLive(s, e.t, e.choice, p);
    } else {
      forall u
        ensures !WorksFor(Next(s, e), u, p)
      {
        assert !WorksFor(s, u, p);
      }
    }
  }
}
