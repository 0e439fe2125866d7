/** The in-memory storage backend: a value `Store` with one function per storage call, and the
    class that performs those calls in place. */
module MemoryStorage {
  import opened Jobs

  datatype Error =
    | JobNotFound | JobAlreadyExists | QueueEmpty | QueuePaused
    | WorkerNotFound | ConfigNotFound | NoQueuesSpecified | NameRequired | AlreadyTerminal

  datatype Result<+T> = Ok(value: T) | Err(error: Error)

  /** What a dequeue hands out; Panicked is the random source called with a non-positive bound. */
  datatype Fetch = Fetched(job: Job) | NotFetched(error: Error) | Panicked

  datatype Entry = Entry(jobId: string, priority: int, timestamp: int)

  datatype WorkerCounts = WorkerCounts(processed: nat, failed: nat)

  predicate Due(e: Entry, now: int) {
    e.timestamp <= now
  }

  predicate HasDue(entries: seq<Entry>, now: int) {
    exists i :: 0 <= i < |entries| && Due(entries[i], now)
  }

  /** `b` is the first of the highest-priority due entries among the first `n`, or -1. */
  ghost predicate IsPick(entries: seq<Entry>, now: int, n: nat, b: int)
    requires n <= |entries|
  {
    && -1 <= b < n
    && (b == -1 ==> forall k :: 0 <= k < n ==> entries[k].timestamp > now)
    && (b >= 0 ==>
         && entries[b].timestamp <= now
         && forall k :: 0 <= k < n && entries[k].timestamp <= now ==>
              entries[k].priority <= entries[b].priority
              && (k < b ==> entries[k].priority < entries[b].priority))
  }

  /** The scan of Dequeue after `n` entries. */
  function Scan(entries: seq<Entry>, now: int, n: nat): (b: int)
    requires n <= |entries|
    ensures IsPick(entries, now, n, b)
  {
    if n == 0 then -1
    else
      var b := Scan(entries, now, n - 1);
      var e := entries[n - 1];
      if Due(e, now) && (b == -1 || e.priority > entries[b].priority) then n - 1 else b
  }

  /** The description leaves no choice. */
  lemma PickUnique(entries: seq<Entry>, now: int, n: nat, b: int, c: int)
    requires n <= |entries|
    requires IsPick(entries, now, n, b) && IsPick(entries, now, n, c)
    ensures b == c
  {
    if b >= 0 && c >= 0 {
      assert entries[b].timestamp <= now && entries[c].timestamp <= now;
    }
  }

  function BestIndex(entries: seq<Entry>, now: int): (b: int)
    ensures IsPick(entries, now, |entries|, b)
    ensures b >= 0 <==> HasDue(entries, now)
  {
    Scan(entries, now, |entries|)
  }

  function RemoveAt<T>(s: seq<T>, i: nat): seq<T>
    requires i < |s|
  {
    s[..i] + s[i + 1..]
  }

  /** Position of the first entry of a job, or the length. */
  function FirstOf(entries: seq<Entry>, id: string): (i: nat)
    ensures i <= |entries|
    ensures i < |entries| ==> entries[i].jobId == id
    ensures forall k :: 0 <= k < i ==> entries[k].jobId != id
  {
    if |entries| == 0 then 0
    else if entries[0].jobId == id then 0
    else 1 + FirstOf(entries[1..], id)
  }

  /** A job with a new status; the first start and the first end are dated. */
  function Stamped(j0: Job, status: Status, now: int): Job {
    var j := j0.(status := status);
    var j := if status == Running && j.startedAt.None? then j.(startedAt := Some(now)) else j;
    if j.IsTerminal() && j.completedAt.None? then j.(completedAt := Some(now)) else j
  }

  datatype Store = Store(
    jobs: map<string, Job>,
    queues: map<string, seq<Entry>>,
    paused: map<string, bool>,
    configs: map<string, QueueConfig>,
    workers: map<string, WorkerCounts>,
    created: nat, completed: nat, failed: nat, retried: nat)
  {
    function Entries(q: string): seq<Entry> {
      if q in queues then queues[q] else []
    }

    predicate IsPaused(q: string) {
      q in paused && paused[q]
    }

    function CreateJob(j: Job): Store {
      if j.id in jobs then this else this.(jobs := jobs[j.id := j])
    }

    function UpdateJob(j: Job): Store {
      if j.id in jobs then this.(jobs := jobs[j.id := j]) else this
    }

    function UpdateStatus(id: string, status: Status, now: int): Store {
      if id !in jobs then this else this.(jobs := jobs[id := Stamped(jobs[id], status, now)])
    }

    function UpdateProgress(id: string, progress: int): Store {
      if id !in jobs then this else this.(jobs := jobs[id := jobs[id].(progress := progress)])
    }

    function SetError(id: string, msg: string): Store {
      if id !in jobs then this else this.(jobs := jobs[id := jobs[id].(error := msg)])
    }

    /** Enqueue and Requeue are the same call here. */
    function Enqueue(q: string, id: string, priority: int, timestamp: int): Store {
      if id !in jobs then this
      else this.(queues := queues[q := Entries(q) + [Entry(id, priority, timestamp)]])
    }

    function TakeAt(q: string, i: nat): Store
      requires i < |Entries(q)|
    {
      this.(queues := queues[q := RemoveAt(Entries(q), i)])
    }

    predicate CanServe(q: string, now: int) {
      !IsPaused(q) && HasDue(Entries(q), now)
    }

    function Dequeue(q: string, now: int): (Store, Result<string>) {
      if IsPaused(q) then (this, Err(QueuePaused))
      else
        var b := BestIndex(Entries(q), now);
        if b < 0 then (this, Err(QueueEmpty)) else (TakeAt(q, b), Ok(Entries(q)[b].jobId))
    }

    /** GetJob after a dequeue. */
    function Deliver(r: Result<string>): Fetch {
      if r.Err? then NotFetched(r.error)
      else if r.value in jobs then Fetched(jobs[r.value])
      else NotFetched(JobNotFound)
    }

    function Remove(q: string, id: string): Store {
      var i := FirstOf(Entries(q), id);
      if i < |Entries(q)| then TakeAt(q, i) else this
    }

    function IncrementProcessed(w: string): Store {
      if w !in workers then this
      else this.(workers := workers[w := workers[w].(processed := workers[w].processed + 1)])
    }

    function IncrementFailed(w: string): Store {
      if w !in workers then this
      else this.(workers := workers[w := workers[w].(failed := workers[w].failed + 1)])
    }
  }

  // ---- the dates of a job ----

  datatype Update = Update(status: Status, at: int)

  function Updates(s: Store, id: string, us: seq<Update>): Store {
    if us == [] then s
    else Updates(s, id, us[..|us| - 1]).UpdateStatus(id, us[|us| - 1].status, us[|us| - 1].at)
  }

  /** When the first update to one of the statuses was made. */
  function FirstTo(us: seq<Update>, statuses: set<Status>): Option<int> {
    if us == [] then None
    else
      var before := FirstTo(us[..|us| - 1], statuses);
      if before.None? && us[|us| - 1].status in statuses then Some(us[|us| - 1].at) else before
  }

  function OrElse(a: Option<int>, b: Option<int>): Option<int> {
    if a.Some? then a else b
  }

  /** After any status updates a job has the status of the last, its start is dated by the first to
      RUNNING and its end by the first to SUCCESS, FAILED, CANCELLED or EXPIRED, unless it came dated;
      nothing else of it changes, and no other job. */
  lemma {:induction false} DatesAreFirst(s: Store, id: string, us: seq<Update>)
    requires id in s.jobs
    ensures var j := s.jobs[id];
      Updates(s, id, us) == s.(jobs := s.jobs[id := j.(
        status := if us == [] then j.status else us[|us| - 1].status,
        startedAt := OrElse(j.startedAt, FirstTo(us, {Running})),
        completedAt := OrElse(j.completedAt, FirstTo(us, {Success, Failed, Cancelled, Expired})))])
  {
    if us == [] {
      assert s.jobs == s.jobs[id := s.jobs[id]];
    } else {
      DatesAreFirst(s, id, us[..|us| - 1]);
      var j, t := s.jobs[id], Updates(s, id, us).jobs[id];
      assert Updates(s, id, us).jobs == s.jobs[id := t];
    }
  }

  const EMPTY_STORE := Store(map[], map[], map[], map[], map[], 0, 0, 0, 0)

  class MemoryStore {
    var jobs: map<string, Job>
    var queues: map<string, seq<Entry>>
    var paused: map<string, bool>
    var queueConfigs: map<string, QueueConfig>
    var workers: map<string, WorkerCounts>
    var jobsCreated: nat
    var jobsCompleted: nat
    var jobsFailed: nat
    var jobsRetried: nat

    ghost function State(): Store
      reads this
    {
      Store(jobs, queues, paused, queueConfigs, workers,
            jobsCreated, jobsCompleted, jobsFailed, jobsRetried)
    }

    constructor ()
      ensures State() == EMPTY_STORE
    {
      jobs, queues, paused, queueConfigs, workers := map[], map[], map[], map[], map[];
      jobsCreated, jobsCompleted, jobsFailed, jobsRetried := 0, 0, 0, 0;
    }

    method CreateJob(j: Job) returns (r: Result<()>)
      modifies this
      ensures State() == old(State()).CreateJob(j)
      ensures r == if j.id in old(jobs) then Err(JobAlreadyExists) else Ok(())
    {
      if j.id in jobs { return Err(JobAlreadyExists); }
      jobs := jobs[j.id := j];
      r := Ok(());
    }

    method GetJob(id: string) returns (r: Result<Job>)
      ensures r == if id in jobs then Ok(jobs[id]) else Err(JobNotFound)
    {
      if id !in jobs { return Err(JobNotFound); }
      r := Ok(jobs[id]);
    }

    method UpdateJob(j: Job) returns (r: Result<()>)
      modifies this
      ensures State() == old(State()).UpdateJob(j)
      ensures r == if j.id in old(jobs) then Ok(()) else Err(JobNotFound)
    {
      if j.id !in jobs { return Err(JobNotFound); }
      jobs := jobs[j.id := j];
      r := Ok(());
    }

    method UpdateStatus(id: string, status: Status, now: int) returns (r: Result<()>)
      modifies this
      ensures State() == old(State()).UpdateStatus(id, status, now)
      ensures r == if id in old(jobs) then Ok(()) else Err(JobNotFound)
    {
      if id !in jobs { return Err(JobNotFound); }
      var j := jobs[id];
      j := j.(status := status);
      if status == Running && j.startedAt.None? {
        j := j.(startedAt := Some(now));
      }
      if j.IsTerminal() && j.completedAt.None? {
        j := j.(completedAt := Some(now));
      }
      jobs := jobs[id := j];
      r := Ok(());
    }

    method UpdateProgress(id: string, progress: int) returns (r: Result<()>)
      modifies this
      ensures State() == old(State()).UpdateProgress(id, progress)
      ensures r == if id in old(jobs) then Ok(()) else Err(JobNotFound)
    {
      if id !in jobs { return Err(JobNotFound); }
      jobs := jobs[id := jobs[id].(progress := progress)];
      r := Ok(());
    }

    method SetError(id: string, msg: string) returns (r: Result<()>)
      modifies this
      ensures State() == old(State()).SetError(id, msg)
      ensures r == if id in old(jobs) then Ok(()) else Err(JobNotFound)
    {
      if id !in jobs { return Err(JobNotFound); }
      jobs := jobs[id := jobs[id].(error := msg)];
      r := Ok(());
    }

    method Enqueue(q: string, id: string, priority: int, delay: int, now: int) returns (r: Result<()>)
      modifies this
      ensures State() == old(State()).Enqueue(q, id, priority, now + delay)
      ensures r == if id in old(jobs) then Ok(()) else Err(JobNotFound)
      ensures r.Err? ==> State() == old(State())
    {
      if id !in jobs { return Err(JobNotFound); }
      var entries := if q in queues then queues[q] else [];
      queues := queues[q := entries + [Entry(id, priority, now + delay)]];
      r := Ok(());
    }

    /** The scan keeps the first of the best due entries and then closes the gap it leaves. */
    method Dequeue(q: string, now: int) returns (r: Result<string>)
      modifies this
      ensures (State(), r) == old(State()).Dequeue(q, now)
    {
      if q in paused && paused[q] { return Err(QueuePaused); }
      var entries := if q in queues then queues[q] else [];
      if |entries| == 0 { return Err(QueueEmpty); }
      var bestIdx, bestPriority := -1, -1;
      for i := 0 to |entries|
        invariant bestIdx == Scan(entries, now, i)
        invariant bestIdx >= 0 ==> bestPriority == entries[bestIdx].priority
      {
        if entries[i].timestamp > now { continue; }
        if bestIdx == -1 || entries[i].priority > bestPriority {
          bestIdx, bestPriority := i, entries[i].priority;
        }
      }
      if bestIdx == -1 { return Err(QueueEmpty); }
      r := Ok(entries[bestIdx].jobId);
      queues := queues[q := entries[..bestIdx] + entries[bestIdx + 1..]];
    }

    method Remove(q: string, id: string) returns (r: Result<()>)
      modifies this
      ensures State() == old(State()).Remove(q, id)
      ensures r.Ok? <==> exists e :: e in old(State().Entries(q)) && e.jobId == id
      ensures r.Err? ==> r.error == JobNotFound
    {
      var entries := if q in queues then queues[q] else [];
      for i := 0 to |entries|
        invariant forall k :: 0 <= k < i ==> entries[k].jobId != id
        invariant State() == old(State())
      {
        if entries[i].jobId == id {
          assert i == FirstOf(entries, id);
          assert entries[i] in old(State().Entries(q));
          queues := queues[q := entries[..i] + entries[i + 1..]];
          return Ok(());
        }
      }
      r := Err(JobNotFound);
    }

    method Length(q: string) returns (n: nat)
      ensures n == |State().Entries(q)|
    {
      n := if q in queues then |queues[q]| else 0;
    }

    method SetPaused(q: string, value: bool)
      modifies this
      ensures State() == old(State()).(paused := old(paused)[q := value])
    {
      paused := paused[q := value];
    }

    method IsQueuePaused(q: string) returns (b: bool)
      ensures b == State().IsPaused(q)
    {
      b := q in paused && paused[q];
    }

    method RegisterWorker(w: string)
      modifies this
      ensures State() == old(State()).(workers := old(workers)[w := WorkerCounts(0, 0)])
    {
      workers := workers[w := WorkerCounts(0, 0)];
    }

    method IncrementProcessed(w: string) returns (r: Result<()>)
      modifies this
      ensures State() == old(State()).IncrementProcessed(w)
      ensures r == if w in old(workers) then Ok(()) else Err(WorkerNotFound)
    {
      if w !in workers { return Err(WorkerNotFound); }
      workers := workers[w := workers[w].(processed := workers[w].processed + 1)];
      r := Ok(());
    }

    method IncrementFailed(w: string) returns (r: Result<()>)
      modifies this
      ensures State() == old(State()).IncrementFailed(w)
      ensures r == if w in old(workers) then Ok(()) else Err(WorkerNotFound)
    {
      if w !in workers { return Err(WorkerNotFound); }
      workers := workers[w := workers[w].(failed := workers[w].failed + 1)];
      r := Ok(());
    }

    method RecordJobCreated()
      modifies this
      ensures State() == old(State()).(created := old(jobsCreated) + 1)
    {
      jobsCreated := jobsCreated + 1;
    }

    method RecordJobCompleted()
      modifies this
      ensures State() == old(State()).(completed := old(jobsCompleted) + 1)
    {
      jobsCompleted := jobsCompleted + 1;
    }

    method RecordJobFailed()
      modifies this
      ensures State() == old(State()).(failed := old(jobsFailed) + 1)
    {
      jobsFailed := jobsFailed + 1;
    }

    method RecordJobRetried()
      modifies this
      ensures State() == old(State()).(retried := old(jobsRetried) + 1)
    {
      jobsRetried := jobsRetried + 1;
    }

    method SaveQueueConfig(config: QueueConfig)
      modifies this
      ensures State() == old(State()).(configs := old(queueConfigs)[config.name := config])
    {
      queueConfigs := queueConfigs[config.name := config];
    }

    method GetQueueConfig(name: string) returns (r: Result<QueueConfig>)
      ensures r == if name in queueConfigs then Ok(queueConfigs[name]) else Err(ConfigNotFound)
    {
      if name !in queueConfigs { return Err(ConfigNotFound); }
      r := Ok(queueConfigs[name]);
    }
  }
}
