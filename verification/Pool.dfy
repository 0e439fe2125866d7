/** The worker pool: the fetch loop and the phases of processing one job. */
module WorkerPool {
  import opened Jobs
  import opened MemoryStorage
  import opened QueueManager
  import opened Backoff

  datatype PoolConfig = PoolConfig(id: string, queues: seq<string>, concurrency: nat)

  // ---- the phases, as functions of the manager's state ----

  function StartPhase(m: Mgr, j: Job, now: int): Mgr {
    m.(store := m.store.UpdateStatus(j.id, Running, now))
  }

  function SuccessPhase(m: Mgr, j: Job, now: int, pool: string): Mgr {
    var s := m.store.UpdateStatus(j.id, Success, now).UpdateProgress(j.id, 100);
    m.(store := s.(completed := s.completed + 1).IncrementProcessed(pool))
  }

  /** The retry branch; without a registration it gives up half-way and counts nothing. */
  function AfterRetry(m: Mgr, j: Job, now: int, pool: string): Mgr {
    var j' := j.(retryCount := j.retryCount + 1);
    match m.Lookup(j.queue)
    case None => m
    case Some(c) =>
      var m1 := m.Cached(j.queue);
      var m2 := m1.(store := m1.store.UpdateStatus(j.id, Retrying, now))
                .Requeue(j', CalculateRetryDelay(j'.retryCount, c), now);
      m2.(store := m2.store.(retried := m2.store.retried + 1).IncrementFailed(pool))
  }

  /** The dead letter goes through Enqueue under the job's own ID. */
  function DeadLetter(m: Mgr, j: Job, now: int): Mgr {
    match m.Lookup(j.queue)
    case None => m
    case Some(c) =>
      if c.deadLetterQueue == "" then m.Cached(j.queue)
      else m.Cached(j.queue).Enqueue(j.(queue := c.deadLetterQueue, status := Pending), now).0
  }

  function WithFailure(m: Mgr, j: Job, now: int): Mgr {
    var s := m.store.UpdateStatus(j.id, Failed, now);
    m.(store := s.(failed := s.failed + 1))
  }

  /** The final branch. */
  function AfterGivingUp(m: Mgr, j: Job, now: int, pool: string): Mgr {
    var m1 := DeadLetter(WithFailure(m, j, now), j, now);
    m1.(store := m1.store.IncrementFailed(pool))
  }

  function FailurePhase(m: Mgr, j: Job, msg: string, now: int, pool: string): Mgr {
    var m1 := m.(store := m.store.SetError(j.id, msg));
    if j.CanRetry() then AfterRetry(m1, j, now, pool) else AfterGivingUp(m1, j, now, pool)
  }

  /** `draws(i)`, `stops(i)` and `nows(i)` are the random draw, the outcome of the select and the clock of
      round i. */
  function FetchLoop(m: Mgr, ch: seq<Job>, pool: PoolConfig,
                     draws: nat -> nat, stops: nat -> bool, nows: nat -> int, i: nat): (Mgr, seq<Job>)
    decreases pool.concurrency - |ch|
  {
    if |ch| >= pool.concurrency then (m, ch)
    else
      var (m', r) := m.Dequeue(pool.queues, draws(i), nows(i));
      if !r.Fetched? then (m', ch)
      else if stops(i) then (m'.Requeue(r.job, 0, nows(i)), ch)
      else FetchLoop(m', ch + [r.job], pool, draws, stops, nows, i + 1)
  }

  // ---- the pool object ----

  class Pool {
    const manager: Manager
    const config: PoolConfig
    var jobCh: seq<Job>

    constructor (manager: Manager, config: PoolConfig)
      ensures this.manager == manager && this.config == config && jobCh == []
    {
      this.manager, this.config := manager, config;
      jobCh := [];
    }

    method FetchJobs(draws: nat -> nat, stops: nat -> bool, nows: nat -> int)
      requires manager.store as object != this
      modifies this, manager.store
      ensures (manager.State(), jobCh)
           == FetchLoop(old(manager.State()), old(jobCh), config, draws, stops, nows, 0)
      ensures |old(jobCh)| <= config.concurrency ==> |jobCh| <= config.concurrency
    {
      ghost var m0, ch0 := manager.State(), jobCh;
      var i := 0;
      while |jobCh| < config.concurrency
        invariant FetchLoop(m0, ch0, config, draws, stops, nows, 0)
               == FetchLoop(manager.State(), jobCh, config, draws, stops, nows, i)
        invariant |ch0| <= config.concurrency ==> |jobCh| <= config.concurrency
        decreases config.concurrency - |jobCh|
      {
        var r := manager.Dequeue(config.queues, draws(i), nows(i));
        match r {
          case Fetched(j) =>
            if stops(i) {
              var requeued := manager.Requeue(j, 0, nows(i));
              return;
            }
            jobCh := jobCh + [j];
          case _ =>
            return;
        }
        i := i + 1;
      }
    }

    /** `failure` is the handler's error, if any. */
    method ProcessJob(j: Job, failure: Option<string>, started: int, finished: int)
      modifies manager, manager.store
      ensures manager.State() ==
        (var m := old(manager.State());
         if j.id !in m.store.jobs then m
         else if failure.Some? then
           FailurePhase(StartPhase(m, j, started), j, failure.value, finished, config.id)
         else SuccessPhase(StartPhase(m, j, started), j, finished, config.id))
    {
      var r := manager.store.UpdateStatus(j.id, Running, started);
      if r.Err? { return; }
      if failure.Some? {
        HandleJobFailure(j, failure.value, finished);
      } else {
        HandleJobSuccess(j, finished);
      }
    }

    method HandleJobSuccess(j: Job, now: int)
      modifies manager.store
      ensures manager.State() == SuccessPhase(old(manager.State()), j, now, config.id)
    {
      var r := manager.store.UpdateStatus(j.id, Success, now);
      r := manager.store.UpdateProgress(j.id, 100);
      manager.store.RecordJobCompleted();
      r := manager.store.IncrementProcessed(config.id);
    }

    method HandleJobFailure(j: Job, msg: string, now: int)
      modifies manager, manager.store
      ensures manager.State() == FailurePhase(old(manager.State()), j, msg, now, config.id)
    {
      var r := manager.store.SetError(j.id, msg);
      if j.CanRetry() {
        RetryJob(j, now);
      } else {
        GiveUpJob(j, now);
      }
    }

    method RetryJob(j0: Job, now: int)
      modifies manager, manager.store
      ensures manager.State() == AfterRetry(old(manager.State()), j0, now, config.id)
    {
      var j := j0.(retryCount := j0.retryCount + 1);
      var found := manager.GetQueueConfig(j.queue);
      if found.Err? { return; }
      var delay := CalculateRetryDelay(j.retryCount, found.value);
      var r := manager.store.UpdateStatus(j.id, Retrying, now);
      r := manager.Requeue(j, delay, now);
      manager.store.RecordJobRetried();
      r := manager.store.IncrementFailed(config.id);
    }

    method GiveUpJob(j: Job, now: int)
      modifies manager, manager.store
      ensures manager.State() == AfterGivingUp(old(manager.State()), j, now, config.id)
    {
      ghost var m := manager.State();
      var r := manager.store.UpdateStatus(j.id, Failed, now);
      manager.store.RecordJobFailed();
      assert manager.State() == WithFailure(m, j, now);
      SendToDeadLetter(j, now);
      r := manager.store.IncrementFailed(config.id);
    }

    method SendToDeadLetter(j0: Job, now: int)
      modifies manager, manager.store
      ensures manager.State() == DeadLetter(old(manager.State()), j0, now)
    {
      var found := manager.GetQueueConfig(j0.queue);
      if found.Ok? && found.value.deadLetterQueue != "" {
        var j := j0.(queue := found.value.deadLetterQueue, status := Pending);
        var r := manager.Enqueue(j, now);
      }
    }
  }
}
