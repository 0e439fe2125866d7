/** A manager call, or a phase of a pool goroutine, is its storage calls run without interruption: the
    two step machines agree on the store. */
module CallPhases {
  import opened Jobs
  import opened Backoff
  import opened MemoryStorage
  import opened QueueManager
  import opened QueueSelection
  import opened WorkerPool
  import opened CallInterleaving
  import CallOutcomes

  function Alone(s: Store, task: Task, now: int): Calls {
    Calls(s, map[], map[0 := task], {}, now, map[], 0)
  }

  /** The n next calls of goroutine 0, with the same answers from the environment. */
  function Does(s: Calls, c: Choice, n: nat): (s': Calls)
    requires 0 in s.tasks
    ensures 0 in s'.tasks
    decreases n
  {
    if n == 0 then s else Does(OneCall(s, c), c, n - 1)
  }

  function OneCall(s: Calls, c: Choice): (s': Calls)
    requires 0 in s.tasks
    ensures 0 in s'.tasks
  {
    KeepsTask(s, c);
    Step(s, 0, c)
  }

  lemma KeepsTask(s: Calls, c: Choice)
    requires 0 in s.tasks
    ensures 0 in Step(s, 0, c).tasks
  {
    CallOutcomes.CallOwnTask(s, 0, c);
  }

  lemma OneCallOn(s: Calls, c: Choice, n: nat)
    requires 0 in s.tasks && n >= 1
    ensures Does(s, c, n) == Does(OneCall(s, c), c, n - 1)
  {
  }

  /** Only the store and the goroutine's own place matter. */
  ghost predicate Stands(s: Calls, store: Store, task: Task) {
    0 in s.tasks && s.store == store && s.tasks[0] == task
  }

  // ---- the callers of the manager ----

  lemma CountTail(s: Calls, store: Store, c: Choice)
    requires Stands(s, store, Counting)
    ensures Stands(Does(s, c, 1), store.(created := store.created + 1), Gone)
  {
    assert Does(s, c, 1) == OneCall(s, c);
  }

  /** A created job is entered and counted. */
  function Submitted(store: Store, j: Job, now: int): Store {
    var appended := store.Enqueue(j.queue, j.id, j.priority, DueAt(j, now));
    appended.(created := appended.created + 1)
  }

  lemma AppendTail(s: Calls, store: Store, j: Job, c: Choice) returns (n: nat)
    requires Stands(s, store, Created(j))
    ensures n == 2
    ensures Stands(Does(s, c, n), Submitted(store, j, c.now), Gone)
  {
    CountTail(OneCall(s, c), store.Enqueue(j.queue, j.id, j.priority, DueAt(j, c.now)), c);
    n := 2;
    OneCallOn(s, c, n);
  }

  lemma CreateTail(s: Calls, store: Store, j: Job, c: Choice) returns (n: nat)
    requires Stands(s, store, Creating(j)) && j.id !in store.jobs
    ensures n == 3
    ensures Stands(Does(s, c, n), Submitted(store.CreateJob(j), j, c.now), Gone)
  {
    n := AppendTail(OneCall(s, c), store.CreateJob(j), j, c);
    n := n + 1;
    OneCallOn(s, c, n);
  }

  lemma RefusedTail(s: Calls, store: Store, j: Job, c: Choice)
    requires Stands(s, store, Creating(j)) && j.id in store.jobs
    ensures Stands(Does(s, c, 1), store, Gone)
  {
    assert Does(s, c, 1) == OneCall(s, c);
  }

  lemma RefusedEnqueue(m: Mgr, j: Job, now: int)
    requires j.id in m.store.jobs
    ensures m.Enqueue(j, now).0.store == Registered(m.store, QueueOf(j), m.Lookup(QueueOf(j)))
  {
  }

  lemma RegisteredByEnqueue(m: Mgr, j: Job)
    ensures m.Ensured(QueueOf(j)).0.store == Registered(m.store, QueueOf(j), m.Lookup(QueueOf(j)))
    ensures Completed(j, m.Lookup(QueueOf(j)))
         == j.(queue := QueueOf(j),
               maxRetries := if j.maxRetries == 0 then m.Ensured(QueueOf(j)).1.maxRetries else j.maxRetries)
  {
  }

  lemma AcceptedEnqueue(m: Mgr, j: Job, now: int)
    requires j.id !in m.store.jobs
    ensures var config := m.Lookup(QueueOf(j));
      var j' := Completed(j, config);
      m.Enqueue(j, now).0.store == Submitted(Registered(m.store, QueueOf(j), config).CreateJob(j'), j', now)
  {
    RegisteredByEnqueue(m, j);
    var j0 := if j.queue == "" then j.(queue := "default") else j;
    var (m1, c) := m.Ensured(j0.queue);
    var j1 := if j0.maxRetries == 0 then j0.(maxRetries := c.maxRetries) else j0;
    assert j1 == Completed(j, m.Lookup(QueueOf(j)));
  }

  lemma SubmitCall(m: Mgr, j: Job, c: Choice)
    requires c.config == m.Lookup(QueueOf(j))
    ensures Stands(OneCall(Alone(m.store, Submitting(j), c.now), c),
                   Registered(m.store, QueueOf(j), c.config), Creating(Completed(j, c.config)))
  {
  }

  lemma RefusedByCalls(m: Mgr, j: Job, c: Choice) returns (n: nat)
    requires c.config == m.Lookup(QueueOf(j)) && j.id in m.store.jobs
    ensures n == 2
    ensures Stands(Does(Alone(m.store, Submitting(j), c.now), c, n), m.Enqueue(j, c.now).0.store, Gone)
  {
    var s0 := Alone(m.store, Submitting(j), c.now);
    SubmitCall(m, j, c);
    RefusedTail(OneCall(s0, c), Registered(m.store, QueueOf(j), c.config), Completed(j, c.config), c);
    n := 2;
    OneCallOn(s0, c, n);
    RefusedEnqueue(m, j, c.now);
  }

  lemma SubmittedByCalls(m: Mgr, j: Job, c: Choice) returns (n: nat)
    requires c.config == m.Lookup(QueueOf(j)) && j.id !in m.store.jobs
    ensures n == 4
    ensures var j' := Completed(j, c.config);
      Stands(Does(Alone(m.store, Submitting(j), c.now), c, n),
             Submitted(Registered(m.store, QueueOf(j), c.config).CreateJob(j'), j', c.now), Gone)
  {
    var s0 := Alone(m.store, Submitting(j), c.now);
    SubmitCall(m, j, c);
    n := CreateTail(OneCall(s0, c), Registered(m.store, QueueOf(j), c.config), Completed(j, c.config), c);
    n := n + 1;
    OneCallOn(s0, c, n);
  }

  lemma AcceptedByCalls(m: Mgr, j: Job, c: Choice) returns (n: nat)
    requires c.config == m.Lookup(QueueOf(j)) && j.id !in m.store.jobs
    ensures n == 4
    ensures Stands(Does(Alone(m.store, Submitting(j), c.now), c, n), m.Enqueue(j, c.now).0.store, Gone)
  {
    n := SubmittedByCalls(m, j, c);
    AcceptedEnqueue(m, j, c.now);
  }

  /** Manager.Enqueue, the configuration being the one it finds. */
  lemma SubmitIsItsCalls(m: Mgr, j: Job, now: int) returns (n: nat)
    ensures n == if j.id in m.store.jobs then 2 else 4
    ensures var c := Choice("", true, m.Lookup(QueueOf(j)), now);
      Stands(Does(Alone(m.store, Submitting(j), now), c, n), m.Enqueue(j, now).0.store, Gone)
  {
    var c := Choice("", true, m.Lookup(QueueOf(j)), now);
    if j.id in m.store.jobs {
      n := RefusedByCalls(m, j, c);
    } else {
      n := AcceptedByCalls(m, j, c);
    }
  }

  /** Manager.CancelJob. */
  lemma CancelIsItsCalls(m: Mgr, id: string, c: Choice)
    requires forall x :: x in m.store.jobs ==> m.store.jobs[x].id == x
    ensures Does(Alone(m.store, Reading(id), c.now), c, 3).store == m.CancelJob(id, c.now).0.store
  {
    var s1 := OneCall(Alone(m.store, Reading(id), c.now), c);
    var s2 := OneCall(s1, c);
    assert Does(s2, c, 1) == OneCall(s2, c);
  }

  /** Manager.Dequeue, the poll asking the queue that it takes from. */
  lemma FetchIsItsCalls(m: Mgr, m': Mgr, r: Fetch, q: string, pool: string, now: int)
    requires Took(m, m', r, q, now) && r.Fetched?
    ensures var c := Choice(q, true, None, now);
      Stands(Does(Alone(m.store, Polling(pool), now), c, 2), m'.store, Carrying(pool, r.job))
  {
    var c := Choice(q, true, None, now);
    var s1 := OneCall(Alone(m.store, Polling(pool), now), c);
    assert Does(s1, c, 1) == OneCall(s1, c);
  }

  /** Manager.Requeue, as the fetcher calls it on stop. */
  lemma GiveBackIsItsCalls(m: Mgr, j: Job, pool: string, now: int)
    requires j.id in m.store.jobs
    ensures var c := Choice("", false, None, now);
      Stands(Does(Alone(m.store, Carrying(pool, j), now), c, 2), m.Requeue(j, 0, now).store, Polling(pool))
  {
    var c := Choice("", false, None, now);
    var s1 := OneCall(Alone(m.store, Carrying(pool, j), now), c);
    assert s1.tasks[0] == Returning(pool, j);
    assert Does(s1, c, 1) == OneCall(s1, c);
  }

  // ---- the phases of a worker ----

  lemma StartIsItsCall(m: Mgr, j: Job, pool: string, c: Choice)
    requires j.id in m.store.jobs
    ensures Stands(OneCall(Alone(m.store, Received(pool, j), c.now), c), StartPhase(m, j, c.now).store, Handling(pool, j))
  {
  }

  lemma CreditTail(s: Calls, store: Store, pool: string, c: Choice)
    requires Stands(s, store, Crediting(pool))
    ensures Stands(Does(s, c, 1), store.IncrementProcessed(pool), Waiting(pool))
  {
    assert Does(s, c, 1) == OneCall(s, c);
  }

  lemma FinishTail(s: Calls, store: Store, pool: string, c: Choice)
    requires Stands(s, store, Finishing(pool))
    ensures Stands(Does(s, c, 2), store.(completed := store.completed + 1).IncrementProcessed(pool), Waiting(pool))
  {
    CreditTail(OneCall(s, c), store.(completed := store.completed + 1), pool, c);
  }

  lemma ProgressTail(s: Calls, store: Store, pool: string, j: Job, c: Choice) returns (n: nat)
    requires Stands(s, store, Succeeded(pool, j))
    ensures n == 3
    ensures var done := store.UpdateProgress(j.id, 100);
      Stands(Does(s, c, n), done.(completed := done.completed + 1).IncrementProcessed(pool), Waiting(pool))
  {
    FinishTail(OneCall(s, c), store.UpdateProgress(j.id, 100), pool, c);
    n := 3;
  }

  lemma AfterSuccess(s: Calls, store: Store, pool: string, j: Job, c: Choice) returns (n: nat)
    requires 0 in s.tasks && Stands(OneCall(s, c), store, Succeeded(pool, j))
    ensures n == 4
    ensures var done := store.UpdateProgress(j.id, 100);
      Stands(Does(s, c, n), done.(completed := done.completed + 1).IncrementProcessed(pool), Waiting(pool))
  {
    n := ProgressTail(OneCall(s, c), store, pool, j, c);
    n := n + 1;
    OneCallOn(s, c, n);
  }

  lemma SuccessCall(m: Mgr, j: Job, pool: string, c: Choice)
    requires c.yes
    ensures Stands(OneCall(Alone(m.store, Handling(pool, j), c.now), c),
                   m.store.UpdateStatus(j.id, Success, c.now), Succeeded(pool, j))
  {
  }

  lemma SuccessByCalls(m: Mgr, j: Job, pool: string, c: Choice) returns (n: nat)
    requires c.yes
    ensures n == 4
    ensures var done := m.store.UpdateStatus(j.id, Success, c.now).UpdateProgress(j.id, 100);
      Stands(Does(Alone(m.store, Handling(pool, j), c.now), c, n),
             done.(completed := done.completed + 1).IncrementProcessed(pool), Waiting(pool))
  {
    var s0 := Alone(m.store, Handling(pool, j), c.now);
    SuccessCall(m, j, pool, c);
    n := AfterSuccess(s0, m.store.UpdateStatus(j.id, Success, c.now), pool, j, c);
  }

  lemma SuccessIsItsCalls(m: Mgr, j: Job, pool: string, c: Choice) returns (n: nat)
    requires c.yes
    ensures n == 4
    ensures Stands(Does(Alone(m.store, Handling(pool, j), c.now), c, n),
                   SuccessPhase(m, j, c.now, pool).store, Waiting(pool))
  {
    n := SuccessByCalls(m, j, pool, c);
  }

  /** The first call of a failure. */
  lemma ErrorCall(m: Mgr, j: Job, pool: string, c: Choice)
    requires !c.yes
    ensures Stands(OneCall(Alone(m.store, Handling(pool, j), c.now), c), m.store.SetError(j.id, c.q), Failing(pool, j))
  {
  }

  lemma RetryCall(s: Calls, store: Store, pool: string, j: Job, c: Choice)
    requires Stands(s, store, Failing(pool, j)) && j.CanRetry() && c.config.Some?
    ensures Stands(OneCall(s, c), store.UpdateStatus(j.id, Retrying, c.now),
                   Resaving(pool, j.(retryCount := j.retryCount + 1), CalculateRetryDelay(j.retryCount + 1, c.config.value)))
  {
  }

  lemma BlameTail(s: Calls, store: Store, pool: string, c: Choice) returns (n: nat)
    requires Stands(s, store, Blaming(pool))
    ensures n == 1
    ensures Stands(Does(s, c, n), store.IncrementFailed(pool), Waiting(pool))
  {
    n := 1;
    assert Does(s, c, n) == OneCall(s, c);
  }

  lemma RepeatTail(s: Calls, store: Store, pool: string, c: Choice) returns (n: nat)
    requires Stands(s, store, Repeating(pool))
    ensures n == 2
    ensures Stands(Does(s, c, n), store.(retried := store.retried + 1).IncrementFailed(pool), Waiting(pool))
  {
    n := BlameTail(OneCall(s, c), store.(retried := store.retried + 1), pool, c);
    n := n + 1;
    OneCallOn(s, c, n);
  }

  /** The two counters that close a retry. */
  function Counted(queued: Store, pool: string): Store {
    queued.(retried := queued.retried + 1).IncrementFailed(pool)
  }

  lemma RequeueCall(s: Calls, store: Store, pool: string, j: Job, delay: int, c: Choice)
    requires Stands(s, store, Requeueing(pool, j, delay))
    ensures Stands(OneCall(s, c), store.Enqueue(j.queue, j.id, j.priority, c.now + delay), Repeating(pool))
  {
  }

  lemma CountersTail(s: Calls, queued: Store, pool: string, c: Choice) returns (n: nat)
    requires 0 in s.tasks && Stands(OneCall(s, c), queued, Repeating(pool))
    ensures n == 3
    ensures Stands(Does(s, c, n), Counted(queued, pool), Waiting(pool))
  {
    n := RepeatTail(OneCall(s, c), queued, pool, c);
    n := n + 1;
    OneCallOn(s, c, n);
  }

  lemma RequeueTail(s: Calls, store: Store, pool: string, j: Job, delay: int, c: Choice) returns (n: nat)
    requires Stands(s, store, Requeueing(pool, j, delay))
    ensures n == 3
    ensures Stands(Does(s, c, n), Counted(store.Enqueue(j.queue, j.id, j.priority, c.now + delay), pool), Waiting(pool))
  {
    RequeueCall(s, store, pool, j, delay, c);
    n := CountersTail(s, store.Enqueue(j.queue, j.id, j.priority, c.now + delay), pool, c);
  }

  lemma ResaveCall(s: Calls, store: Store, pool: string, j: Job, delay: int, c: Choice)
    requires Stands(s, store, Resaving(pool, j, delay)) && j.id in store.jobs
    ensures Stands(OneCall(s, c), store.UpdateJob(j), Requeueing(pool, j, delay))
  {
  }

  /** The store once RETRYING is written. */
  function MarkedRetry(store: Store, j: Job, msg: string, now: int): Store {
    store.SetError(j.id, msg).UpdateStatus(j.id, Retrying, now)
  }

  /** And from there to the end of the retry. */
  function Requeued(marked: Store, j: Job, due: int, pool: string): Store {
    Counted(marked.UpdateJob(j).Enqueue(j.queue, j.id, j.priority, due), pool)
  }

  lemma ResaveTail(s: Calls, store: Store, pool: string, j: Job, delay: int, c: Choice) returns (n: nat)
    requires Stands(s, store, Resaving(pool, j, delay)) && j.id in store.jobs
    ensures n == 4
    ensures Stands(Does(s, c, n), Requeued(store, j, c.now + delay, pool), Waiting(pool))
  {
    ResaveCall(s, store, pool, j, delay, c);
    n := RequeueTail(OneCall(s, c), store.UpdateJob(j), pool, j, delay, c);
    n := n + 1;
    OneCallOn(s, c, n);
  }

  lemma RetryStore(m: Mgr, j: Job, now: int, pool: string, config: QueueConfig, delay: int)
    requires j.id in m.store.jobs && m.Lookup(j.queue) == Some(config)
    requires delay == CalculateRetryDelay(j.retryCount + 1, config)
    ensures AfterRetry(m, j, now, pool).store
         == Requeued(m.store.UpdateStatus(j.id, Retrying, now), j.(retryCount := j.retryCount + 1), now + delay, pool)
  {
    var m1 := m.Cached(j.queue);
    assert m1.store == m.store;
    var marked := m.store.UpdateStatus(j.id, Retrying, now);
    var m2 := m1.(store := marked);
    var j' := j.(retryCount := j.retryCount + 1);
    assert m2.Requeue(j', delay, now).store == marked.UpdateJob(j').Enqueue(j'.queue, j'.id, j'.priority, now + delay);
  }

  lemma TwoCallsOn(s: Calls, c: Choice, n: nat)
    requires 0 in s.tasks && n >= 2
    ensures Does(s, c, n) == Does(OneCall(OneCall(s, c), c), c, n - 2)
  {
    assert Does(s, c, n) == Does(OneCall(s, c), c, n - 1);
  }

  /** The first two calls. */
  lemma RetryMarked(m: Mgr, j: Job, pool: string, c: Choice, delay: int)
    requires j.CanRetry() && !c.yes && c.config.Some?
    requires delay == CalculateRetryDelay(j.retryCount + 1, c.config.value)
    ensures Stands(OneCall(OneCall(Alone(m.store, Handling(pool, j), c.now), c), c),
                   MarkedRetry(m.store, j, c.q, c.now), Resaving(pool, j.(retryCount := j.retryCount + 1), delay))
  {
    ErrorCall(m, j, pool, c);
    RetryCall(OneCall(Alone(m.store, Handling(pool, j), c.now), c), m.store.SetError(j.id, c.q), pool, j, c);
  }

  lemma RetryByCalls(m: Mgr, j: Job, pool: string, c: Choice, delay: int) returns (n: nat)
    requires j.CanRetry() && j.id in m.store.jobs && !c.yes && c.config.Some?
    requires delay == CalculateRetryDelay(j.retryCount + 1, c.config.value)
    ensures n == 6
    ensures Stands(Does(Alone(m.store, Handling(pool, j), c.now), c, n),
                   Requeued(MarkedRetry(m.store, j, c.q, c.now), j.(retryCount := j.retryCount + 1), c.now + delay, pool),
                   Waiting(pool))
  {
    var s0 := Alone(m.store, Handling(pool, j), c.now);
    RetryMarked(m, j, pool, c, delay);
    n := ResaveTail(OneCall(OneCall(s0, c), c), MarkedRetry(m.store, j, c.q, c.now), pool,
                    j.(retryCount := j.retryCount + 1), delay, c);
    n := n + 2;
    TwoCallsOn(s0, c, n);
  }

  lemma RetryPhase(m: Mgr, j: Job, msg: string, now: int, pool: string, config: QueueConfig, delay: int)
    requires j.CanRetry() && j.id in m.store.jobs && m.Lookup(j.queue) == Some(config)
    requires delay == CalculateRetryDelay(j.retryCount + 1, config)
    ensures FailurePhase(m, j, msg, now, pool).store
         == Requeued(MarkedRetry(m.store, j, msg, now), j.(retryCount := j.retryCount + 1), now + delay, pool)
  {
    RetryStore(m.(store := m.store.SetError(j.id, msg)), j, now, pool, config, delay);
  }

  lemma RetryEnds(m: Mgr, j: Job, pool: string, c: Choice, delay: int, end: Store) returns (n: nat)
    requires j.CanRetry() && j.id in m.store.jobs && !c.yes && c.config.Some?
    requires delay == CalculateRetryDelay(j.retryCount + 1, c.config.value)
    requires end == Requeued(MarkedRetry(m.store, j, c.q, c.now), j.(retryCount := j.retryCount + 1), c.now + delay, pool)
    ensures n == 6
    ensures Stands(Does(Alone(m.store, Handling(pool, j), c.now), c, n), end, Waiting(pool))
  {
    n := RetryByCalls(m, j, pool, c, delay);
  }

  /** The retry branch. */
  lemma RetryIsItsCalls(m: Mgr, j: Job, pool: string, c: Choice) returns (n: nat)
    requires j.CanRetry() && j.id in m.store.jobs && !c.yes
    requires c.config == m.Lookup(j.queue) && c.config.Some?
    ensures n == 6
    ensures Stands(Does(Alone(m.store, Handling(pool, j), c.now), c, n),
                   FailurePhase(m, j, c.q, c.now, pool).store, Waiting(pool))
  {
    var delay := CalculateRetryDelay(j.retryCount + 1, c.config.value);
    var end := FailurePhase(m, j, c.q, c.now, pool).store;
    RetryPhase(m, j, c.q, c.now, pool, c.config.value, delay);
    n := RetryEnds(m, j, pool, c, delay, end);
  }

  /** The early return of a retry that finds no configuration. */
  lemma DroppedRetryIsItsCalls(m: Mgr, j: Job, msg: string, pool: string, now: int)
    requires j.CanRetry() && m.Lookup(j.queue).None?
    ensures Stands(Does(Alone(m.store, Handling(pool, j), now), Choice(msg, false, None, now), 2),
                   FailurePhase(m, j, msg, now, pool).store, Waiting(pool))
  {
    var c := Choice(msg, false, None, now);
    ErrorCall(m, j, pool, c);
    var s1 := OneCall(Alone(m.store, Handling(pool, j), now), c);
    assert Does(s1, c, 1) == OneCall(s1, c);
  }

  lemma CondemnCall(s: Calls, store: Store, pool: string, j: Job, c: Choice)
    requires Stands(s, store, Failing(pool, j)) && !j.CanRetry()
    ensures Stands(OneCall(s, c), store.UpdateStatus(j.id, Failed, c.now), Condemned(pool, j))
  {
  }

  lemma FailedCall(s: Calls, store: Store, pool: string, j: Job, c: Choice)
    requires Stands(s, store, Condemned(pool, j))
    ensures Stands(OneCall(s, c), store.(failed := store.failed + 1), Judging(pool, j))
  {
  }

  lemma ThreeCallsOn(s: Calls, c: Choice, n: nat)
    requires 0 in s.tasks
    ensures Does(s, c, n + 3) == Does(OneCall(OneCall(OneCall(s, c), c), c), c, n)
  {
    OneCallOn(s, c, n + 3);
    OneCallOn(OneCall(s, c), c, n + 2);
    OneCallOn(OneCall(OneCall(s, c), c), c, n + 1);
  }

  lemma FailureStore(m: Mgr, j: Job, now: int)
    ensures var marked := m.store.UpdateStatus(j.id, Failed, now);
      WithFailure(m, j, now).store == marked.(failed := marked.failed + 1)
  {
  }

  lemma CondemnedStands(m: Mgr, j: Job, pool: string, c: Choice)
    requires !j.CanRetry() && !c.yes
    ensures Stands(OneCall(OneCall(OneCall(Alone(m.store, Handling(pool, j), c.now), c), c), c),
                   WithFailure(m.(store := m.store.SetError(j.id, c.q)), j, c.now).store, Judging(pool, j))
  {
    var s1 := OneCall(Alone(m.store, Handling(pool, j), c.now), c);
    ErrorCall(m, j, pool, c);
    var s2 := OneCall(s1, c);
    CondemnCall(s1, s1.store, pool, j, c);
    FailedCall(s2, s2.store, pool, j, c);
    FailureStore(m.(store := m.store.SetError(j.id, c.q)), j, c.now);
  }

  /** The final branch up to the look-up of the dead-letter queue. */
  lemma CondemnedByCalls(m: Mgr, j: Job, pool: string, c: Choice) returns (s3: Calls)
    requires !j.CanRetry() && !c.yes
    ensures Stands(s3, WithFailure(m.(store := m.store.SetError(j.id, c.q)), j, c.now).store, Judging(pool, j))
    ensures forall n: nat :: Does(Alone(m.store, Handling(pool, j), c.now), c, n + 3) == Does(s3, c, n)
  {
    var s0 := Alone(m.store, Handling(pool, j), c.now);
    CondemnedStands(m, j, pool, c);
    s3 := OneCall(OneCall(OneCall(s0, c), c), c);
    forall n: nat
      ensures Does(s0, c, n + 3) == Does(s3, c, n)
    {
      ThreeCallsOn(s0, c, n);
    }
  }

  lemma NoLetterCall(s: Calls, store: Store, pool: string, j: Job, c: Choice)
    requires Stands(s, store, Judging(pool, j)) && (c.config.Some? ==> c.config.value.deadLetterQueue == "")
    ensures Stands(OneCall(s, c), store, Blaming(pool))
  {
  }

  /** The final branch without a dead-letter queue. */
  lemma GiveUpIsItsCalls(m: Mgr, j: Job, msg: string, pool: string, now: int)
    requires !j.CanRetry()
    requires m.Lookup(j.queue).Some? ==> m.Lookup(j.queue).value.deadLetterQueue == ""
    ensures var c := Choice(msg, false, m.Lookup(j.queue), now);
      Stands(Does(Alone(m.store, Handling(pool, j), now), c, 5),
             FailurePhase(m, j, msg, now, pool).store, Waiting(pool))
  {
    var c := Choice(msg, false, m.Lookup(j.queue), now);
    var s3 := CondemnedByCalls(m, j, pool, c);
    NoLetterCall(s3, s3.store, pool, j, c);
    var s4 := OneCall(s3, c);
    var n := BlameTail(s4, s4.store, pool, c);
    assert Does(s3, c, 2) == Does(s4, c, 1);
    assert Does(Alone(m.store, Handling(pool, j), now), c, 2 + 3) == Does(s3, c, 2);
  }

  lemma LetterCall(s: Calls, store: Store, pool: string, j: Job, c: Choice)
    requires Stands(s, store, Judging(pool, j)) && c.config.Some? && c.config.value.deadLetterQueue != ""
    ensures Stands(OneCall(s, c), store,
                   Burying(pool, j.(queue := c.config.value.deadLetterQueue, status := Pending)))
  {
  }

  lemma BuryCall(s: Calls, store: Store, pool: string, letter: Job, c: Choice)
    requires Stands(s, store, Burying(pool, letter))
    ensures Stands(OneCall(s, c), Registered(store, QueueOf(letter), c.config), Interring(pool, Completed(letter, c.config)))
  {
  }

  lemma RefusedCall(s: Calls, store: Store, pool: string, letter: Job, c: Choice)
    requires Stands(s, store, Interring(pool, letter)) && letter.id in store.jobs
    ensures Stands(OneCall(s, c), store, Blaming(pool))
  {
  }

  /** The dead letter's own Enqueue, refused, and the counter after it. */
  lemma LetterTail(s: Calls, store: Store, pool: string, letter: Job, c: Choice) returns (n: nat)
    requires Stands(s, store, Burying(pool, letter)) && letter.id in store.jobs
    ensures n == 3
    ensures Stands(Does(s, c, n), Registered(store, QueueOf(letter), c.config).IncrementFailed(pool), Waiting(pool))
  {
    BuryCall(s, store, pool, letter, c);
    n := RefusedLetterTail(
      OneCall(s, c), Registered(store, QueueOf(letter), c.config), pool, Completed(letter, c.config), c);
    n := n + 1;
    OneCallOn(s, c, n);
  }

  lemma RefusedLetterTail(s: Calls, store: Store, pool: string, letter: Job, c: Choice) returns (n: nat)
    requires Stands(s, store, Interring(pool, letter)) && letter.id in store.jobs
    ensures n == 2
    ensures Stands(Does(s, c, n), store.IncrementFailed(pool), Waiting(pool))
  {
    RefusedCall(s, store, pool, letter, c);
    n := BlameTail(OneCall(s, c), store, pool, c);
    n := n + 1;
    OneCallOn(s, c, n);
  }

  lemma JudgedByCalls(m: Mgr, j: Job, pool: string, c: Choice) returns (s4: Calls, n: nat)
    requires !j.CanRetry() && !c.yes && c.config.Some? && c.config.value.deadLetterQueue != ""
    ensures n == 4
    ensures s4 == Does(Alone(m.store, Handling(pool, j), c.now), c, n)
    ensures Stands(s4, WithFailure(m.(store := m.store.SetError(j.id, c.q)), j, c.now).store,
                   Burying(pool, j.(queue := c.config.value.deadLetterQueue, status := Pending)))
  {
    var s3 := CondemnedByCalls(m, j, pool, c);
    LetterCall(s3, s3.store, pool, j, c);
    s4, n := OneCall(s3, c), 4;
    assert Does(s3, c, 1) == s4;
  }

  /** The final branch with one: the dead letter's own Enqueue, refused, in two calls. */
  lemma DeadLetterIsItsCalls(m: Mgr, j: Job, pool: string, c: Choice, c': Choice) returns (n: nat, k: nat)
    requires !j.CanRetry() && j.id in m.store.jobs && !c.yes && c'.now == c.now
    requires c.config == m.Lookup(j.queue) && c.config.Some? && c.config.value.deadLetterQueue != ""
    requires c'.config == m.Lookup(c.config.value.deadLetterQueue)
    ensures n == 4 && k == 3
    ensures Stands(Does(Does(Alone(m.store, Handling(pool, j), c.now), c, n), c', k),
                   FailurePhase(m, j, c.q, c.now, pool).store, Waiting(pool))
  {
    var s4;
    s4, n := JudgedByCalls(m, j, pool, c);
    var letter := j.(queue := c.config.value.deadLetterQueue, status := Pending);
    k := LetterTail(s4, s4.store, pool, letter, c');
    DeadLetterStore(m, j, c.q, c.now, pool);
  }

  lemma DeadLetterStore(m: Mgr, j: Job, msg: string, now: int, pool: string)
    requires !j.CanRetry() && j.id in m.store.jobs
    requires m.Lookup(j.queue).Some? && m.Lookup(j.queue).value.deadLetterQueue != ""
    ensures var dead := m.Lookup(j.queue).value.deadLetterQueue;
      var failed := WithFailure(m.(store := m.store.SetError(j.id, msg)), j, now).store;
      FailurePhase(m, j, msg, now, pool).store == Registered(failed, dead, m.Lookup(dead)).IncrementFailed(pool)
  {
    var dead := m.Lookup(j.queue).value.deadLetterQueue;
    var m1 := WithFailure(m.(store := m.store.SetError(j.id, msg)), j, now);
    var letter := j.(queue := dead, status := Pending);
    assert m1.Lookup(j.queue) == m.Lookup(j.queue);
    var m2 := m1.Cached(j.queue);
    assert m2.Lookup(dead) == m.Lookup(dead) && m2.store == m1.store;
    RefusedEnqueue(m2, letter, now);
  }
}
