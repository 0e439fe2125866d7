/** The defaults of a registration and of a submission, and the back-off they lead to. */
module QueueDefaults {
  import opened Jobs
  import opened MemoryStorage
  import opened QueueManager
  import opened Backoff

  /** `d` is `c` with three retries, exponential back-off from a minute to an hour and weight one wherever
      `c` leaves a number at zero or the strategy out. */
  predicate Filled(c: QueueConfig, d: QueueConfig) {
    && d.name == c.name && d.priority == c.priority && d.deadLetterQueue == c.deadLetterQueue
    && (d.maxRetries == if c.maxRetries == 0 then 3 else c.maxRetries)
    && (d.strategy == if c.strategy == Unset then Exponential else c.strategy)
    && (d.retryDelay == if c.retryDelay == 0 then 60 else c.retryDelay)
    && (d.maxRetryDelay == if c.maxRetryDelay == 0 then 3600 else c.maxRetryDelay)
    && (d.weight == if c.weight == 0 then 1 else c.weight)
  }

  /** Queue c.name is configured as d in both tables; nothing else differs. */
  ghost predicate Holding(m: Mgr, m': Mgr, d: QueueConfig) {
    && m'.configs == m.configs[d.name := d]
    && m'.store == m.store.(configs := m.store.configs[d.name := d])
  }

  /** A registration is filled in, an update is taken as it is, and an update needs a registration. */
  lemma RegistrationFills(m: Mgr, c: QueueConfig) returns (d: QueueConfig)
    ensures Filled(c, d)
    ensures if c.name == "" then m.RegisterQueue(c) == m else Holding(m, m.RegisterQueue(c), d)
    ensures if c.name == "" || c.name !in m.configs then m.UpdateQueueConfig(c) == m
      else Holding(m, m.UpdateQueueConfig(c), c)
  {
    d := WithDefaults(c);
  }

  /** Registering again what a registration left changes nothing. */
  lemma RegistrationSettles(m: Mgr, c: QueueConfig)
    requires c.name != ""
    ensures var m' := m.RegisterQueue(c);
      c.name in m'.configs && m'.RegisterQueue(m'.configs[c.name]) == m'
  {
    var d := RegistrationFills(m, c);
    var m' := m.RegisterQueue(c);
    var d' := RegistrationFills(m', d);
    assert d' == d;
    assert m'.store.configs[d.name := d] == m'.store.configs;
  }

  /** A look-up finds the manager's own configuration before the storage's, and remembers the latter. */
  lemma LookupFinds(m: Mgr, q: string)
    ensures m.Lookup(q) ==
      if q in m.configs then Some(m.configs[q])
      else if q in m.store.configs then Some(m.store.configs[q]) else None
    ensures m.Cached(q).Lookup(q) == m.Lookup(q) && m.Cached(q).store == m.store
    ensures forall p :: p != q ==> m.Cached(q).Lookup(p) == m.Lookup(p)
    ensures m.Lookup(q).Some? ==> q in m.Cached(q).configs
  {
  }

  /** A submission to a queue without a configuration registers the queue with priority five, weight one and
      no dead-letter queue; the job gets three retries unless it asks for some. */
  lemma SubmissionRegisters(m: Mgr, j0: Job, now: int)
    requires m.Lookup(if j0.queue == "" then "default" else j0.queue).None?
    ensures var q := if j0.queue == "" then "default" else j0.queue;
      var (m', r) := m.Enqueue(j0, now);
      && m'.Lookup(q) == Some(QueueConfig(q, 3, Exponential, 60, 3600, 5, 1, ""))
      && (r.Err? <==> j0.id in m.store.jobs)
      && m'.store.jobs == if r.Err? then m.store.jobs else m.store.jobs[j0.id :=
           j0.(queue := q, maxRetries := if j0.maxRetries == 0 then 3 else j0.maxRetries)]
  {
    var q := if j0.queue == "" then "default" else j0.queue;
    var d := RegistrationFills(m, DefaultConfig(q));
  }

  /** A job of such a queue waits a minute before its first retry, then twice as long each time up to an hour;
      that holds for 28 retries. */
  lemma SubmissionBacksOff(m: Mgr, j0: Job, now: int, n: nat)
    requires m.Lookup(if j0.queue == "" then "default" else j0.queue).None?
    requires 1 <= n <= 28
    ensures var q := if j0.queue == "" then "default" else j0.queue;
      var c := m.Enqueue(j0, now).0.Lookup(q);
      var doubled := 60_000_000_000 * Pow2(n - 1);
      c.Some? && CalculateRetryDelay(n, c.value)
        == if doubled > 3_600_000_000_000 then 3_600_000_000_000 else doubled
  {
    var q := if j0.queue == "" then "default" else j0.queue;
    SubmissionRegisters(m, j0, now);
    DefaultHoldsThrough28(n, m.Enqueue(j0, now).0.Lookup(q).value);
  }
}
