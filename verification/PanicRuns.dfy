/** Runs from the initial state after which the next fetch panics. */
module ProtocolPanics {
  import opened Jobs
  import opened MemoryStorage
  import opened QueueManager
  import opened QueueSelection
  import opened WorkerPool
  import opened PoolProtocol
  import opened ProtocolGuarantees

  function JobFor(id: string, queue: string): Job {
    Job(id, queue, 0, Pending, 0, 0, 0, "", 0, None, None)
  }

  lemma InitialReachable(pool: PoolConfig, now: int)
    ensures Reachable(Initial(pool, now))
  {
    var w := Initial(pool, now);
    assert Runnable(w, []) && Exec(w, []) == w;
  }

  /** What a submission leaves of the queues and the configurations. */
  ghost predicate Entered(m: Mgr, m': Mgr, id: string, q: string) {
    && Eligible(m', q) && m'.store.jobs.Keys == m.store.jobs.Keys + {id}
    && m'.store.paused == m.store.paused && m'.configs == m'.store.configs
    && m'.configs == (if q in m.configs then m.configs else m.configs[q := WithDefaults(DefaultConfig(q))])
    && forall p :: p != q ==> m'.store.Entries(p) == m.store.Entries(p)
  }

  lemma Ensures(m: Mgr, q: string)
    requires q != "" && m.configs == m.store.configs
    ensures var m' := m.Ensured(q).0;
      m' == m.(store := m.store.(configs := m'.configs), configs := m'.configs)
      && m'.configs == if q in m.configs then m.configs else m.configs[q := WithDefaults(DefaultConfig(q))]
  {
  }

  lemma EntersQueue(m: Mgr, id: string, q: string, now: int)
    requires id !in m.store.jobs && q != "" && !m.store.IsPaused(q) && m.configs == m.store.configs
    ensures Entered(m, m.Enqueue(JobFor(id, q), now).0, id, q) && m.Enqueue(JobFor(id, q), now).1.Ok?
  {
    Ensures(m, q);
  }

  /** A submission to a queue makes it a candidate, with the configuration it is registered with. */
  lemma Submitted(w: World, id: string, q: string) returns (w': World)
    requires Reachable(w) && id !in w.Jobs() && q != "" && !w.m.store.IsPaused(q)
    requires w.m.configs == w.m.store.configs
    ensures Reachable(w') && w'.pool == w.pool && Entered(w.m, w'.m, id, q)
  {
    var a := Submit(JobFor(id, q));
    ReachableThen(w, a);
    w' := Apply(w, a);
    EntersQueue(w.m, id, q, w.now);
  }

  /** One listed queue, registered with a negative priority, and a job for it. */
  lemma NegativePriorityPanics(pool: PoolConfig, now: int) returns (w: World)
    requires pool.queues == ["a"]
    ensures Reachable(w) && w.pool == pool && Panics(w.m, pool.queues)
  {
    InitialReachable(pool, now);
    var first := Initial(pool, now);
    var a := Register(DefaultConfig("a").(priority := -1));
    ReachableThen(first, a);
    var second := Apply(first, a);
    w := Submitted(second, "x", "a");
    assert Weighs(w.m, pool.queues);
    WeightlessPanicsIff(w.m, pool.queues);
    assert "a" in pool.queues;
  }

  lemma Reweighed(w: World, q: string) returns (w': World)
    requires Reachable(w) && q != "" && q in w.m.configs && w.m.configs == w.m.store.configs
    ensures Reachable(w') && w'.pool == w.pool && w'.m.store.queues == w.m.store.queues
    ensures w'.m.store.paused == w.m.store.paused && w'.m.configs == w'.m.store.configs
    ensures w'.m.configs == w.m.configs[q := DefaultConfig(q).(weight := 0)]
  {
    var a := Reconfigure(DefaultConfig(q).(weight := 0));
    ReachableThen(w, a);
    w' := Apply(w, a);
  }

  predicate Weightless(m: Mgr, q: string) {
    Eligible(m, q) && m.configs[q] == DefaultConfig(q).(weight := 0)
  }

  lemma TwoWeightless(m: Mgr, queues: seq<string>)
    requires |queues| == 2 && Weightless(m, queues[0]) && Weightless(m, queues[1])
    ensures Panics(m, queues)
  {
    var one := queues[..1];
    assert one[..0] == [] && one[0] == queues[0];
    assert queues[0] in queues;
    assert HighPriority(m, one[..0]) == 0 && CountAt(m, one[..0], PRIORITY_NORMAL) == 0;
    assert HighPriority(m, one) == PRIORITY_NORMAL;
    assert HighPriority(m, queues) == PRIORITY_NORMAL;
    assert CountAt(m, one, PRIORITY_NORMAL) == 1;
    assert CountAt(m, queues, PRIORITY_NORMAL) == 2;
    assert WeightAt(m, one[..0], PRIORITY_NORMAL) == 0;
    assert WeightAt(m, one, PRIORITY_NORMAL) == 0;
    assert WeightAt(m, queues, PRIORITY_NORMAL) == m.configs[queues[1]].weight;
  }

  /** Two submissions make two candidates. */
  lemma BothEntered(pool: PoolConfig, now: int) returns (w: World)
    ensures Reachable(w) && w.pool == pool && w.m.configs == w.m.store.configs
    ensures Eligible(w.m, "a") && Eligible(w.m, "b")
  {
    InitialReachable(pool, now);
    var first := Submitted(Initial(pool, now), "x", "a");
    w := Submitted(first, "y", "b");
    assert w.m.store.Entries("a") == first.m.store.Entries("a");
  }

  /** Two listed queues of the default priority, both reconfigured to weigh nothing, and jobs for them. */
  lemma WeightlessPanics(pool: PoolConfig, now: int) returns (w: World)
    requires pool.queues == ["a", "b"]
    ensures Reachable(w) && w.pool == pool && Panics(w.m, pool.queues)
  {
    w := BothEntered(pool, now);
    w := Reweighed(w, "a");
    w := Reweighed(w, "b");
    TwoWeightless(w.m, pool.queues);
  }
}
