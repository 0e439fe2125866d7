/** Every action keeps the core invariant. */
module ProtocolPreservation {
  import opened Jobs
  import opened MemoryStorage
  import opened QueueManager
  import opened QueueSelection
  import opened Backoff
  import opened WorkerPool
  import opened PoolProtocol
  import opened ProtocolInvariant

  /** The two configuration tables never hold an unnamed queue. */
  predicate Named(m: Mgr) {
    "" !in m.configs && "" !in m.store.configs
  }

  /** Only the configuration tables differ, and no registration is lost. */
  ghost predicate OnlyConfigs(m: Mgr, m': Mgr) {
    && m'.store == m.store.(configs := m'.store.configs)
    && m.configs.Keys <= m'.configs.Keys
  }

  lemma EnsuredEffect(m: Mgr, name: string)
    requires name != "" && Named(m)
    ensures var (m', c) := m.Ensured(name);
      OnlyConfigs(m, m') && Named(m') && name in m'.configs
  {
  }

  /** A submission with its defaults: the queue "default", and the retries of the queue's configuration,
      three when it has none. */
  function Defaulted(m: Mgr, j: Job): Job {
    var q := if j.queue == "" then "default" else j.queue;
    var retries := if m.Lookup(q).Some? then m.Lookup(q).value.maxRetries else 3;
    j.(queue := q, maxRetries := if j.maxRetries == 0 then retries else j.maxRetries)
  }

  /** Enqueue either refuses a known ID or creates the job, with its defaults, and appends one entry. */
  lemma EnqueueEffect(m: Mgr, j0: Job, now: int) returns (j: Job, due: int)
    requires Named(m)
    ensures j == Defaulted(m, j0)
    ensures due == if j0.scheduledAt > now then j0.scheduledAt else now
    ensures var (m', r) := m.Enqueue(j0, now);
      && Named(m') && m.configs.Keys <= m'.configs.Keys && j.queue in m'.configs && j.queue != ""
      && (r.Err? <==> j0.id in m.store.jobs)
      && m'.store.(configs := m.store.configs) ==
           if r.Err? then m.store
           else m.store.(
             jobs := m.store.jobs[j.id := j],
             queues := m.store.queues[j.queue := m.store.Entries(j.queue) + [Entry(j.id, j.priority, due)]],
             created := m.store.created + 1)
  {
    var j1 := if j0.queue == "" then j0.(queue := "default") else j0;
    EnsuredEffect(m, j1.queue);
    var (m1, c) := m.Ensured(j1.queue);
    j := if j1.maxRetries == 0 then j1.(maxRetries := c.maxRetries) else j1;
    due := if j.scheduledAt > now then j.scheduledAt else now;
  }

  /** A new job's entry appears at the end of its queue. */
  lemma AppearsInQueue(w: World, w': World, q: string, entry: Entry)
    requires w'.m.store.queues == w.m.store.queues[q := w.m.store.Entries(q) + [entry]]
    requires w'.hand == w.hand && w'.ch == w.ch && w'.slots == w.slots
    ensures var e := Move(None, Some(InQueue(q, |w.m.store.Entries(q)|)));
      Moves(w, w', e) && At(w', e.dst.value) == Some(Waiting(entry))
  {
  }

  lemma NewJobKeepsCore(w: World, w': World, j: Job, due: int)
    requires Core(w) && j.id !in w.Jobs() && j.status == Pending && due >= w.now
    requires w'.m.store.queues
          == w.m.store.queues[j.queue := w.m.store.Entries(j.queue) + [Entry(j.id, j.priority, due)]]
    requires w'.hand == w.hand && w'.ch == w.ch && w'.slots == w.slots && w'.now == w.now
    requires w'.Jobs() == w.Jobs()[j.id := j]
    requires w'.traces == w.traces[j.id := Trace(j.retryCount, [], [])]
    requires w.m.configs.Keys <= w'.m.configs.Keys && j.queue in w'.m.configs && Seated(w')
    ensures Core(w') && Focus(w, w', j.id) && Placed(w', j.id)
  {
    AppearsInQueue(w, w', j.queue, Entry(j.id, j.priority, due));
    var e := Move(None, Some(InQueue(j.queue, |w.m.store.Entries(j.queue)|)));
    assert !Placed(w, j.id);
    MoveKeepsCore(w, w', e, j.id);
  }

  lemma SubmitKeepsCore(w: World, j0: Job)
    requires Core(w) && Enabled(w, Submit(j0))
    ensures var w' := Apply(w, Submit(j0));
      && Core(w')
      && (j0.id in w.Jobs() ==> SameJobs(w, w'))
      && (j0.id !in w.Jobs() ==> Focus(w, w', j0.id) && Placed(w', j0.id))
  {
    var w' := Apply(w, Submit(j0));
    var j, due := EnqueueEffect(w.m, j0, w.now);
    SubmitSeated(w, j0);
    if j0.id in w.Jobs() {
      SubmitRefused(w, j0);
      StillKeepsCore(w, w');
    } else {
      NewJobKeepsCore(w, w', j, due);
    }
  }

  lemma SubmitRefused(w: World, j0: Job)
    requires Seated(w) && Enabled(w, Submit(j0)) && j0.id in w.Jobs()
    ensures Still(w, Apply(w, Submit(j0)))
  {
    var j, due := EnqueueEffect(w.m, j0, w.now);
  }

  lemma SubmitSeated(w: World, j0: Job)
    requires Seated(w) && Enabled(w, Submit(j0))
    ensures Seated(Apply(w, Submit(j0)))
  {
    var j, due := EnqueueEffect(w.m, j0, w.now);
  }

  /** Actions that leave every job where and as it is. */
  predicate Quiet(a: Action) {
    a.Register? || a.Reconfigure? || a.Pause? || a.Resume? || a.Tick? || a.Stop?
    || a.FetcherExits? || a.WorkerExits?
  }

  lemma QuietIsStill(w: World, a: Action)
    requires Enabled(w, a) && Quiet(a)
    ensures Still(w, Apply(w, a))
  {
  }

  lemma QuietSeated(w: World, a: Action)
    requires Enabled(w, a) && Quiet(a) && Seated(w)
    ensures Seated(Apply(w, a))
  {
  }

  lemma QuietKeepsCore(w: World, a: Action)
    requires Core(w) && Enabled(w, a) && Quiet(a)
    ensures Core(Apply(w, a)) && SameJobs(w, Apply(w, a))
  {
    QuietIsStill(w, a);
    QuietSeated(w, a);
    StillKeepsCore(w, Apply(w, a));
  }

  // ---- shapes of a move ----

  lemma InPlace(w: World, w': World, p: Place)
    requires At(w, p).Some?
    requires w'.m.store.queues == w.m.store.queues
    requires w'.hand == w.hand && w'.ch == w.ch && w'.slots == w.slots
    ensures Moves(w, w', Move(Some(p), Some(p))) && At(w', p) == At(w, p)
  {
  }

  lemma LeavesQueue(w: World, w': World, q: string, k: nat)
    requires k < |w.m.store.Entries(q)|
    requires w'.m.store.queues == w.m.store.queues[q := RemoveAt(w.m.store.Entries(q), k)]
    requires w'.ch == w.ch && w'.slots == w.slots
    requires w'.hand == w.hand || (w.hand.None? && w'.hand.Some?)
    ensures Moves(w, w', Move(Some(InQueue(q, k)), if w'.hand == w.hand then None else Some(InHand)))
  {
    assert w'.m.store.Entries(q) == RemoveAt(w.m.store.Entries(q), k);
  }

  /** From the hand or a worker back to the end of a queue. */
  lemma ReturnsToQueue(w: World, w': World, src: Place, q: string, entry: Entry)
    requires src.InHand? || src.InSlot?
    requires At(w, src).Some? && At(w', src).None?
    requires w'.m.store.queues == w.m.store.queues[q := w.m.store.Entries(q) + [entry]]
    requires w'.ch == w.ch
    requires src.InHand? ==> w'.slots == w.slots
    requires src.InSlot? ==> w'.hand == w.hand && w'.slots == w.slots[src.i := Idle]
    ensures var e := Move(Some(src), Some(InQueue(q, |w.m.store.Entries(q)|)));
      Moves(w, w', e) && At(w', e.dst.value) == Some(Waiting(entry))
  {
  }

  /** The token of a worker changes or disappears; nothing else moves. */
  lemma SlotChanges(w: World, w': World, i: nat, slot: Slot)
    requires i < |w.slots| && At(w, InSlot(i)).Some? && !slot.Taken?
    requires w'.m.store.queues == w.m.store.queues
    requires w'.hand == w.hand && w'.ch == w.ch && w'.slots == w.slots[i := slot]
    ensures Moves(w, w', Move(Some(InSlot(i)), if slot.Executing? then Some(InSlot(i)) else None))
  {
  }

  lemma SendMoves(w: World, w': World)
    requires w.hand.Some? && w' == w.(hand := None, ch := w.ch + [w.hand.value])
    ensures Moves(w, w', Move(Some(InHand), Some(InChannel(|w.ch|))))
  {
  }

  lemma TakeMoves(w: World, w': World, i: nat)
    requires w.ch != [] && i < |w.slots| && w.slots[i].Idle?
    requires w' == w.(ch := w.ch[1..], slots := w.slots[i := Taken(w.ch[0])])
    ensures Moves(w, w', Move(Some(InChannel(0)), Some(InSlot(i))))
  {
    var e := Move(Some(InChannel(0)), Some(InSlot(i)));
    forall p | p != InSlot(i)
      ensures At(w', p) == At(w, Back(e, p))
    {
      match p
      case InQueue(q, k) => assert Back(e, p) == p;
      case InHand => assert Back(e, p) == p;
      case InChannel(k) => assert Back(e, p) == InChannel(k + 1);
      case InSlot(k) => assert Back(e, p) == p;
    }
  }

  // ---- cancel ----

  lemma EntryIsFirst(w: World, q: string, k: nat, id: string)
    requires SingleOwner(w) && Holds(w, InQueue(q, k), id)
    ensures FirstOf(w.m.store.Entries(q), id) == k
  {
    var f := FirstOf(w.m.store.Entries(q), id);
    assert f <= k;
    assert Holds(w, InQueue(q, f), id);
  }

  lemma NoEntryElsewhere(w: World, p: Place, id: string, q: string)
    requires SingleOwner(w) && Holds(w, p, id) && !p.InQueue?
    ensures FirstOf(w.m.store.Entries(q), id) == |w.m.store.Entries(q)|
  {
    var f := FirstOf(w.m.store.Entries(q), id);
    if f < |w.m.store.Entries(q)| {
      assert Holds(w, InQueue(q, f), id);
    }
  }

  /** The job at `now` with its first start, and its first end, dated. */
  function StartedAt(j: Job, now: int): Job {
    j.(status := Running, startedAt := if j.startedAt.Some? then j.startedAt else Some(now))
  }

  function EndedAt(j: Job, status: Status, now: int): Job {
    j.(status := status, completedAt := if j.completedAt.Some? then j.completedAt else Some(now))
  }

  /** Stored job `id` changed; id, queue, priority and retry numbers did not. */
  predicate Updated(w: World, w': World, id: string, status: Status) {
    && id in w.Jobs() && id in w'.Jobs()
    && w'.Jobs() == w.Jobs()[id := w'.Jobs()[id]]
    && w'.Jobs()[id].status == status
    && var j, j' := w.Jobs()[id], w'.Jobs()[id];
       j'.id == j.id && j'.queue == j.queue && j'.priority == j.priority
       && j'.maxRetries == j.maxRetries && j'.retryCount == j.retryCount
  }

  lemma CancelWaiting(w: World, w': World, q: string, k: nat, id: string)
    requires Core(w) && Holds(w, InQueue(q, k), id) && Updated(w, w', id, Cancelled)
    requires w'.m.store.queues == w.m.store.queues[q := RemoveAt(w.m.store.Entries(q), k)]
    requires w'.ch == w.ch && w'.slots == w.slots && w'.hand == w.hand && w'.now == w.now
    requires w'.traces == w.traces && w'.m.configs == w.m.configs && Seated(w')
    ensures Core(w') && Focus(w, w', id) && !Placed(w', id)
  {
    assert TokenOk(w, InQueue(q, k), At(w, InQueue(q, k)).value);
    assert JobFine(w, id);
    LeavesQueue(w, w', q, k);
    MoveKeepsCore(w, w', Move(Some(InQueue(q, k)), None), id);
  }

  lemma CancelHeld(w: World, w': World, p: Place, id: string)
    requires Core(w) && Holds(w, p, id) && !p.InQueue? && Updated(w, w', id, Cancelled)
    requires w'.m.store.queues == w.m.store.queues
    requires w'.ch == w.ch && w'.slots == w.slots && w'.hand == w.hand && w'.now == w.now
    requires w'.traces == w.traces && w'.m.configs == w.m.configs && Seated(w')
    ensures Core(w') && Focus(w, w', id) && Placed(w', id)
  {
    assert TokenOk(w, p, At(w, p).value);
    assert JobFine(w, id);
    InPlace(w, w', p);
    MoveKeepsCore(w, w', Move(Some(p), Some(p)), id);
  }

  predicate Over(j: Job) {
    j.status in {Success, Failed, Cancelled, Expired}
  }

  /** What CancelJob answers, and does to the manager. */
  lemma CancelEffect(w: World, id: string)
    ensures w.m.CancelJob(id, w.now).1 ==
      if id !in w.Jobs() then Err(JobNotFound) else if Over(w.Jobs()[id]) then Err(AlreadyTerminal) else Ok(())
    ensures var w' := Apply(w, Cancel(id));
      if id !in w.Jobs() || Over(w.Jobs()[id]) then w' == w
      else
        && Updated(w, w', id, Cancelled)
        && w'.Jobs() == w.Jobs()[id := EndedAt(w.Jobs()[id], Cancelled, w.now)]
        && (Seated(w) ==> Seated(w'))
        && w' == w.(m := w.m.(store := w.m.store.(jobs := w'.Jobs(), queues := w'.m.store.queues)))
        && var q := w.Jobs()[id].queue;
           var f := FirstOf(w.m.store.Entries(q), id);
           w'.m.store.queues ==
             if w.Jobs()[id].status == Pending && f < |w.m.store.Entries(q)|
             then w.m.store.queues[q := RemoveAt(w.m.store.Entries(q), f)] else w.m.store.queues
  {
  }

  /** Cancelling a job in its queue takes the entry out; anywhere else it only marks the job. */
  lemma CancelKeepsCore(w: World, id: string)
    requires Core(w)
    ensures var w' := Apply(w, Cancel(id));
      && Core(w')
      && (id !in w.Jobs() || w.Jobs()[id].IsTerminal() ==> w' == w)
      && (id in w.Jobs() && !w.Jobs()[id].IsTerminal() ==>
           Focus(w, w', id) && Placed(w, id) && id in w'.Jobs() && w'.Jobs()[id].status == Cancelled
           && (Placed(w', id) ==> w'.m.store.queues == w.m.store.queues))
  {
    var w' := Apply(w, Cancel(id));
    CancelEffect(w, id);
    if id in w.Jobs() && !w.Jobs()[id].IsTerminal() {
      var p := PlaceOf(w, id);
      if p.InQueue? {
        EntryIsFirst(w, p.q, p.k, id);
        CancelWaiting(w, w', p.q, p.k, id);
      } else {
        NoEntryElsewhere(w, p, id, w.Jobs()[id].queue);
        CancelHeld(w, w', p, id);
      }
    }
  }

  /** A job that is not terminal is somewhere; waiting, it is PENDING in its own queue. */
  lemma PlaceOf(w: World, id: string) returns (p: Place)
    requires Core(w) && id in w.Jobs() && !w.Jobs()[id].IsTerminal()
    ensures Holds(w, p, id)
    ensures p.InQueue? ==> p.q == w.Jobs()[id].queue && w.Jobs()[id].status == Pending
  {
    assert JobFine(w, id);
    p :| Holds(w, p, id);
    assert TokenOk(w, p, At(w, p).value);
  }

  // ---- the fetcher ----

  lemma TookKeepsCore(w: World, w': World, q: string, k: nat)
    requires Core(w) && w.fetching && w.hand.None? && |w.ch| < w.pool.concurrency
    requires k < |w.m.store.Entries(q)| && Due(w.m.store.Entries(q)[k], w.now)
    requires w.m.store.Entries(q)[k].jobId in w.Jobs()
    requires w' == w.(m := w.m.(store := w.m.store.TakeAt(q, k)),
                      hand := Some(w.Jobs()[w.m.store.Entries(q)[k].jobId]))
    ensures var id := w.m.store.Entries(q)[k].jobId;
      Core(w') && Focus(w, w', id) && Placed(w, id) && Placed(w', id)
  {
    var id := w.m.store.Entries(q)[k].jobId;
    var p := InQueue(q, k);
    assert Holds(w, p, id);
    assert TokenOk(w, p, At(w, p).value) && JobFine(w, id);
    LeavesQueue(w, w', q, k);
    MoveKeepsCore(w, w', Move(Some(p), Some(InHand)), id);
  }

  /** What a fetch that took the k-th entry of q leaves. */
  ghost predicate Picked(w: World, w': World, q: string, k: nat) {
    && q in w.pool.queues && Serves(w.m.store, q, w.now)
    && k < |w.m.store.Entries(q)| && IsPick(w.m.store.Entries(q), w.now, |w.m.store.Entries(q)|, k)
    && Due(w.m.store.Entries(q)[k], w.now)
    && w.m.store.Entries(q)[k].jobId in w.Jobs()
    && w' == w.(m := w.m.(store := w.m.store.TakeAt(q, k)),
                hand := Some(w.Jobs()[w.m.store.Entries(q)[k].jobId]))
  }

  lemma FetchNothing(w: World, draw: nat)
    requires Seated(w) && Enabled(w, Fetch(draw))
    requires !SomeCandidate(w.m, w.pool.queues) || !SomeServes(w.m.store, w.pool.queues, w.now)
    ensures Apply(w, Fetch(draw)) == w
  {
    var q := DequeueOutcome(w.m, w.pool.queues, draw, w.now);
  }

  lemma DequeueTakes(w: World, draw: nat) returns (q: string, k: nat)
    requires TokensOk(w) && Seated(w) && !Panics(w.m, w.pool.queues)
    requires SomeCandidate(w.m, w.pool.queues) && SomeServes(w.m.store, w.pool.queues, w.now)
    ensures var (m', r) := w.m.Dequeue(w.pool.queues, draw, w.now);
      r.Fetched? && Picked(w, w.(m := m', hand := Some(r.job)), q, k)
  {
    q := DequeueOutcome(w.m, w.pool.queues, draw, w.now);
    var (m', r) := w.m.Dequeue(w.pool.queues, draw, w.now);
    k :| TookAt(w.m, m', r, q, w.now, k);
    assert TokenOk(w, InQueue(q, k), At(w, InQueue(q, k)).value);
  }

  /** A fetch changes nothing, or puts the best due entry's job in the hand. */
  lemma FetchEffect(w: World, draw: nat) returns (q: string, k: nat)
    requires TokensOk(w) && Seated(w) && Enabled(w, Fetch(draw))
    ensures var w' := Apply(w, Fetch(draw));
      if w'.hand.None? then w' == w else Picked(w, w', q, k)
    ensures Apply(w, Fetch(draw)).hand.Some? <==>
      SomeCandidate(w.m, w.pool.queues) && SomeServes(w.m.store, w.pool.queues, w.now)
  {
    q, k := "", 0;
    if SomeCandidate(w.m, w.pool.queues) && SomeServes(w.m.store, w.pool.queues, w.now) {
      q, k := DequeueTakes(w, draw);
    } else {
      FetchNothing(w, draw);
    }
  }

  lemma SendKeepsCore(w: World)
    requires Core(w) && Enabled(w, Send)
    ensures var id := w.hand.value.id;
      var w' := Apply(w, Send);
      Core(w') && Focus(w, w', id) && Placed(w, id) && Placed(w', id)
  {
    var w' := w.(hand := None, ch := w.ch + [w.hand.value]);
    SendMoves(w, w');
    HeldMoves(w, w', InHand, InChannel(|w.ch|));
  }

  /** A carried job keeps its record while it moves. */
  lemma HeldMoves(w: World, w': World, src: Place, dst: Place)
    requires Core(w) && Seated(w')
    requires At(w, src).Some? && At(w, src).value.Carried?
    requires Moves(w, w', Move(Some(src), Some(dst))) && At(w', dst) == At(w, src)
    requires w'.Jobs() == w.Jobs() && w'.traces == w.traces && w'.m.configs == w.m.configs && w'.now == w.now
    ensures var id := At(w, src).value.job.id;
      Core(w') && Focus(w, w', id) && Placed(w, id) && Placed(w', id)
  {
    var id := At(w, src).value.job.id;
    assert Holds(w, src, id);
    assert TokenOk(w, src, At(w, src).value) && JobFine(w, id);
    MoveKeepsCore(w, w', Move(Some(src), Some(dst)), id);
  }

  lemma TakeKeepsCore(w: World, i: nat)
    requires Core(w) && Enabled(w, Take(i))
    ensures var id := w.ch[0].id;
      var w' := Apply(w, Take(i));
      Core(w') && Focus(w, w', id) && Placed(w, id) && Placed(w', id)
  {
    TakenKeepsCore(w, Apply(w, Take(i)), i);
  }

  lemma TakenKeepsCore(w: World, w': World, i: nat)
    requires Core(w) && w.ch != [] && i < |w.slots| && w.slots[i].Idle?
    requires w' == w.(ch := w.ch[1..], slots := w.slots[i := Taken(w.ch[0])])
    ensures var id := w.ch[0].id;
      Core(w') && Focus(w, w', id) && Placed(w, id) && Placed(w', id)
  {
    TakeMoves(w, w', i);
    HeldMoves(w, w', InChannel(0), InSlot(i));
  }

  /** Requeue writes the copy back and appends its entry. */
  lemma RequeueEffect(m: Mgr, j: Job, delay: int, now: int)
    requires j.id in m.store.jobs
    ensures m.Requeue(j, delay, now) == m.(store := m.store.(
      jobs := m.store.jobs[j.id := j],
      queues := m.store.queues[j.queue := m.store.Entries(j.queue) + [Entry(j.id, j.priority, now + delay)]]))
  {
  }

  lemma GiveBackKeepsCore(w: World)
    requires Core(w) && Enabled(w, GiveBack)
    ensures var id := w.hand.value.id;
      var w' := Apply(w, GiveBack);
      Core(w') && Focus(w, w', id) && Placed(w, id) && Placed(w', id)
  {
    var j := w.hand.value;
    assert Holds(w, InHand, j.id);
    assert TokenOk(w, InHand, At(w, InHand).value);
    RequeueEffect(w.m, j, 0, w.now);
    ReturnedKeepsCore(w, Apply(w, GiveBack), j);
  }

  lemma ReturnedKeepsCore(w: World, w': World, j: Job)
    requires Core(w) && w.hand == Some(j) && j.id in w.Jobs()
    requires w' == w.(hand := None, m := w.m.(store := w.m.store.(
      jobs := w.Jobs()[j.id := j],
      queues := w.m.store.queues[j.queue := w.m.store.Entries(j.queue) + [Entry(j.id, j.priority, w.now)]])))
    ensures Core(w') && Focus(w, w', j.id) && Placed(w', j.id)
  {
    assert Holds(w, InHand, j.id);
    assert TokenOk(w, InHand, At(w, InHand).value) && JobFine(w, j.id);
    ReturnsToQueue(w, w', InHand, j.queue, Entry(j.id, j.priority, w.now));
    MoveKeepsCore(w, w', Move(Some(InHand), Some(InQueue(j.queue, |w.m.store.Entries(j.queue)|))), j.id);
  }

  // ---- the workers ----

  /** What every phase leaves alone outside job `id`, its entry and the tallies. */
  predicate PhaseFrame(w: World, w': World, i: nat) {
    && i < |w.slots| && w'.hand == w.hand && w'.ch == w.ch && w'.pool == w.pool && w'.now == w.now
    && w'.fetching == w.fetching
    && w.m.configs.Keys <= w'.m.configs.Keys && Named(w'.m)
    && w'.m.store.workers.Keys == w.m.store.workers.Keys
  }

  lemma StartEffect(w: World, i: nat)
    requires Seated(w) && Enabled(w, Start(i))
    requires w.slots[i].job.id in w.Jobs() && w.slots[i].job.id in w.traces
    ensures var w' := Apply(w, Start(i));
      var j := w.slots[i].job;
      && PhaseFrame(w, w', i) && Updated(w, w', j.id, Running)
      && w'.Jobs() == w.Jobs()[j.id := StartedAt(w.Jobs()[j.id], w.now)]
      && w'.m.store.queues == w.m.store.queues
      && w'.slots == w.slots[i := Executing(j)]
      && w'.traces == w.traces[j.id := w.traces[j.id].(starts := w.traces[j.id].starts + [w.now])]
      && w'.m.configs == w.m.configs
      && w'.m.store == w.m.store.(jobs := w'.Jobs())
  {
  }

  lemma SameDelay(t: Trace, t': Trace, k: nat)
    requires t'.base == t.base && t'.failures == t.failures && k < |t.failures|
    ensures Delay(t', k) == Delay(t, k)
  {
  }

  lemma StartedTrace(j: Job, t: Trace, t': Trace, now: int)
    requires t' == t.(starts := t.starts + [now]) && Spaced(t)
    requires BetweenAttempts(j, t) && DelayElapsed(t, now)
    ensures Spaced(t') && InAttempt(j, t', now)
  {
    assert t'.failures == t.failures && t'.base == t.base;
    forall k | 0 <= k < |t.failures|
      ensures Delay(t', k) == Delay(t, k)
    {
      SameDelay(t, t', k);
    }
    forall k | 0 <= k < |t'.failures| && k + 1 < |t'.starts|
      ensures t'.starts[k + 1] >= t'.failures[k].at + Delay(t', k)
    {
      assert k + 1 < |t.starts| || k == |t.failures| - 1;
    }
  }

  lemma StartedInOrder(w: World, w': World, i: nat, j: Job)
    requires PhaseFrame(w, w', i) && Updated(w, w', j.id, Running) && j.id in w.traces
    requires Agrees(j, w.Jobs()[j.id]) && JobOk(w, j.id) && Spaced(w.traces[j.id])
    requires BetweenAttempts(w.Jobs()[j.id], w.traces[j.id]) && DelayElapsed(w.traces[j.id], w.now)
    requires w'.traces == w.traces[j.id := w.traces[j.id].(starts := w.traces[j.id].starts + [w.now])]
    ensures TokenOk(w', InSlot(i), Handled(j))
    ensures JobOk(w', j.id) && Spaced(w'.traces[j.id])
  {
    StartedTrace(w.Jobs()[j.id], w.traces[j.id], w'.traces[j.id], w.now);
  }

  lemma StartKeepsCore(w: World, i: nat)
    requires Core(w) && Enabled(w, Start(i))
    ensures var id := w.slots[i].job.id;
      var w' := Apply(w, Start(i));
      Core(w') && Focus(w, w', id) && Placed(w, id) && Placed(w', id)
      && w'.slots == w.slots[i := Executing(w.slots[i].job)]
  {
    TakenFacts(w, i);
    StartEffect(w, i);
    StartedKeepsCore(w, Apply(w, Start(i)), i, w.slots[i].job);
  }

  lemma TakenFacts(w: World, i: nat)
    requires Core(w) && i < |w.slots| && w.slots[i].Taken?
    ensures var j := w.slots[i].job;
      && Placed(w, j.id) && j.id in w.Jobs() && j.id in w.traces
      && Agrees(j, w.Jobs()[j.id]) && JobOk(w, j.id) && Spaced(w.traces[j.id])
      && BetweenAttempts(w.Jobs()[j.id], w.traces[j.id]) && DelayElapsed(w.traces[j.id], w.now)
  {
    var j := w.slots[i].job;
    assert Holds(w, InSlot(i), j.id);
    assert TokenOk(w, InSlot(i), At(w, InSlot(i)).value) && JobFine(w, j.id);
  }

  lemma StartedMoves(w: World, w': World, i: nat, j: Job)
    requires PhaseFrame(w, w', i)
    requires w.slots[i] == Taken(j) && w'.slots == w.slots[i := Executing(j)]
    requires w'.m.store.queues == w.m.store.queues
    ensures var e := Move(Some(InSlot(i)), Some(InSlot(i)));
      Moves(w, w', e) && About(w, w', e, j.id) && At(w', InSlot(i)) == Some(Handled(j))
  {
    SlotChanges(w, w', i, Executing(j));
  }

  lemma StartedKeepsCore(w: World, w': World, i: nat, j: Job)
    requires Core(w) && PhaseFrame(w, w', i) && Updated(w, w', j.id, Running)
    requires w.slots[i] == Taken(j) && w'.slots == w.slots[i := Executing(j)]
    requires w'.m.store.queues == w.m.store.queues && j.id in w.traces
    requires Agrees(j, w.Jobs()[j.id]) && JobOk(w, j.id) && Spaced(w.traces[j.id])
    requires BetweenAttempts(w.Jobs()[j.id], w.traces[j.id]) && DelayElapsed(w.traces[j.id], w.now)
    requires w'.traces == w.traces[j.id := w.traces[j.id].(starts := w.traces[j.id].starts + [w.now])]
    ensures Core(w') && Focus(w, w', j.id) && Placed(w', j.id)
  {
    StartedMoves(w, w', i, j);
    StartedInOrder(w, w', i, j);
    MoveKeepsCore(w, w', Move(Some(InSlot(i)), Some(InSlot(i))), j.id);
  }

  /** A worker's two counts, if it is registered, raised. */
  function Credited(workers: map<string, WorkerCounts>, id: string, processed: nat, failed: nat)
    : map<string, WorkerCounts>
  {
    if id in workers
    then workers[id := WorkerCounts(workers[id].processed + processed, workers[id].failed + failed)] else workers
  }

  lemma SucceedEffect(w: World, i: nat)
    requires Seated(w) && Enabled(w, Succeed(i)) && w.slots[i].job.id in w.Jobs()
    ensures var w' := Apply(w, Succeed(i));
      var j := w.slots[i].job;
      && PhaseFrame(w, w', i) && Updated(w, w', j.id, Success)
      && w'.Jobs() == w.Jobs()[j.id := EndedAt(w.Jobs()[j.id], Success, w.now).(progress := 100)]
      && w'.m.store.queues == w.m.store.queues
      && w'.slots == w.slots[i := Idle]
      && w'.traces == w.traces
      && w'.m.configs == w.m.configs
      && w'.m.store.(jobs := w.Jobs(), completed := w.m.store.completed, workers := w.m.store.workers) == w.m.store
      && w'.m.store.completed == w.m.store.completed + 1
      && w'.m.store.workers == Credited(w.m.store.workers, w.pool.id, 1, 0)
  {
  }

  lemma SucceededInOrder(w: World, w': World, i: nat, j: Job)
    requires j.id in w.Jobs() && j.id in w.traces && JobOk(w, j.id)
    requires InAttempt(w.Jobs()[j.id], w.traces[j.id], w.now)
    requires PhaseFrame(w, w', i) && Updated(w, w', j.id, Success) && w'.traces == w.traces
    requires w'.m.configs == w.m.configs
    ensures JobOk(w', j.id) && AtRest(w'.Jobs()[j.id], w'.traces[j.id])
  {
  }

  lemma SucceededAbout(w: World, w': World, i: nat, j: Job)
    requires Seated(w) && i < |w.slots| && w.slots[i] == Executing(j) && j.id in w.Jobs()
    requires PhaseFrame(w, w', i) && Updated(w, w', j.id, Success)
    requires w'.slots == w.slots[i := Idle] && w'.traces == w.traces
    ensures About(w, w', Move(Some(InSlot(i)), None), j.id) && OthersSame(w, w', j.id) && Seated(w')
  {
  }

  lemma SucceededKeepsCore(w: World, w': World, i: nat, j: Job)
    requires Core(w) && i < |w.slots| && w.slots[i] == Executing(j)
    requires j.id in w.Jobs() && j.id in w.traces && JobOk(w, j.id)
    requires InAttempt(w.Jobs()[j.id], w.traces[j.id], w.now) && Spaced(w.traces[j.id])
    requires PhaseFrame(w, w', i) && Updated(w, w', j.id, Success)
    requires w'.m.store.queues == w.m.store.queues && w'.slots == w.slots[i := Idle]
    requires w'.traces == w.traces && w'.m.configs == w.m.configs
    ensures Core(w') && Focus(w, w', j.id) && !Placed(w', j.id)
  {
    SlotChanges(w, w', i, Idle);
    SucceededInOrder(w, w', i, j);
    SucceededAbout(w, w', i, j);
    MoveKeepsCore(w, w', Move(Some(InSlot(i)), None), j.id);
  }

  lemma SucceedKeepsCore(w: World, i: nat)
    requires Core(w) && Enabled(w, Succeed(i))
    ensures var id := w.slots[i].job.id;
      var w' := Apply(w, Succeed(i));
      Core(w') && Focus(w, w', id) && Placed(w, id) && !Placed(w', id)
      && id in w'.Jobs() && w'.Jobs()[id].status == Success
  {
    HandledFacts(w, i);
    SucceedEffect(w, i);
    SucceededKeepsCore(w, Apply(w, Succeed(i)), i, w.slots[i].job);
  }

  // ---- failure ----

  /** The retry branch stores the worker's copy, so status and error of the stored job are those
      of dequeue time, and appends an entry behind the delay. */
  lemma RetryEffect(m: Mgr, j: Job, msg: string, now: int, pool: string)
    requires j.id in m.store.jobs && j.queue in m.configs && j.retryCount < j.maxRetries && !Over(j)
    ensures var m' := FailurePhase(m, j, msg, now, pool);
      var delay := CalculateRetryDelay(j.retryCount + 1, m.configs[j.queue]);
      m' == m.(store := m.store.(
        workers := Credited(m.store.workers, pool, 0, 1),
        jobs := m.store.jobs[j.id := j.(retryCount := j.retryCount + 1)],
        queues := m.store.queues[j.queue := m.store.Entries(j.queue) + [Entry(j.id, j.priority, now + delay)]],
        retried := m.store.retried + 1))
  {
    var j' := j.(retryCount := j.retryCount + 1);
    assert m.store.jobs[j.id := m.store.jobs[j.id].(error := msg)][j.id := j'] == m.store.jobs[j.id := j'];
    var m1 := m.(store := m.store.SetError(j.id, msg));
    var m2 := m1.(store := m1.store.UpdateStatus(j.id, Retrying, now));
    RequeueEffect(m2, j', CalculateRetryDelay(j'.retryCount, m.configs[j.queue]), now);
    assert m2.store.jobs[j.id := j'] == m.store.jobs[j.id := j'];
  }

  /** The dead letter is refused, because the failed job still has its record. */
  lemma DeadLetterRefused(m: Mgr, j: Job, now: int)
    requires Named(m) && j.id in m.store.jobs
    ensures var m' := DeadLetter(m, j, now);
      OnlyConfigs(m, m') && Named(m')
  {
    var c := m.Lookup(j.queue);
    if c.Some? && c.value.deadLetterQueue != "" {
      var m1 := m.Cached(j.queue);
      var j', due := EnqueueEffect(m1, j.(queue := c.value.deadLetterQueue, status := Pending), now);
    }
  }

  /** The store once a job was created in queue q at `now`, with the defaults that `m` has for the queue. */
  function Delivered(m: Mgr, j: Job, q: string, now: int): Store {
    var retries := if m.Lookup(q).Some? then m.Lookup(q).value.maxRetries else 3;
    var due := if j.scheduledAt > now then j.scheduledAt else now;
    m.store.(
      jobs := m.store.jobs[j.id :=
        j.(queue := q, status := Pending, maxRetries := if j.maxRetries == 0 then retries else j.maxRetries)],
      queues := m.store.queues[q := m.store.Entries(q) + [Entry(j.id, j.priority, due)]],
      created := m.store.created + 1)
  }

  lemma LetterDelivered(m: Mgr, j: Job, q: string, now: int)
    requires Named(m) && j.id !in m.store.jobs && q != ""
    ensures var m' := m.Enqueue(j.(queue := q, status := Pending), now).0;
      m'.store.(configs := m.store.configs) == Delivered(m, j, q, now)
  {
    var letter, due := EnqueueEffect(m, j.(queue := q, status := Pending), now);
  }

  lemma CachedDelivers(m: Mgr, name: string, j: Job, q: string, now: int)
    ensures m.Cached(name).store == m.store && Delivered(m.Cached(name), j, q, now) == Delivered(m, j, q, now)
    ensures Named(m) ==> Named(m.Cached(name))
  {
  }

  /** Were the record gone, the dead letter would be stored: PENDING, in the dead-letter queue, with the
      defaults of that queue and one entry there. */
  lemma DeadLetterStored(m: Mgr, j: Job, now: int)
    requires Named(m) && j.id !in m.store.jobs && m.Lookup(j.queue).Some?
    ensures var q := m.Lookup(j.queue).value.deadLetterQueue;
      DeadLetter(m, j, now).store.(configs := m.store.configs)
        == if q == "" then m.store else Delivered(m, j, q, now)
  {
    var q := m.Lookup(j.queue).value.deadLetterQueue;
    if q != "" {
      CachedDelivers(m, j.queue, j, q, now);
      LetterDelivered(m.Cached(j.queue), j, q, now);
    }
  }

  lemma GiveUpEffect(m: Mgr, j: Job, msg: string, now: int, pool: string)
    requires Named(m) && j.id in m.store.jobs
    requires j.retryCount >= j.maxRetries || Over(j)
    ensures var m' := FailurePhase(m, j, msg, now, pool);
      && Named(m') && m.configs.Keys <= m'.configs.Keys
      && j.id in m'.store.jobs
      && m'.store.(configs := m.store.configs) == m.store.(
           jobs := m.store.jobs[j.id := EndedAt(m.store.jobs[j.id], Failed, now).(error := msg)],
           workers := Credited(m.store.workers, pool, 0, 1),
           failed := m.store.failed + 1)
  {
    var m1 := WithFailure(m.(store := m.store.SetError(j.id, msg)), j, now);
    DeadLetterRefused(m1, j, now);
  }

  /** The history after a failure at `now` under configuration c. */
  function Failed'(t: Trace, now: int, c: QueueConfig): Trace {
    t.(failures := t.failures + [Failure(now, Some(c))])
  }

  lemma FailureInOrder(t: Trace, j: Job, now: int, c: QueueConfig)
    requires Spaced(t) && InAttempt(j, t, now)
    ensures var t' := Failed'(t, now, c);
      && Spaced(t') && |t'.starts| == |t'.failures|
      && j.retryCount + 1 == t'.base + |t'.failures|
      && DelayElapsed(t', now + CalculateRetryDelay(j.retryCount + 1, c))
  {
    var t' := Failed'(t, now, c);
    assert forall k :: 0 <= k < |t.failures| ==> Delay(t', k) == Delay(t, k);
  }

  lemma HandledFacts(w: World, i: nat)
    requires Core(w) && i < |w.slots| && w.slots[i].Executing?
    ensures var j := w.slots[i].job;
      && Placed(w, j.id) && j.id in w.Jobs() && j.id in w.traces
      && j.queue in w.m.configs && Agrees(j, w.Jobs()[j.id])
      && InAttempt(w.Jobs()[j.id], w.traces[j.id], w.now) && Spaced(w.traces[j.id])
      && JobOk(w, j.id)
  {
    var j := w.slots[i].job;
    assert Holds(w, InSlot(i), j.id);
    assert TokenOk(w, InSlot(i), At(w, InSlot(i)).value) && JobFine(w, j.id);
  }

  lemma RetryKeepsCore(w: World, i: nat, msg: string)
    requires Core(w) && Enabled(w, Fail(i, msg)) && w.slots[i].job.CanRetry()
    ensures var j := w.slots[i].job;
      var w' := Apply(w, Fail(i, msg));
      && Core(w') && Focus(w, w', j.id) && Placed(w, j.id) && Placed(w', j.id)
      && j.queue in w.m.configs && j.id in w.traces && Retried(w, w', i, j, w.m.configs[j.queue])
  {
    HandledFacts(w, i);
    RetryWorld(w, i, msg);
    RetriedKeepsCore(w, Apply(w, Fail(i, msg)), i, w.slots[i].job);
  }

  ghost predicate Retried(w: World, w': World, i: nat, j: Job, c: QueueConfig)
    requires j.id in w.traces
  {
    && PhaseFrame(w, w', i) && w'.slots == w.slots[i := Idle]
    && w'.Jobs() == w.Jobs()[j.id := j.(retryCount := j.retryCount + 1)]
    && w'.traces == w.traces[j.id := Failed'(w.traces[j.id], w.now, c)]
    && var due := w.now + CalculateRetryDelay(j.retryCount + 1, c);
       w'.m.store.queues
         == w.m.store.queues[j.queue := w.m.store.Entries(j.queue) + [Entry(j.id, j.priority, due)]]
  }

  lemma RetriedBy(w: World, w': World, i: nat, j: Job, c: QueueConfig, s: Store)
    requires Seated(w) && i < |w.slots| && w.slots[i] == Executing(j) && j.id in w.Jobs() && j.id in w.traces
    requires s == w.m.store.(workers := Credited(w.m.store.workers, w.pool.id, 0, 1))
    requires var due := w.now + CalculateRetryDelay(j.retryCount + 1, c);
      w'.m == w.m.(store := s.(
        jobs := w.Jobs()[j.id := j.(retryCount := j.retryCount + 1)],
        queues := w.m.store.queues[j.queue := w.m.store.Entries(j.queue) + [Entry(j.id, j.priority, due)]],
        retried := w.m.store.retried + 1))
    requires w' == w.(m := w'.m, slots := w.slots[i := Idle],
                      traces := w.traces[j.id := Failed'(w.traces[j.id], w.now, c)])
    ensures Retried(w, w', i, j, c)
  {
  }

  lemma FailShape(w: World, i: nat, msg: string)
    requires Enabled(w, Fail(i, msg))
    requires w.slots[i].job.id in w.traces && w.slots[i].job.queue in w.m.configs
    ensures var j := w.slots[i].job;
      Apply(w, Fail(i, msg)) == w.(
        m := FailurePhase(w.m, j, msg, w.now, w.pool.id),
        slots := w.slots[i := Idle],
        traces := w.traces[j.id := Failed'(w.traces[j.id], w.now, w.m.configs[j.queue])])
  {
  }

  lemma RetriedByPhase(w: World, w': World, i: nat, j: Job, msg: string)
    requires Seated(w) && i < |w.slots| && w.slots[i] == Executing(j) && j.CanRetry()
    requires j.id in w.Jobs() && j.id in w.traces && j.queue in w.m.configs
    requires w' == w.(
      m := FailurePhase(w.m, j, msg, w.now, w.pool.id),
      slots := w.slots[i := Idle],
      traces := w.traces[j.id := Failed'(w.traces[j.id], w.now, w.m.configs[j.queue])])
    ensures Retried(w, w', i, j, w.m.configs[j.queue])
  {
    RetryEffect(w.m, j, msg, w.now, w.pool.id);
    RetriedBy(w, w', i, j, w.m.configs[j.queue], w.m.store.(workers := Credited(w.m.store.workers, w.pool.id, 0, 1)));
  }

  lemma RetryWorld(w: World, i: nat, msg: string)
    requires Seated(w) && Enabled(w, Fail(i, msg)) && w.slots[i].job.CanRetry()
    requires var j := w.slots[i].job;
      j.id in w.Jobs() && j.id in w.traces && j.queue in w.m.configs
    ensures var j := w.slots[i].job;
      Retried(w, Apply(w, Fail(i, msg)), i, j, w.m.configs[j.queue])
  {
    FailShape(w, i, msg);
    RetriedByPhase(w, Apply(w, Fail(i, msg)), i, w.slots[i].job, msg);
  }

  /** The entry that the retry appends. */
  function RetryEntry(w: World, j: Job, c: QueueConfig): Entry {
    Entry(j.id, j.priority, w.now + CalculateRetryDelay(j.retryCount + 1, c))
  }

  lemma RetriedMoves(w: World, w': World, i: nat, j: Job, c: QueueConfig)
    requires i < |w.slots| && w.slots[i] == Executing(j) && j.id in w.traces
    requires Retried(w, w', i, j, c)
    ensures var e := Move(Some(InSlot(i)), Some(InQueue(j.queue, |w.m.store.Entries(j.queue)|)));
      Moves(w, w', e) && About(w, w', e, j.id) && At(w', e.dst.value) == Some(Waiting(RetryEntry(w, j, c)))
  {
    ReturnsToQueue(w, w', InSlot(i), j.queue, RetryEntry(w, j, c));
  }

  lemma RetriedInOrder(w: World, w': World, i: nat, j: Job, c: QueueConfig, p: Place)
    requires j.CanRetry() && j.id in w.Jobs() && j.id in w.traces
    requires Agrees(j, w.Jobs()[j.id]) && JobOk(w, j.id)
    requires InAttempt(w.Jobs()[j.id], w.traces[j.id], w.now) && Spaced(w.traces[j.id])
    requires Retried(w, w', i, j, c) && p.InQueue? && p.q == j.queue
    ensures TokenOk(w', p, Waiting(RetryEntry(w, j, c)))
    ensures JobOk(w', j.id) && Spaced(w'.traces[j.id])
  {
    FailureInOrder(w.traces[j.id], w.Jobs()[j.id], w.now, c);
  }

  lemma RetriedAround(w: World, w': World, i: nat, j: Job, c: QueueConfig)
    requires Seated(w) && i < |w.slots| && j.id in w.Jobs() && j.id in w.traces && Retried(w, w', i, j, c)
    ensures OthersSame(w, w', j.id) && Seated(w')
  {
  }

  lemma RetriedKeepsCore(w: World, w': World, i: nat, j: Job)
    requires Core(w) && i < |w.slots| && w.slots[i] == Executing(j) && j.CanRetry()
    requires j.id in w.Jobs() && j.id in w.traces && j.queue in w.m.configs
    requires Agrees(j, w.Jobs()[j.id]) && JobOk(w, j.id)
    requires InAttempt(w.Jobs()[j.id], w.traces[j.id], w.now) && Spaced(w.traces[j.id])
    requires Retried(w, w', i, j, w.m.configs[j.queue])
    ensures Core(w') && Focus(w, w', j.id) && Placed(w', j.id)
  {
    var c := w.m.configs[j.queue];
    var p := InQueue(j.queue, |w.m.store.Entries(j.queue)|);
    RetriedMoves(w, w', i, j, c);
    RetriedInOrder(w, w', i, j, c, p);
    RetriedAround(w, w', i, j, c);
    MoveKeepsCore(w, w', Move(Some(InSlot(i)), Some(p)), j.id);
  }

  lemma GiveUpWorld(w: World, i: nat, msg: string)
    requires Seated(w) && Enabled(w, Fail(i, msg)) && !w.slots[i].job.CanRetry()
    requires var j := w.slots[i].job;
      j.id in w.Jobs() && j.id in w.traces && j.queue in w.m.configs
    ensures var j := w.slots[i].job;
      var w' := Apply(w, Fail(i, msg));
      && PhaseFrame(w, w', i) && Updated(w, w', j.id, Failed)
      && w'.m.store.queues == w.m.store.queues
      && w'.slots == w.slots[i := Idle]
      && w'.traces == w.traces[j.id := Failed'(w.traces[j.id], w.now, w.m.configs[j.queue])]
  {
    GiveUpEffect(w.m, w.slots[i].job, msg, w.now, w.pool.id);
  }

  lemma GiveUpKeepsCore(w: World, i: nat, msg: string)
    requires Core(w) && Enabled(w, Fail(i, msg)) && !w.slots[i].job.CanRetry()
    ensures var id := w.slots[i].job.id;
      var w' := Apply(w, Fail(i, msg));
      Core(w') && Focus(w, w', id) && Placed(w, id) && !Placed(w', id)
      && id in w'.Jobs() && w'.Jobs()[id].status == Failed
  {
    var j := w.slots[i].job;
    HandledFacts(w, i);
    GiveUpWorld(w, i, msg);
    FailureInOrder(w.traces[j.id], w.Jobs()[j.id], w.now, w.m.configs[j.queue]);
    GaveUpKeepsCore(w, Apply(w, Fail(i, msg)), i, j);
  }

  lemma GaveUpKeepsCore(w: World, w': World, i: nat, j: Job)
    requires Core(w) && i < |w.slots| && w.slots[i] == Executing(j) && !j.CanRetry()
    requires PhaseFrame(w, w', i) && Updated(w, w', j.id, Failed)
    requires Agrees(j, w.Jobs()[j.id]) && JobOk(w, j.id)
    requires w'.m.store.queues == w.m.store.queues && w'.slots == w.slots[i := Idle]
    requires j.id in w'.traces && w'.traces == w.traces[j.id := w'.traces[j.id]]
    requires w'.traces[j.id].base == w.traces[j.id].base
    requires var t := w'.traces[j.id];
      Spaced(t) && |t.starts| == |t.failures| && j.retryCount + 1 == t.base + |t.failures|
    ensures Core(w') && Focus(w, w', j.id) && !Placed(w', j.id)
  {
    SlotChanges(w, w', i, Idle);
    MoveKeepsCore(w, w', Move(Some(InSlot(i)), None), j.id);
  }

  // ---- all actions ----

  /** Only job `id`, if any, is touched: one that has a place, or a new one. */
  ghost predicate TouchesOnly(w: World, w': World, id: string) {
    SameJobs(w, w') || (Focus(w, w', id) && (Placed(w, id) || id !in w.Jobs()))
  }

  lemma StepKeepsCore(w: World, a: Action) returns (id: string)
    requires Core(w) && Enabled(w, a)
    ensures Core(Apply(w, a)) && TouchesOnly(w, Apply(w, a), id)
  {
    id := "";
    match a
    case Submit(j) => SubmitKeepsCore(w, j); id := j.id;
    case Cancel(x) => CancelKeepsCore(w, x); id := x;
    case Fetch(draw) => id := FetchKeepsCore(w, draw);
    case Send => SendKeepsCore(w); id := w.hand.value.id;
    case GiveBack => GiveBackKeepsCore(w); id := w.hand.value.id;
    case Take(i) => TakeKeepsCore(w, i); id := w.ch[0].id;
    case Start(i) => StartKeepsCore(w, i); id := w.slots[i].job.id;
    case Succeed(i) => SucceedKeepsCore(w, i); id := w.slots[i].job.id;
    case Fail(i, msg) =>
      id := w.slots[i].job.id;
      if w.slots[i].job.CanRetry() { RetryKeepsCore(w, i, msg); } else { GiveUpKeepsCore(w, i, msg); }
    case _ => QuietKeepsCore(w, a);
  }

  lemma FetchKeepsCore(w: World, draw: nat) returns (id: string)
    requires Core(w) && Enabled(w, Fetch(draw))
    ensures var w' := Apply(w, Fetch(draw));
      && Core(w')
      && (w'.hand.None? ==> w' == w)
      && (w'.hand.Some? ==> w'.hand.value.id == id && Focus(w, w', id) && Placed(w, id) && Placed(w', id))
  {
    id := "";
    var w' := Apply(w, Fetch(draw));
    var q, k := FetchEffect(w, draw);
    if w'.hand.Some? {
      TookKeepsCore(w, w', q, k);
      id := w.m.store.Entries(q)[k].jobId;
      assert JobFine(w, id);
    }
  }
}
