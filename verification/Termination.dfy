/** Every pool step makes measurable progress, and work that can move always finds a step. */
module ProtocolTermination {
  import opened Jobs
  import opened MemoryStorage
  import opened QueueManager
  import opened QueueSelection
  import opened WorkerPool
  import opened PoolProtocol
  import opened ProtocolInvariant
  import opened ProtocolPreservation
  import opened ProtocolGuarantees
  import opened Sums

  // ---- the measure ----

  /** Five steps for each retry left, and the stages left of the current attempt. */
  ghost function Weight(w: World, id: string): int {
    if id !in w.Jobs() || !Placed(w, id) then 0
    else
      var p :| Holds(w, p, id);
      5 * Max(0, w.Jobs()[id].maxRetries - w.Jobs()[id].retryCount) + StageOf(w, p)
  }

  ghost function WeightIn(w: World): string -> int {
    (id: string) => Weight(w, id)
  }

  ghost function Measure(w: World): int {
    Sum(w.Jobs().Keys, WeightIn(w))
  }

  lemma WeightAt(w: World, p: Place, id: string)
    requires SingleOwner(w) && Holds(w, p, id) && id in w.Jobs()
    ensures Weight(w, id)
         == 5 * Max(0, w.Jobs()[id].maxRetries - w.Jobs()[id].retryCount) + StageOf(w, p)
  {
  }

  lemma WeightElsewhere(w: World, w': World, id: string, x: string)
    requires SingleOwner(w) && SingleOwner(w') && Focus(w, w', id) && x != id
    ensures Weight(w', x) == Weight(w, x)
  {
    if x in w.Jobs() && Placed(w, x) {
      var p :| Holds(w, p, x);
      assert Stands(w, x, StageOf(w, p));
      var p' :| Holds(w', p', x) && StageOf(w', p') == StageOf(w, p);
      WeightAt(w, p, x);
      WeightAt(w', p', x);
    }
  }

  lemma MeasureAfter(w: World, w': World, id: string)
    requires SingleOwner(w) && SingleOwner(w') && Focus(w, w', id) && id in w'.Jobs()
    ensures Measure(w')
         == Measure(w) + Weight(w', id) - (if id in w.Jobs() then Weight(w, id) else 0)
  {
    var f, g := WeightIn(w), WeightIn(w');
    forall x | x != id
      ensures f(x) == g(x)
    {
      WeightElsewhere(w, w', id, x);
    }
    if id in w.Jobs() {
      assert w'.Jobs().Keys == w.Jobs().Keys;
      SumChange(w.Jobs().Keys, f, g, id);
    } else {
      assert w'.Jobs().Keys == w.Jobs().Keys + {id};
      SumNew(w.Jobs().Keys, f, g, id);
    }
  }

  lemma MeasureSame(w: World, w': World)
    requires SingleOwner(w) && SingleOwner(w') && w'.Jobs() == w.Jobs()
    requires forall x, s :: Stands(w, x, s) <==> Stands(w', x, s)
    ensures Measure(w') == Measure(w)
  {
    forall x | x in w.Jobs().Keys
      ensures WeightIn(w)(x) == WeightIn(w')(x)
    {
      PlacedStands(w);
      PlacedStands(w');
      if Placed(w, x) {
        var p :| Holds(w, p, x);
        assert Stands(w, x, StageOf(w, p));
        var p' :| Holds(w', p', x) && StageOf(w', p') == StageOf(w, p);
        WeightAt(w, p, x);
        WeightAt(w', p', x);
      }
    }
    SumSame(w.Jobs().Keys, WeightIn(w), WeightIn(w'));
  }

  lemma MeasureNonNegative(w: World)
    ensures Measure(w) >= 0
    ensures forall id :: id in w.Jobs() ==> Weight(w, id) <= Measure(w)
  {
    SumNonNegative(w.Jobs().Keys, WeightIn(w));
    assert forall id :: id in w.Jobs() ==> WeightIn(w)(id) == Weight(w, id);
  }

  // ---- debit and credit of an action ----

  /** The pool moves a job: a fetch that got one, or any step of the channel and the workers. */
  ghost predicate PoolStep(w: World, a: Action)
    requires Enabled(w, a)
  {
    (a.Fetch? && Apply(w, a).hand.Some?) || a.Send? || a.Take? || a.Start? || a.Succeed? || a.Fail?
  }

  /** What a new job or a job given back on stop adds. */
  ghost function Credit(w: World, a: Action): int
    requires Enabled(w, a)
  {
    if a.Submit? && a.job.id !in w.Jobs() then Weight(Apply(w, a), a.job.id)
    else if a.GiveBack? then 1 else 0
  }

  /** A new job stands in its queue. */
  lemma SubmittedWeight(w': World, stored: Job, k: nat)
    requires SingleOwner(w') && stored.id in w'.Jobs() && w'.Jobs()[stored.id] == stored
    requires Holds(w', InQueue(stored.queue, k), stored.id)
    ensures Weight(w', stored.id) == 5 * (Max(0, stored.maxRetries - stored.retryCount) + 1)
  {
    WeightAt(w', InQueue(stored.queue, k), stored.id);
  }

  lemma SubmittedHolds(w: World, j: Job) returns (stored: Job, k: nat)
    requires Core(w) && Enabled(w, Submit(j)) && j.id !in w.Jobs()
    ensures var w' := Apply(w, Submit(j));
      && SingleOwner(w') && stored.id == j.id && stored.retryCount == j.retryCount
      && j.id in w'.Jobs() && w'.Jobs()[j.id] == stored && Holds(w', InQueue(stored.queue, k), j.id)
  {
    var due;
    stored, due := EnqueueEffect(w.m, j, w.now);
    k := |w.m.store.Entries(stored.queue)|;
    SubmitKeepsCore(w, j);
  }

  /** A new job is worth five steps for each attempt it may make. */
  lemma SubmitCredit(w: World, j: Job)
    requires Core(w) && Enabled(w, Submit(j)) && j.id !in w.Jobs()
    ensures var w' := Apply(w, Submit(j));
      j.id in w'.Jobs() && Credit(w, Submit(j)) == 5 * (Max(0, w'.Jobs()[j.id].maxRetries - j.retryCount) + 1)
  {
    var stored, k := SubmittedHolds(w, j);
    SubmittedWeight(Apply(w, Submit(j)), stored, k);
  }

  ghost predicate Accounted(w: World, a: Action)
    requires Enabled(w, a)
  {
    Measure(Apply(w, a)) + (if PoolStep(w, a) then 1 else 0) <= Measure(w) + Credit(w, a)
  }

  /** A placed job that goes from one stage to a later one. */
  lemma StageDrops(w: World, w': World, id: string, p: Place, p': Place)
    requires SingleOwner(w) && SingleOwner(w') && Focus(w, w', id)
    requires Holds(w, p, id) && Holds(w', p', id) && id in w.Jobs() && id in w'.Jobs()
    requires w'.Jobs()[id].maxRetries == w.Jobs()[id].maxRetries
    requires w'.Jobs()[id].retryCount == w.Jobs()[id].retryCount
    ensures Measure(w') == Measure(w) + StageOf(w', p') - StageOf(w, p)
  {
    WeightAt(w, p, id);
    WeightAt(w', p', id);
    MeasureAfter(w, w', id);
  }

  lemma LeavesDrops(w: World, w': World, id: string, p: Place)
    requires SingleOwner(w) && SingleOwner(w') && Focus(w, w', id)
    requires Holds(w, p, id) && !Placed(w', id) && id in w.Jobs() && id in w'.Jobs()
    ensures Measure(w') + StageOf(w, p) <= Measure(w)
  {
    WeightAt(w, p, id);
    MeasureAfter(w, w', id);
  }

  /** A token's job has a record. */
  lemma TokenKnown(w: World, p: Place)
    requires Core(w) && At(w, p).Some?
    ensures SingleOwner(w) && Holds(w, p, At(w, p).value.Id()) && At(w, p).value.Id() in w.Jobs()
  {
    assert TokenOk(w, p, At(w, p).value);
  }

  /** Both worlds own each job once, and only job `id` differs. */
  ghost predicate About1(w: World, w': World, id: string) {
    SingleOwner(w) && SingleOwner(w') && Focus(w, w', id) && id in w.Jobs() && id in w'.Jobs()
  }

  lemma TakeStages(w: World, w': World, i: nat)
    requires w.ch != [] && i < |w.slots| && About1(w, w', w.ch[0].id)
    requires w' == w.(ch := w.ch[1..], slots := w.slots[i := Taken(w.ch[0])])
    ensures Measure(w') + 1 <= Measure(w)
  {
    assert At(w, InChannel(0)) == At(w', InSlot(i)) == Some(Carried(w.ch[0]));
    StageDrops(w, w', w.ch[0].id, InChannel(0), InSlot(i));
  }

  lemma TakeAbout(w: World, i: nat)
    requires Core(w) && Enabled(w, Take(i))
    ensures About1(w, Apply(w, Take(i)), w.ch[0].id)
  {
    TakeKeepsCore(w, i);
    TokenKnown(w, InChannel(0));
  }

  lemma TakeDrops(w: World, i: nat)
    requires Core(w) && Enabled(w, Take(i))
    ensures Measure(Apply(w, Take(i))) + 1 <= Measure(w)
  {
    TakeAbout(w, i);
    TakeStages(w, Apply(w, Take(i)), i);
  }

  lemma TookStages(w: World, w': World, q: string, k: nat)
    requires w.hand.None? && k < |w.m.store.Entries(q)|
    requires var id := w.m.store.Entries(q)[k].jobId;
      id in w.Jobs() && w.Jobs()[id].id == id && About1(w, w', id)
      && w' == w.(m := w.m.(store := w.m.store.TakeAt(q, k)), hand := Some(w.Jobs()[id]))
    ensures Measure(w') + 1 <= Measure(w)
  {
    StageDrops(w, w', w.m.store.Entries(q)[k].jobId, InQueue(q, k), InHand);
  }

  lemma FetchDrops(w: World, draw: nat)
    requires Core(w) && Enabled(w, Fetch(draw))
    ensures var w' := Apply(w, Fetch(draw));
      if w'.hand.Some? then Measure(w') + 1 <= Measure(w) else w' == w
  {
    var w' := Apply(w, Fetch(draw));
    var q, k := FetchEffect(w, draw);
    var id := FetchKeepsCore(w, draw);
    if w'.hand.Some? {
      TookStages(w, w', q, k);
    }
  }

  lemma SendStages(w: World, w': World)
    requires w.hand.Some? && About1(w, w', w.hand.value.id)
    requires w' == w.(hand := None, ch := w.ch + [w.hand.value])
    ensures Measure(w') + 1 <= Measure(w)
  {
    StageDrops(w, w', w.hand.value.id, InHand, InChannel(|w.ch|));
  }

  lemma SendDrops(w: World)
    requires Core(w) && Enabled(w, Send)
    ensures Measure(Apply(w, Send)) + 1 <= Measure(w)
  {
    SendKeepsCore(w);
    TokenKnown(w, InHand);
    SendStages(w, Apply(w, Send));
  }

  lemma GiveBackStages(w: World, w': World, j: Job)
    requires w.hand == Some(j) && About1(w, w', j.id)
    requires j.maxRetries == w.Jobs()[j.id].maxRetries && j.retryCount == w.Jobs()[j.id].retryCount
    requires w'.Jobs()[j.id] == j
    requires w'.m.store.Entries(j.queue) == w.m.store.Entries(j.queue) + [Entry(j.id, j.priority, w.now)]
    ensures Measure(w') <= Measure(w) + 1
  {
    StageDrops(w, w', j.id, InHand, InQueue(j.queue, |w.m.store.Entries(j.queue)|));
  }

  lemma GiveBackDrops(w: World)
    requires Core(w) && Enabled(w, GiveBack)
    ensures Measure(Apply(w, GiveBack)) <= Measure(w) + 1
  {
    var j := w.hand.value;
    GiveBackKeepsCore(w);
    assert TokenOk(w, InHand, At(w, InHand).value);
    RequeueEffect(w.m, j, 0, w.now);
    GiveBackStages(w, Apply(w, GiveBack), j);
  }

  lemma StartStages(w: World, w': World, i: nat, j: Job)
    requires i < |w.slots| && w.slots[i] == Taken(j) && About1(w, w', j.id)
    requires w'.slots == w.slots[i := Executing(j)] && Updated(w, w', j.id, Running)
    ensures Measure(w') + 1 <= Measure(w)
  {
    StageDrops(w, w', j.id, InSlot(i), InSlot(i));
  }

  lemma StartDrops(w: World, i: nat)
    requires Core(w) && Enabled(w, Start(i))
    ensures Measure(Apply(w, Start(i))) + 1 <= Measure(w)
  {
    TakenFacts(w, i);
    StartEffect(w, i);
    StartKeepsCore(w, i);
    StartStages(w, Apply(w, Start(i)), i, w.slots[i].job);
  }

  lemma DoneStages(w: World, w': World, i: nat)
    requires i < |w.slots| && w.slots[i].Executing? && About1(w, w', w.slots[i].job.id)
    requires !Placed(w', w.slots[i].job.id)
    ensures Measure(w') + 1 <= Measure(w)
  {
    LeavesDrops(w, w', w.slots[i].job.id, InSlot(i));
  }

  lemma SucceedDrops(w: World, i: nat)
    requires Core(w) && Enabled(w, Succeed(i))
    ensures Measure(Apply(w, Succeed(i))) + 1 <= Measure(w)
  {
    HandledFacts(w, i);
    SucceedKeepsCore(w, i);
    DoneStages(w, Apply(w, Succeed(i)), i);
  }

  lemma GiveUpDrops(w: World, i: nat, msg: string)
    requires Core(w) && Enabled(w, Fail(i, msg)) && !w.slots[i].job.CanRetry()
    ensures Measure(Apply(w, Fail(i, msg))) + 1 <= Measure(w)
  {
    HandledFacts(w, i);
    GiveUpKeepsCore(w, i, msg);
    DoneStages(w, Apply(w, Fail(i, msg)), i);
  }

  /** A retry starts the stages again, at the price of one retry. */
  lemma RetryStages(w: World, w': World, i: nat, j: Job, c: QueueConfig)
    requires i < |w.slots| && w.slots[i] == Executing(j) && About1(w, w', j.id) && j.CanRetry()
    requires j.maxRetries == w.Jobs()[j.id].maxRetries && j.retryCount == w.Jobs()[j.id].retryCount
    requires j.id in w.traces && Retried(w, w', i, j, c)
    ensures Measure(w') + 1 <= Measure(w)
  {
    var p := InQueue(j.queue, |w.m.store.Entries(j.queue)|);
    assert Holds(w, InSlot(i), j.id) && Holds(w', p, j.id);
    WeightAt(w, InSlot(i), j.id);
    WeightAt(w', p, j.id);
    MeasureAfter(w, w', j.id);
  }

  lemma RetryDrops(w: World, i: nat, msg: string)
    requires Core(w) && Enabled(w, Fail(i, msg)) && w.slots[i].job.CanRetry()
    ensures Measure(Apply(w, Fail(i, msg))) + 1 <= Measure(w)
  {
    var j := w.slots[i].job;
    HandledFacts(w, i);
    RetryKeepsCore(w, i, msg);
    RetryStages(w, Apply(w, Fail(i, msg)), i, j, w.m.configs[j.queue]);
  }

  lemma SubmitAdds(w: World, j: Job)
    requires Core(w) && Enabled(w, Submit(j))
    ensures Measure(Apply(w, Submit(j))) == Measure(w) + Credit(w, Submit(j))
  {
    var w' := Apply(w, Submit(j));
    var stored, due := EnqueueEffect(w.m, j, w.now);
    SubmitKeepsCore(w, j);
    if j.id in w.Jobs() { MeasureSame(w, w'); } else { MeasureAfter(w, w', j.id); }
  }

  /** Cancelling never adds work. */
  lemma CancelDrops(w: World, id: string)
    requires Core(w)
    ensures Measure(Apply(w, Cancel(id))) <= Measure(w)
  {
    var w' := Apply(w, Cancel(id));
    CancelEffect(w, id);
    CancelKeepsCore(w, id);
    if id in w.Jobs() && !w.Jobs()[id].IsTerminal() {
      CancelStages(w, w', id);
    }
  }

  lemma CancelStages(w: World, w': World, id: string)
    requires About1(w, w', id) && Updated(w, w', id, Cancelled) && Placed(w, id)
    requires w'.hand == w.hand && w'.ch == w.ch && w'.slots == w.slots
    requires Placed(w', id) ==> w'.m.store.queues == w.m.store.queues
    ensures Measure(w') <= Measure(w)
  {
    MeasureAfter(w, w', id);
    var p :| Holds(w, p, id);
    WeightAt(w, p, id);
    if Placed(w', id) {
      assert Holds(w', p, id);
      WeightAt(w', p, id);
    }
  }

  lemma QuietSame(w: World, a: Action)
    requires Core(w) && Enabled(w, a) && Quiet(a)
    ensures Measure(Apply(w, a)) == Measure(w)
  {
    QuietKeepsCore(w, a);
    MeasureSame(w, Apply(w, a));
  }

  lemma PoolStepDrops(w: World, a: Action)
    requires Core(w) && Enabled(w, a) && PoolStep(w, a)
    ensures Measure(Apply(w, a)) + 1 <= Measure(w)
  {
    match a
    case Fetch(draw) => FetchDrops(w, draw);
    case Send => SendDrops(w);
    case Take(i) => TakeDrops(w, i);
    case Start(i) => StartDrops(w, i);
    case Succeed(i) => SucceedDrops(w, i);
    case Fail(i, msg) => if w.slots[i].job.CanRetry() { RetryDrops(w, i, msg); } else { GiveUpDrops(w, i, msg); }
  }

  lemma StepAccounted(w: World, a: Action)
    requires Core(w) && Enabled(w, a)
    ensures Accounted(w, a)
  {
    if PoolStep(w, a) {
      PoolStepDrops(w, a);
    } else {
      match a
      case Submit(j) => SubmitAdds(w, j);
      case Cancel(id) => CancelDrops(w, id);
      case Fetch(draw) => FetchDrops(w, draw);
      case GiveBack => GiveBackDrops(w);
      case _ => QuietSame(w, a);
    }
  }

  // ---- whole runs ----

  ghost function PoolSteps(w: World, acts: seq<Action>): nat
    requires Runnable(w, acts)
    decreases |acts|
  {
    if acts == [] then 0
    else (if PoolStep(w, acts[0]) then 1 else 0) + PoolSteps(Apply(w, acts[0]), acts[1..])
  }

  ghost function Credits(w: World, acts: seq<Action>): int
    requires Runnable(w, acts)
    decreases |acts|
  {
    if acts == [] then 0 else Credit(w, acts[0]) + Credits(Apply(w, acts[0]), acts[1..])
  }

  lemma {:induction false} RunAccounted(w: World, acts: seq<Action>)
    requires Core(w) && Runnable(w, acts)
    ensures PoolSteps(w, acts) + Measure(Exec(w, acts)) <= Measure(w) + Credits(w, acts)
    decreases |acts|
  {
    if acts != [] {
      StepAccounted(w, acts[0]);
      var id := StepKeepsCore(w, acts[0]);
      RunAccounted(Apply(w, acts[0]), acts[1..]);
    }
  }

  /** However pool steps, cancellations, pauses, registrations and ticks interleave, the pool makes
      no more steps than the work at hand and the work submitted (or given back) allow. */
  lemma PoolStepsBounded(w: World, acts: seq<Action>)
    requires Reachable(w) && Runnable(w, acts)
    ensures PoolSteps(w, acts) <= Measure(w) + Credits(w, acts)
  {
    ReachableCore(w);
    RunAccounted(w, acts);
    MeasureNonNegative(Exec(w, acts));
  }

  // ---- progress ----

  /** The pool has not been told to stop, so no goroutine of it has left. */
  predicate Alive(w: World) {
    !w.stopped ==> w.fetching && forall i :: 0 <= i < |w.slots| ==> !w.slots[i].Exited?
  }

  lemma StepKeepsAlive(w: World, a: Action)
    requires Alive(w) && Enabled(w, a)
    ensures Alive(Apply(w, a))
  {
  }

  lemma {:induction false} RunKeepsAlive(w: World, acts: seq<Action>)
    requires Alive(w) && Runnable(w, acts)
    ensures Alive(Exec(w, acts))
    decreases |acts|
  {
    if acts != [] {
      StepKeepsAlive(w, acts[0]);
      RunKeepsAlive(Apply(w, acts[0]), acts[1..]);
    }
  }

  lemma ReachableAlive(w: World)
    requires Reachable(w)
    ensures Alive(w)
  {
    var pool, now, acts :| Runnable(Initial(pool, now), acts) && Exec(Initial(pool, now), acts) == w;
    RunKeepsAlive(Initial(pool, now), acts);
  }

  /** The job at this place is not held up: if it waits, its queue is listed and unpaused, and its
      delay is over. */
  predicate Movable(w: World, p: Place) {
    At(w, p).Some? && (p.InQueue? ==>
      p.q in w.pool.queues && !w.m.store.IsPaused(p.q) && Due(At(w, p).value.entry, w.now))
  }

  /** Some worker, or the channel, has something to do. */
  lemma WorkersProceed(w: World) returns (a: Action)
    requires Seated(w) && w.pool.concurrency >= 1
    requires forall i :: 0 <= i < |w.slots| ==> !w.slots[i].Exited?
    requires WorkersBusy(w)
    ensures Enabled(w, a) && PoolStep(w, a)
  {
    if i: nat :| i < |w.slots| && w.slots[i].Executing? {
      a := Succeed(i);
    } else if i: nat :| i < |w.slots| && w.slots[i].Taken? {
      a := Start(i);
    } else if w.ch != [] {
      a := Take(0);
    } else {
      a := Send;
    }
  }

  lemma FetchProceeds(w: World, q: string)
    requires TokensOk(w) && Seated(w) && !Panics(w.m, w.pool.queues) && w.fetching && w.hand.None?
    requires w.pool.concurrency >= 1 && w.ch == []
    requires q in w.pool.queues && q in w.m.configs && w.m.store.CanServe(q, w.now)
    ensures Enabled(w, Fetch(0)) && PoolStep(w, Fetch(0))
  {
    var q', k := FetchEffect(w, 0);
    assert Eligible(w.m, q);
  }

  predicate WorkersBusy(w: World) {
    w.ch != [] || w.hand.Some? || exists i :: 0 <= i < |w.slots| && !w.slots[i].Idle?
  }

  lemma OnlyQueuesLeft(w: World, p: Place)
    requires !WorkersBusy(w) && Movable(w, p)
    ensures p.InQueue? && p.q in w.pool.queues && w.m.store.CanServe(p.q, w.now)
  {
  }

  /** While any job can move, some pool step is enabled. */
  lemma Progress(w: World, p: Place) returns (a: Action)
    requires Reachable(w) && !w.stopped && w.pool.concurrency >= 1 && !Panics(w.m, w.pool.queues)
    requires Movable(w, p)
    ensures Enabled(w, a) && PoolStep(w, a)
  {
    ReachableCore(w);
    ReachableAlive(w);
    if WorkersBusy(w) {
      a := WorkersProceed(w);
    } else {
      OnlyQueuesLeft(w, p);
      TokenKnown(w, p);
      FetchProceeds(w, p.q);
      a := Fetch(0);
    }
  }

  /** Where the pool can take no step and no job is held up, every job is terminal.  With the
      bound on pool steps: any finite set of submissions is driven to terminal states. */
  lemma QuiescentMeansDone(w: World, id: string)
    requires Reachable(w) && !w.stopped && w.pool.concurrency >= 1 && !Panics(w.m, w.pool.queues)
    requires forall p :: At(w, p).Some? ==> Movable(w, p)
    requires forall a :: Enabled(w, a) ==> !PoolStep(w, a)
    requires id in w.Jobs()
    ensures w.Jobs()[id].IsTerminal() && !Placed(w, id)
  {
    if Placed(w, id) {
      var p :| Holds(w, p, id);
      var a := Progress(w, p);
    }
    NothingLost(w, id);
  }
}
