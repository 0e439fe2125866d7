/** The metrics counters account for every job and every attempt, at every point of every run. */
module ProtocolConservation {
  import opened Jobs
  import opened MemoryStorage
  import opened QueueManager
  import opened WorkerPool
  import opened PoolProtocol
  import opened ProtocolInvariant
  import opened ProtocolPreservation
  import opened ProtocolGuarantees
  import opened Sums

  /** The jobs that came to rest with a status, and those queued or in flight. */
  ghost function Resting(w: World, status: Status): set<string> {
    set id | id in w.Jobs() && !Placed(w, id) && w.Jobs()[id].status == status
  }

  ghost function InPlay(w: World): set<string> {
    set id | id in w.Jobs() && Placed(w, id)
  }

  /** Attempts of a job that have ended. */
  ghost function Ended(w: World, id: string): int {
    if id !in w.Jobs() || id !in w.traces then 0
    else |w.traces[id].failures| + if !Placed(w, id) && w.Jobs()[id].status == Success then 1 else 0
  }

  ghost function EndedIn(w: World): string -> int {
    (id: string) => Ended(w, id)
  }

  ghost function EndedAttempts(w: World): int {
    Sum(w.Jobs().Keys, EndedIn(w))
  }

  function Counted(w: World): int {
    w.m.store.completed + w.m.store.failed + w.m.store.retried
  }

  /** The pool's own two counts. */
  function Counts(w: World): WorkerCounts {
    if w.pool.id in w.m.store.workers then w.m.store.workers[w.pool.id] else WorkerCounts(0, 0)
  }

  ghost predicate Tally(w: World) {
    && w.m.store.created == |w.Jobs().Keys|
    && w.m.store.completed == |Resting(w, Success)|
    && w.m.store.failed == |Resting(w, Failed)|
    && Counts(w).processed == w.m.store.completed
    && Counts(w).failed == w.m.store.failed + w.m.store.retried
    && Counted(w) == EndedAttempts(w)
  }

  // ---- how the tallies react to a change about one job ----

  lemma RestingAfter(w: World, w': World, id: string, status: Status)
    requires Focus(w, w', id) && (Placed(w, id) || id !in w.Jobs())
    ensures id !in Resting(w, status)
    ensures Resting(w', status) ==
      if id in w'.Jobs() && !Placed(w', id) && w'.Jobs()[id].status == status
      then Resting(w, status) + {id} else Resting(w, status)
  {
    forall x | x != id
      ensures x in Resting(w', status) <==> x in Resting(w, status)
    {
    }
  }

  lemma SizesAfter(w: World, w': World, id: string, status: Status)
    requires Focus(w, w', id) && (Placed(w, id) || id !in w.Jobs()) && id in w'.Jobs()
    ensures |w'.Jobs().Keys| == |w.Jobs().Keys| + if id in w.Jobs() then 0 else 1
    ensures |Resting(w', status)|
         == |Resting(w, status)| + if !Placed(w', id) && w'.Jobs()[id].status == status then 1 else 0
  {
    RestingAfter(w, w', id, status);
    assert w'.Jobs().Keys == w.Jobs().Keys + {id};
  }

  lemma EndedAfter(w: World, w': World, id: string)
    requires Focus(w, w', id) && id in w'.Jobs()
    ensures EndedAttempts(w')
         == EndedAttempts(w) + Ended(w', id) - (if id in w.Jobs() then Ended(w, id) else 0)
  {
    var f, g := EndedIn(w), EndedIn(w');
    assert forall x :: x != id ==> f(x) == g(x);
    if id in w.Jobs() {
      assert w'.Jobs().Keys == w.Jobs().Keys;
      SumChange(w.Jobs().Keys, f, g, id);
    } else {
      assert w'.Jobs().Keys == w.Jobs().Keys + {id};
      SumNew(w.Jobs().Keys, f, g, id);
    }
  }

  ghost predicate SameCounters(w: World, w': World) {
    && w'.m.store.created == w.m.store.created && w'.m.store.completed == w.m.store.completed
    && w'.m.store.failed == w.m.store.failed && w'.m.store.retried == w.m.store.retried
    && w'.m.store.workers == w.m.store.workers && w'.pool == w.pool
  }

  lemma SameTally(w: World, w': World)
    requires Tally(w) && SameCounters(w, w')
    requires w'.Jobs() == w.Jobs() && w'.traces == w.traces && forall x :: Placed(w, x) <==> Placed(w', x)
    ensures Tally(w')
  {
    RestingSame(w, w', Success);
    RestingSame(w, w', Failed);
    SumSame(w.Jobs().Keys, EndedIn(w), EndedIn(w'));
  }

  lemma RestingSame(w: World, w': World, status: Status)
    requires w'.Jobs() == w.Jobs() && forall x :: Placed(w, x) <==> Placed(w', x)
    ensures Resting(w', status) == Resting(w, status)
  {
  }

  /** How many attempts of the job, by outcome, an action ends. */
  datatype Outcome = Outcome(successes: nat, failures: nat, retries: nat)

  /** The general accounting step: counters, worker totals and history move together. */
  lemma TallyAfter(w: World, w': World, id: string, o: Outcome)
    requires Tally(w) && Focus(w, w', id) && (Placed(w, id) || id !in w.Jobs()) && id in w'.Jobs()
    requires w'.m.store.created == w.m.store.created + if id in w.Jobs() then 0 else 1
    requires w'.m.store.completed == w.m.store.completed + o.successes
    requires w'.m.store.failed == w.m.store.failed + o.failures
    requires w'.m.store.retried == w.m.store.retried + o.retries
    requires Counts(w').processed == Counts(w).processed + o.successes
    requires Counts(w').failed == Counts(w).failed + o.failures + o.retries
    requires Ended(w', id) == (if id in w.Jobs() then Ended(w, id) else 0) + o.successes + o.failures + o.retries
    requires o.successes == if !Placed(w', id) && w'.Jobs()[id].status == Success then 1 else 0
    requires o.failures == if !Placed(w', id) && w'.Jobs()[id].status == Failed then 1 else 0
    ensures Tally(w')
  {
    SizesAfter(w, w', id, Success);
    SizesAfter(w, w', id, Failed);
    EndedAfter(w, w', id);
  }

  // ---- action by action ----

  lemma SubmitTally(w: World, j0: Job)
    requires Core(w) && Tally(w) && Enabled(w, Submit(j0))
    ensures Tally(Apply(w, Submit(j0)))
  {
    var w' := Apply(w, Submit(j0));
    var j, due := EnqueueEffect(w.m, j0, w.now);
    SubmitKeepsCore(w, j0);
    if j0.id in w.Jobs() {
      SameTally(w, w');
    } else {
      TallyAfter(w, w', j0.id, Outcome(0, 0, 0));
    }
  }

  lemma CancelTally(w: World, id: string)
    requires Core(w) && Tally(w)
    ensures Tally(Apply(w, Cancel(id)))
  {
    var w' := Apply(w, Cancel(id));
    CancelEffect(w, id);
    CancelKeepsCore(w, id);
    if id in w.Jobs() && !w.Jobs()[id].IsTerminal() {
      SameTallyMoved(w, w', id);
    }
  }

  lemma FetcherTally(w: World, a: Action)
    requires Core(w) && Tally(w) && Enabled(w, a) && (a.Fetch? || a.Send? || a.GiveBack? || a.Take?)
    ensures Tally(Apply(w, a))
  {
    var w' := Apply(w, a);
    match a
    case Fetch(draw) =>
      var q, k := FetchEffect(w, draw);
      var id := FetchKeepsCore(w, draw);
      if w'.hand.Some? {
        TallyAfter(w, w', id, Outcome(0, 0, 0));
      }
    case Send =>
      SendKeepsCore(w);
      SameTallyMoved(w, w', w.hand.value.id);
    case GiveBack =>
      GiveBackKeepsCore(w);
      SameTallyMoved(w, w', w.hand.value.id);
    case Take(i) =>
      TakeKeepsCore(w, i);
      SameTallyMoved(w, w', w.ch[0].id);
  }

  lemma SameTallyMoved(w: World, w': World, id: string)
    requires Tally(w) && Focus(w, w', id) && Placed(w, id)
    requires id in w.Jobs() && id in w'.Jobs() && w'.traces == w.traces
    requires Placed(w', id) || w'.Jobs()[id].status == Cancelled
    requires w'.m.store == w.m.store.(jobs := w'.Jobs(), queues := w'.m.store.queues) && w'.pool == w.pool
    ensures Tally(w')
  {
    TallyAfter(w, w', id, Outcome(0, 0, 0));
  }

  lemma QuietTally(w: World, a: Action)
    requires Core(w) && Tally(w) && Enabled(w, a) && Quiet(a)
    ensures Tally(Apply(w, a))
  {
    QuietKeepsCore(w, a);
    QuietCounters(w, a);
    SameTally(w, Apply(w, a));
  }

  lemma QuietCounters(w: World, a: Action)
    requires Enabled(w, a) && Quiet(a)
    ensures SameCounters(w, Apply(w, a))
  {
  }

  lemma StartTally(w: World, i: nat)
    requires Core(w) && Tally(w) && Enabled(w, Start(i))
    ensures Tally(Apply(w, Start(i)))
  {
    var w' := Apply(w, Start(i));
    TakenFacts(w, i);
    StartEffect(w, i);
    StartKeepsCore(w, i);
    TallyAfter(w, w', w.slots[i].job.id, Outcome(0, 0, 0));
  }

  lemma SucceedTally(w: World, i: nat)
    requires Core(w) && Tally(w) && Enabled(w, Succeed(i))
    ensures Tally(Apply(w, Succeed(i)))
  {
    var w' := Apply(w, Succeed(i));
    HandledFacts(w, i);
    SucceedEffect(w, i);
    SucceedKeepsCore(w, i);
    TallyAfter(w, w', w.slots[i].job.id, Outcome(1, 0, 0));
  }

  /** What a failure does to the counters. */
  lemma FailCounters(w: World, i: nat, msg: string)
    requires Seated(w) && Enabled(w, Fail(i, msg))
    requires var j := w.slots[i].job;
      j.id in w.Jobs() && j.id in w.traces && j.queue in w.m.configs
    ensures var w' := Apply(w, Fail(i, msg));
      var j := w.slots[i].job;
      var again := if j.CanRetry() then 1 else 0;
      && w'.m.store.created == w.m.store.created && w'.m.store.completed == w.m.store.completed
      && w'.m.store.failed == w.m.store.failed + 1 - again
      && w'.m.store.retried == w.m.store.retried + again
      && Counts(w').processed == Counts(w).processed && Counts(w').failed == Counts(w).failed + 1
      && j.id in w'.Jobs() && j.id in w'.traces
      && |w'.traces[j.id].failures| == |w.traces[j.id].failures| + 1
  {
    var j := w.slots[i].job;
    if j.CanRetry() {
      RetryEffect(w.m, j, msg, w.now, w.pool.id);
    } else {
      GiveUpEffect(w.m, j, msg, w.now, w.pool.id);
    }
  }

  lemma FailTally(w: World, i: nat, msg: string)
    requires Core(w) && Tally(w) && Enabled(w, Fail(i, msg))
    ensures Tally(Apply(w, Fail(i, msg)))
  {
    HandledFacts(w, i);
    FailCounters(w, i, msg);
    FailFocus(w, i, msg);
    FailedTally(w, Apply(w, Fail(i, msg)), w.slots[i].job);
  }

  lemma FailedTally(w: World, w': World, j: Job)
    requires Tally(w) && Placed(w, j.id) && j.id in w.Jobs() && j.id in w.traces
    requires Focus(w, w', j.id) && j.id in w'.Jobs() && j.id in w'.traces
    requires j.CanRetry() ==> Placed(w', j.id)
    requires !j.CanRetry() ==> !Placed(w', j.id) && w'.Jobs()[j.id].status == Failed
    requires var again := if j.CanRetry() then 1 else 0;
      && w'.m.store.created == w.m.store.created && w'.m.store.completed == w.m.store.completed
      && w'.m.store.failed == w.m.store.failed + 1 - again
      && w'.m.store.retried == w.m.store.retried + again
      && Counts(w').processed == Counts(w).processed && Counts(w').failed == Counts(w).failed + 1
      && |w'.traces[j.id].failures| == |w.traces[j.id].failures| + 1
    ensures Tally(w')
  {
    TallyAfter(w, w', j.id, if j.CanRetry() then Outcome(0, 0, 1) else Outcome(0, 1, 0));
  }

  lemma FailFocus(w: World, i: nat, msg: string)
    requires Core(w) && Enabled(w, Fail(i, msg))
    ensures var j := w.slots[i].job;
      var w' := Apply(w, Fail(i, msg));
      && Focus(w, w', j.id)
      && (j.CanRetry() ==> Placed(w', j.id))
      && (!j.CanRetry() ==> !Placed(w', j.id) && j.id in w'.Jobs() && w'.Jobs()[j.id].status == Failed)
  {
    if w.slots[i].job.CanRetry() {
      RetryKeepsCore(w, i, msg);
    } else {
      GiveUpKeepsCore(w, i, msg);
    }
  }

  lemma StepTally(w: World, a: Action)
    requires Core(w) && Tally(w) && Enabled(w, a)
    ensures Tally(Apply(w, a))
  {
    match a
    case Submit(j) => SubmitTally(w, j);
    case Cancel(id) => CancelTally(w, id);
    case Fetch(_) => FetcherTally(w, a);
    case Send => FetcherTally(w, a);
    case GiveBack => FetcherTally(w, a);
    case Take(_) => FetcherTally(w, a);
    case Start(i) => StartTally(w, i);
    case Succeed(i) => SucceedTally(w, i);
    case Fail(i, msg) => FailTally(w, i, msg);
    case _ => QuietTally(w, a);
  }

  lemma {:induction false} RunTally(w: World, acts: seq<Action>)
    requires Core(w) && Tally(w) && Runnable(w, acts)
    ensures Core(Exec(w, acts)) && Tally(Exec(w, acts))
    decreases |acts|
  {
    if acts != [] {
      StepTally(w, acts[0]);
      var id := StepKeepsCore(w, acts[0]);
      RunTally(Apply(w, acts[0]), acts[1..]);
    }
  }

  /** Every created job completed, failed for good, was cancelled while waiting, or is still in
      play; every ended attempt is in exactly one of the three outcome counters; and of the worker's two
      counts one is the completions, the other the failures and retries together. */
  lemma CountersConserved(w: World)
    requires Reachable(w)
    ensures w.m.store.created
         == w.m.store.completed + w.m.store.failed + |Resting(w, Cancelled)| + |InPlay(w)|
    ensures w.m.store.completed + w.m.store.failed + w.m.store.retried == EndedAttempts(w)
    ensures w.pool.id in w.m.store.workers
    ensures w.m.store.workers[w.pool.id].processed == w.m.store.completed
    ensures w.m.store.workers[w.pool.id].failed == w.m.store.failed + w.m.store.retried
  {
    var pool, now, acts :| Runnable(Initial(pool, now), acts) && Exec(Initial(pool, now), acts) == w;
    var w0 := Initial(pool, now);
    InitialCore(pool, now);
    assert Resting(w0, Success) == {} && Resting(w0, Failed) == {};
    RunTally(w0, acts);
    RestedStatus(w);
    Partition(w);
  }

  lemma RestedStatus(w: World)
    requires Core(w)
    ensures forall id :: id in w.Jobs() && !Placed(w, id) ==>
      w.Jobs()[id].status in {Success, Failed, Cancelled}
  {
    forall id | id in w.Jobs() && !Placed(w, id)
      ensures w.Jobs()[id].status in {Success, Failed, Cancelled}
    {
      assert JobFine(w, id);
    }
  }

  lemma Partition(w: World)
    requires forall id :: id in w.Jobs() && !Placed(w, id) ==>
      w.Jobs()[id].status in {Success, Failed, Cancelled}
    ensures |w.Jobs().Keys|
         == |Resting(w, Success)| + |Resting(w, Failed)| + |Resting(w, Cancelled)| + |InPlay(w)|
  {
    var a, b, c, d := Resting(w, Success), Resting(w, Failed), Resting(w, Cancelled), InPlay(w);
    assert w.Jobs().Keys == a + b + c + d;
    assert a !! b && (a + b) !! c && (a + b + c) !! d;
  }
}
