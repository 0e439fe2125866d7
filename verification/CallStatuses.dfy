/** The status under which a job is stored while a worker has it, under every interleaving of storage
    calls. */
module CallStatuses {
  import opened Jobs
  import opened MemoryStorage
  import opened CallInterleaving
  import opened CallOutcomes

  /** While the handler runs and until its failure is judged the job is stored as RUNNING, and as RETRYING
      until the copy is written back, unless a caller of CancelJob marked it meanwhile. */
  predicate Stored(s: Calls, task: Task) {
    match task
    case Handling(_, j) => j.id in s.store.jobs && s.store.jobs[j.id].status in {Running, Cancelled}
    case Failing(_, j) => j.id in s.store.jobs && s.store.jobs[j.id].status in {Running, Cancelled}
    case Resaving(_, j, _) => j.id in s.store.jobs && s.store.jobs[j.id].status in {Retrying, Cancelled}
    case _ => true
  }

  ghost predicate AllStored(s: Calls) {
    forall t :: t in s.tasks ==> Stored(s, s.tasks[t])
  }

  /** A call of another goroutine leaves the status or cancels. */
  lemma OtherStored(s: Calls, t: nat, c: Choice, u: nat)
    requires Safe(s) && t in s.tasks && u in s.tasks && u != t && Stored(s, s.tasks[u])
    ensures Stored(Step(s, t, c), s.tasks[u])
  {
    var k := s.tasks[u];
    if k.Handling? || k.Failing? || k.Resaving? {
      assert Owner(s, OfTask(u)) == Some(k.j.id);
      assert Owner(s, OfTask(t)) != Some(k.j.id);
      UnownedRecord(s, t, c, k.j.id);
    }
  }

  lemma StartStored(s: Calls, t: nat, p: string, j: Job)
    requires t in s.tasks
    ensures var s' := Start(s, t, p, j); t in s'.tasks && Stored(s', s'.tasks[t])
  {
  }

  lemma FailStored(s: Calls, t: nat, p: string, j: Job, c: Choice)
    requires t in s.tasks && j.id in s.store.jobs
    ensures var s' := Fail(s, t, p, j, c.config); t in s'.tasks && Stored(s', s'.tasks[t])
  {
  }

  lemma RunnerStored(s: Calls, t: nat, c: Choice)
    requires t in s.tasks && Stored(s, s.tasks[t]) && (Runner(s.tasks[t]) || Winner(s.tasks[t])) && !s.tasks[t].Received?
    ensures t in Step(s, t, c).tasks && Stored(Step(s, t, c), Step(s, t, c).tasks[t])
  {
  }

  lemma RetrierStored(s: Calls, t: nat, c: Choice)
    requires t in s.tasks && Stored(s, s.tasks[t]) && Failer(s.tasks[t]) && !s.tasks[t].Failing?
    ensures t in Step(s, t, c).tasks && Stored(Step(s, t, c), Step(s, t, c).tasks[t])
  {
  }

  lemma FetcherStored(s: Calls, t: nat, c: Choice)
    requires t in s.tasks && (Fetcher(s.tasks[t]) || Canceller(s.tasks[t]))
    ensures t in Step(s, t, c).tasks && Stored(Step(s, t, c), Step(s, t, c).tasks[t])
  {
  }

  lemma SubmitterStored(s: Calls, t: nat, c: Choice)
    requires t in s.tasks && Submitter(s.tasks[t])
    ensures t in Step(s, t, c).tasks && Stored(Step(s, t, c), Step(s, t, c).tasks[t])
  {
  }

  lemma LoserStored(s: Calls, t: nat, c: Choice)
    requires t in s.tasks && (Burier(s.tasks[t]) || Loser(s.tasks[t]))
    ensures t in Step(s, t, c).tasks && Stored(Step(s, t, c), Step(s, t, c).tasks[t])
  {
  }

  lemma CallerStored(s: Calls, t: nat, c: Choice)
    requires Safe(s) && t in s.tasks && Stored(s, s.tasks[t])
    ensures t in Step(s, t, c).tasks && Stored(Step(s, t, c), Step(s, t, c).tasks[t])
  {
    var k := s.tasks[t];
    if k.Received? {
      StartStored(s.(now := c.now), t, k.p, k.j);
    } else if k.Failing? {
      FailStored(s.(now := c.now), t, k.p, k.j, c);
    } else if Runner(k) || Winner(k) {
      RunnerStored(s, t, c);
    } else if Failer(k) {
      RetrierStored(s, t, c);
    } else if Fetcher(k) || Canceller(k) {
      FetcherStored(s, t, c);
    } else if Submitter(k) {
      SubmitterStored(s, t, c);
    } else {
      LoserStored(s, t, c);
    }
  }

  lemma EventStored(s: Calls, e: Event)
    requires Safe(s) && Possible(s, e) && AllStored(s)
    ensures AllStored(Next(s, e))
  {
    if e.Call? {
      CallOwnTask(s, e.t, e.choice);
      CallerStored(s, e.t, e.choice);
      forall u | u in s.tasks && u != e.t
        ensures Stored(Step(s, e.t, e.choice), s.tasks[u])
      {
        OtherStored(s, e.t, e.choice, u);
      }
    }
  }

  lemma {:induction false} StatusesKept(s: Calls, events: seq<Event>, s': Calls)
    requires Safe(s) && AllStored(s) && Happens(s, events, s')
    ensures AllStored(s')
    decreases |events|
  {
    if events != [] {
      EventStored(s, events[0]);
      EventKeepsSafe(s, events[0]);
      StatusesKept(Next(s, events[0]), events[1..], s');
    }
  }

  /** In every run from the empty system. */
  lemma StatusesOfCalls(events: seq<Event>, s: Calls)
    requires Happens(START, events, s)
    ensures AllStored(s)
  {
    StartSafe();
    StatusesKept(START, events, s);
  }
}
