/** Runs of single storage calls, from the empty system, that lose a job, replace a recorded outcome,
    and leave a cancelled job to be executed. */
module CallRaces {
  import opened Jobs
  import opened MemoryStorage
  import opened QueueManager
  import opened CallInterleaving
  import opened CallOutcomes
  import A = CallAttempts
  import C = CallCancellation

  const VICTIM := Job("x", "q", 0, Pending, 1, 0, 0, "", 0, None, None)
  const YES := Choice("q", true, Some(DefaultConfig("q")), 0)
  const NO := Choice("q", false, Some(DefaultConfig("q")), 0)

  /** The clock stands at zero, no queue is paused and no pool stopped. */
  predicate Still(s: Calls) {
    s.now == 0 && s.store.paused == map[] && s.stopped == {}
  }

  lemma Then(s0: Calls, events: seq<Event>, s: Calls, e: Event) returns (events': seq<Event>, s': Calls)
    requires Happens(s0, events, s) && Possible(s, e)
    ensures Happens(s0, events', s') && s' == Next(s, e)
  {
    HappensThen(s0, events, s, e);
    events', s' := events + [e], Next(s, e);
  }

  lemma ReachCreated() returns (events: seq<Event>, s: Calls)
    ensures Happens(START, events, s) && Still(s)
    ensures s.tasks == map[0 := Created(VICTIM)] && s.channels == map[]
    ensures s.store.jobs == map["x" := VICTIM] && s.store.Entries("q") == []
  {
    events, s := [], START;
    events, s := Then(START, events, s, Begin(0, Submitting(VICTIM)));
    events, s := Then(START, events, s, Call(0, YES));
    assert s.tasks == map[0 := Creating(VICTIM)];
    events, s := Then(START, events, s, Call(0, YES));
  }

  /** The job waits, and task 1 is about to cancel it. */
  predicate Waits(s: Calls) {
    && Still(s) && s.tasks == map[0 := Counting, 1 := Cancelling(VICTIM)] && s.channels == map[]
    && "x" in s.store.jobs && s.store.jobs["x"] == VICTIM && s.store.Entries("q") == [Entry("x", 0, 0)]
  }

  lemma ReachQueued() returns (events: seq<Event>, s: Calls)
    ensures Happens(START, events, s) && Still(s)
    ensures s.tasks == map[0 := Counting] && s.channels == map[]
    ensures s.store.jobs == map["x" := VICTIM] && s.store.Entries("q") == [Entry("x", 0, 0)]
  {
    events, s := ReachCreated();
    events, s := Then(START, events, s, Call(0, YES));
  }

  lemma ReachWaits() returns (events: seq<Event>, s: Calls)
    ensures Happens(START, events, s) && Waits(s)
  {
    events, s := ReachQueued();
    events, s := Then(START, events, s, Begin(1, Reading("x")));
    events, s := Then(START, events, s, Call(1, YES));
  }

  /** A fetcher took the entry. */
  predicate Fetched(s: Calls) {
    && Still(s) && s.tasks == map[0 := Counting, 1 := Cancelling(VICTIM), 2 := Dequeued("p", "x")]
    && s.channels == map[] && "x" in s.store.jobs && s.store.jobs["x"] == VICTIM && s.store.Entries("q") == []
  }

  /** A poll of a queue with one due entry takes it. */
  lemma PollTakesOnly(s: Calls, t: nat, e: Entry)
    requires t in s.tasks && s.tasks[t] == Polling("p") && Still(s)
    requires s.store.Entries("q") == [e] && e.timestamp <= 0
    ensures var s' := Step(s, t, YES);
      && Still(s') && s'.tasks == s.tasks[t := Dequeued("p", e.jobId)] && s'.store.Entries("q") == []
      && s'.store.jobs == s.store.jobs && s'.channels == s.channels
  {
    assert Due(s.store.Entries("q")[0], 0);
    assert BestIndex(s.store.Entries("q"), 0) == 0;
    assert RemoveAt([e], 0) == [];
  }

  lemma ReachFetched() returns (events: seq<Event>, s: Calls)
    ensures Happens(START, events, s) && Fetched(s)
  {
    events, s := ReachWaits();
    events, s := Then(START, events, s, Begin(2, Polling("p")));
    PollTakesOnly(s, 2, Entry("x", 0, 0));
    events, s := Then(START, events, s, Call(2, YES));
  }

  lemma ReachMarked() returns (events: seq<Event>, s: Calls)
    ensures Happens(START, events, s) && s.now == 0
    ensures 1 in s.tasks && s.tasks[1] == Marked(VICTIM) && 2 in s.tasks && s.tasks[2] == Dequeued("p", "x")
    ensures "x" in s.store.jobs && s.store.jobs["x"].status == Cancelled && s.store.Entries("q") == []
  {
    events, s := ReachFetched();
    events, s := Then(START, events, s, Call(1, YES));
  }

  /** A canceller that read the job while it waited, and marks it after a fetcher took the entry, does
      not keep it from being executed. */
  lemma CancelledYetExecuted() returns (events: seq<Event>, s: Calls)
    ensures Happens(START, events, s)
    ensures 1 in s.tasks && s.tasks[1].Gone? && "x" in s.store.jobs && s.store.jobs["x"].status == Cancelled
    ensures C.CanStart(s, "x")
  {
    events, s := ReachMarked();
    A.StartFit();
    A.RunKeepsFit(START, events, s);
    assert C.Startable(s, OfTask(2), "x");
    C.RemoveStopsIff(s, 1, YES);
    events, s := Then(START, events, s, Call(1, YES));
  }

  /** In the channel of pool "p". */
  predicate InChannel(s: Calls) {
    && Still(s) && s.tasks == map[0 := Counting, 1 := Cancelling(VICTIM), 2 := Polling("p")]
    && s.channels == map["p" := [VICTIM]] && "x" in s.store.jobs && s.store.jobs["x"] == VICTIM
    && s.store.Entries("q") == []
  }

  lemma ReachChannel() returns (events: seq<Event>, s: Calls)
    ensures Happens(START, events, s) && InChannel(s)
  {
    events, s := ReachFetched();
    events, s := Then(START, events, s, Call(2, YES));
    assert s.tasks[2] == Carrying("p", VICTIM) && s.Channel("p") == [];
    assert [] + [VICTIM] == [VICTIM];
    events, s := Then(START, events, s, Call(2, YES));
  }

  /** Pool "p" is stopped, and its only worker left without looking into the channel. */
  predicate Left(s: Calls) {
    && s.tasks == map[0 := Counting, 1 := Cancelling(VICTIM), 2 := Polling("p"), 3 := Gone] && "p" in s.stopped
    && s.channels == map["p" := [VICTIM]] && "x" in s.store.jobs && s.store.jobs["x"] == VICTIM
  }

  lemma ReachLeft() returns (events: seq<Event>, s: Calls)
    ensures Happens(START, events, s) && Left(s)
  {
    events, s := ReachChannel();
    events, s := Then(START, events, s, Begin(3, Waiting("p")));
    events, s := Then(START, events, s, StopPool("p"));
    events, s := Then(START, events, s, Exit(3));
  }

  /** A run after which a PENDING job lies in the channel of a stopped pool and no continuation executes
      it. */
  lemma StrandingIsReachable() returns (events: seq<Event>, s: Calls)
    ensures Happens(START, events, s) && Unfinished(s, "x") && s.store.jobs["x"].status == Pending
    ensures s.Channel("p") == [VICTIM] && !C.CanStart(s, "x")
  {
    events, s := ReachLeft();
    StartSafe();
    SingleOwnershipOfCalls(START, events, s);
    LeftBehind(s);
  }

  lemma LeftBehind(s: Calls)
    requires Safe(s) && Left(s)
    ensures !C.CanStart(s, "x")
  {
    NobodyWorks(s);
    assert Owner(s, OfChannel("p", 0)) == Some("x");
    OnlyOwner(s, OfChannel("p", 0), "x");
    C.CanStartIff(s, "x");
  }

  lemma NobodyWorks(s: Calls)
    requires "p" in s.stopped
    requires s.tasks == map[0 := Counting, 1 := Cancelling(VICTIM), 2 := Polling("p"), 3 := Gone]
    ensures !Live(s, "p")
  {
    forall t
      ensures !WorksFor(s, t, "p")
    {
      if t in s.tasks {
        assert t == 0 || t == 1 || t == 2 || t == 3;
      }
    }
  }

  /** In the hands of worker 3. */
  predicate InWorker(s: Calls, task: Task) {
    && Still(s) && 0 in s.tasks && 1 in s.tasks && s.tasks[1] == Cancelling(VICTIM)
    && 3 in s.tasks && s.tasks[3] == task && "x" in s.store.jobs && s.store.Entries("q") == []
  }

  lemma ReachReceived() returns (events: seq<Event>, s: Calls)
    ensures Happens(START, events, s) && InWorker(s, Received("p", VICTIM))
  {
    events, s := ReachChannel();
    events, s := Then(START, events, s, Begin(3, Waiting("p")));
    assert s.Channel("p") == [VICTIM];
    events, s := Then(START, events, s, Call(3, YES));
  }

  lemma ReachHandling() returns (events: seq<Event>, s: Calls)
    ensures Happens(START, events, s) && InWorker(s, Handling("p", VICTIM))
  {
    events, s := ReachReceived();
    events, s := Then(START, events, s, Call(3, YES));
  }

  /** A run in which a late cancellation replaces a recorded SUCCESS. */
  lemma OverwriteIsReachable() returns (before: seq<Event>, s: Calls, s': Calls)
    ensures Happens(START, before, s) && Happens(s, [Call(1, YES)], s')
    ensures "x" in s.store.jobs && s.store.jobs["x"].status == Success
    ensures "x" in s'.store.jobs && s'.store.jobs["x"].status == Cancelled
  {
    var events, r := ReachHandling();
    before, s := Then(START, events, r, Call(3, YES));
    s' := Next(s, Call(1, YES));
    assert [Call(1, YES)][1..] == [];
  }

  lemma ReachFailing() returns (events: seq<Event>, s: Calls)
    ensures Happens(START, events, s) && InWorker(s, Failing("p", VICTIM))
  {
    events, s := ReachHandling();
    events, s := Then(START, events, s, Call(3, NO));
  }

  const RETRY := VICTIM.(retryCount := 1)

  /** The worker retries while the canceller, who read the job PENDING, has marked it. */
  predicate Racing(s: Calls) {
    && Still(s) && 1 in s.tasks && s.tasks[1] == Marked(VICTIM)
    && 3 in s.tasks && s.tasks[3].Resaving? && s.tasks[3].j == RETRY
    && "x" in s.store.jobs && s.store.Entries("q") == []
  }

  lemma ReachResaving() returns (events: seq<Event>, s: Calls)
    ensures Happens(START, events, s) && 3 in s.tasks && s.tasks[3].Resaving? && s.tasks[3].j == RETRY
    ensures InWorker(s, s.tasks[3])
  {
    events, s := ReachFailing();
    assert VICTIM.CanRetry();
    events, s := Then(START, events, s, Call(3, YES));
  }

  lemma ReachRacing() returns (events: seq<Event>, s: Calls)
    ensures Happens(START, events, s) && Racing(s)
  {
    events, s := ReachResaving();
    events, s := Then(START, events, s, Call(1, YES));
  }

  lemma ReachResaved() returns (events: seq<Event>, s: Calls)
    ensures Happens(START, events, s) && Still(s) && 1 in s.tasks && s.tasks[1] == Marked(VICTIM)
    ensures 3 in s.tasks && s.tasks[3].Requeueing? && s.tasks[3].j == RETRY
    ensures "x" in s.store.jobs && s.store.jobs["x"] == RETRY && s.store.Entries("q") == []
  {
    events, s := ReachRacing();
    events, s := Then(START, events, s, Call(3, YES));
  }

  lemma ReachBack() returns (events: seq<Event>, s: Calls)
    ensures Happens(START, events, s) && Still(s) && 1 in s.tasks && s.tasks[1] == Marked(VICTIM)
    ensures "x" in s.store.jobs && s.store.jobs["x"] == RETRY
    ensures |s.store.Entries("q")| == 1 && s.store.Entries("q")[0].jobId == "x"
  {
    events, s := ReachResaved();
    events, s := Then(START, events, s, Call(3, YES));
  }

  /** A run that ends with a job stored PENDING while nothing anywhere stands for it. */
  lemma LossIsReachable() returns (events: seq<Event>, s: Calls)
    ensures Happens(START, events, s)
    ensures Unfinished(s, "x") && s.store.jobs["x"].status == Pending && !HasOwner(s, "x")
  {
    events, s := ReachBack();
    StartSafe();
    SingleOwnershipOfCalls(START, events, s);
    assert Owner(s, OfQueue("q", 0)) == Some("x");
    assert Releases(s, 1, YES) == Some("x");
    CallReleasesIff(s, 1, YES, "x");
    events, s := Then(START, events, s, Call(1, YES));
  }
}
