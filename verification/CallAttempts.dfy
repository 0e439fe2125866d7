/** Attempts under every interleaving of storage calls, by any number of pools: bounded by the retries,
    spaced by the back-off, and never a dead letter. */
module CallAttempts {
  import opened Jobs
  import opened Backoff
  import opened MemoryStorage
  import opened QueueManager
  import opened CallInterleaving
  import CallOutcomes
  import P = PoolProtocol
  import I = ProtocolInvariant
  import G = ProtocolGuarantees

  // ---- what holds of a job and of what stands for it ----

  /** The last failure found a configuration, and its delay is over at `time`. */
  predicate Elapsed(t: P.Trace, time: int) {
    (t.failures != [] ==> t.failures[|t.failures| - 1].config.Some?) && I.DelayElapsed(t, time)
  }

  predicate Rested(j: Job, t: P.Trace, time: int) {
    I.BetweenAttempts(j, t) && Elapsed(t, time)
  }

  /** A retry under way, to be entered again behind `delay`. */
  predicate Delayed(j: Job, t: P.Trace, delay: int, now: int) {
    && I.BetweenAttempts(j, t) && t.failures != []
    && var k := |t.failures| - 1;
       t.failures[k].config.Some? && delay == I.Delay(t, k) && t.failures[k].at <= now
  }

  /** As in one pool, but for failures without a configuration, which nothing follows. */
  ghost predicate Spaced(t: P.Trace) {
    && |t.failures| <= |t.starts| <= |t.failures| + 1
    && (forall k :: 0 <= k < |t.failures| ==> t.starts[k] <= t.failures[k].at)
    && (forall k :: 0 <= k < |t.failures| && k + 1 < |t.starts| ==>
          t.failures[k].config.Some? && t.starts[k + 1] >= t.failures[k].at + I.Delay(t, k))
  }

  /** Two records of a job that differ only in status, error, progress and dates. */
  predicate Same(a: Job, b: Job) {
    a.id == b.id && a.queue == b.queue && a.priority == b.priority
    && a.maxRetries == b.maxRetries && a.retryCount == b.retryCount
  }

  predicate TendedOk(task: Task, r: Job, t: P.Trace, now: int) {
    match task
    case Created(j) => Same(j, r) && Rested(r, t, now)
    case Dequeued(_, _) => Rested(r, t, now)
    case Carrying(_, j) => Same(j, r) && Rested(r, t, now)
    case Returning(_, j) => Same(j, r) && Rested(r, t, now)
    case Received(_, j) => Same(j, r) && Rested(r, t, now)
    case Handling(_, j) => Same(j, r) && I.InAttempt(r, t, now)
    case Failing(_, j) => Same(j, r) && I.InAttempt(r, t, now)
    case Resaving(_, j, delay) =>
      Same(j, r.(retryCount := r.retryCount + 1)) && Delayed(j, t, delay, now) && j.retryCount <= j.maxRetries
    case Requeueing(_, j, delay) => Same(j, r) && Delayed(r, t, delay, now)
    case _ => false
  }

  predicate HeldOk(s: Calls, x: Spot, h: Held)
    requires h.Id().Some? && h.Id().value in s.store.jobs && h.Id().value in s.traces
  {
    var r, t := s.store.jobs[h.Id().value], s.traces[h.Id().value];
    match h
    case Entered(e) => x.OfQueue? && x.q == r.queue && e.priority == r.priority && Rested(r, t, e.timestamp)
    case Sent(j) => Same(j, r) && Rested(r, t, s.now)
    case Tended(task) => TendedOk(task, r, t, s.now)
  }

  ghost predicate JobOk(r: Job, t: P.Trace) {
    && t.base <= r.retryCount && (t.base < r.retryCount ==> r.retryCount <= r.maxRetries)
    && |t.starts| <= r.retryCount - t.base + 1
    && Spaced(t)
  }

  /** A canceller's copy names the queue of the record; a dead letter carries the ID of a record. */
  predicate TaskOk(s: Calls, task: Task) {
    match task
    case Cancelling(j) => j.id in s.store.jobs && s.store.jobs[j.id].queue == j.queue
    case Marked(j) => j.id in s.store.jobs && s.store.jobs[j.id].queue == j.queue
    case Condemned(_, j) => j.id in s.store.jobs
    case Judging(_, j) => j.id in s.store.jobs
    case Burying(_, j) => j.id in s.store.jobs
    case Interring(_, j) => j.id in s.store.jobs
    case Buried(_, _) => false
    case Mourning(_) => false
    case _ => true
  }

  ghost predicate SpotOk(s: Calls, x: Spot) {
    At(s, x).Some? ==>
      var id := At(s, x).value.Id();
      id.Some? && id.value in s.store.jobs && id.value in s.traces && HeldOk(s, x, At(s, x).value)
  }

  ghost predicate JobFine(s: Calls, id: string) {
    id in s.store.jobs && id in s.traces ==> JobOk(s.store.jobs[id], s.traces[id])
  }

  ghost predicate Fit(s: Calls) {
    && Safe(s)
    && (forall x :: SpotOk(s, x))
    && (forall id :: JobFine(s, id))
    && (forall t :: t in s.tasks ==> TaskOk(s, s.tasks[t]))
  }

  // ---- other jobs ----

  lemma SpotStays(s: Calls, s': Calls, x: Spot, y: Spot)
    requires SpotOk(s, x) && At(s, x).Some? && At(s', y) == At(s, x) && s.now <= s'.now
    requires x.OfQueue? ==> y.OfQueue? && y.q == x.q
    requires var id := At(s, x).value.Id().value;
      && id in s'.store.jobs && id in s'.traces
      && Same(s.store.jobs[id], s'.store.jobs[id]) && s'.traces[id] == s.traces[id]
    ensures SpotOk(s', y)
  {
  }

  /** A call leaves the facts of every job alone that its goroutine does not own. */
  lemma ForeignWrite(s: Calls, t: nat, c: Choice, id: string)
    requires Safe(s) && t in s.tasks && id in s.store.jobs && Owned(s.tasks[t]) != Some(id)
    ensures id in s.traces && id in Step(s, t, c).store.jobs && id in Step(s, t, c).traces
    ensures Same(s.store.jobs[id], Step(s, t, c).store.jobs[id]) && Step(s, t, c).traces[id] == s.traces[id]
  {
    CallRecords(s, t, c);
    if Subject(s.tasks[t]) == Some(id) {
      var k := s.tasks[t];
      assert k.Creating? || k.Interring? || k.Cancelling? || k.Succeeded?;
      if k.Creating? || k.Interring? {
        RefusedWrite(s, t, c);
      } else {
        StatusWrite(s, t, c);
      }
    }
  }

  lemma RefusedWrite(s: Calls, t: nat, c: Choice)
    requires t in s.tasks && (s.tasks[t].Creating? || s.tasks[t].Interring?) && s.tasks[t].j.id in s.store.jobs
    ensures Step(s, t, c).store == s.store && Step(s, t, c).traces == s.traces
  {
  }

  lemma StatusWrite(s: Calls, t: nat, c: Choice)
    requires t in s.tasks && (s.tasks[t].Cancelling? || s.tasks[t].Succeeded?) && s.tasks[t].j.id in s.store.jobs
    ensures var id := s.tasks[t].j.id;
      && id in Step(s, t, c).store.jobs && Step(s, t, c).traces == s.traces
      && Same(s.store.jobs[id], Step(s, t, c).store.jobs[id])
  {
  }

  // ---- the goroutine's own job ----

  /** Where a call leaves the job of its goroutine, if anywhere, that job is as it should be. */
  ghost predicate OwnFine(s': Calls, id: string) {
    && JobFine(s', id)
    && (forall y :: Owner(s', y) == Some(id) ==> SpotOk(s', y))
  }

  lemma OwnAt(s': Calls, id: string, y: Spot)
    requires OwnedOnce(s') && Owner(s', y) == Some(id) && SpotOk(s', y) && JobFine(s', id)
    ensures OwnFine(s', id)
  {
  }

  lemma OwnNowhere(s': Calls, id: string)
    requires !CallOutcomes.HasOwner(s', id) && JobFine(s', id)
    ensures OwnFine(s', id)
  {
  }

  /** The end of a queue after an append. */
  lemma AppendedAt(s: Calls, t: nat, j: Job, due: int, next: Task)
    requires t in s.tasks && j.id in s.store.jobs && j.id in s.traces
    requires Same(j, s.store.jobs[j.id]) && Rested(s.store.jobs[j.id], s.traces[j.id], due)
    ensures var s', y := Append(s, t, j, due, next), OfQueue(j.queue, |s.store.Entries(j.queue)|);
      Owner(s', y) == Some(j.id) && SpotOk(s', y)
  {
    var s', y := Append(s, t, j, due, next), OfQueue(j.queue, |s.store.Entries(j.queue)|);
    assert At(s', y) == Some(Entered(Entry(j.id, j.priority, due)));
  }

  lemma DelayKept(t: P.Trace, t': P.Trace)
    requires t'.base == t.base && |t.failures| <= |t'.failures| && t'.failures[..|t.failures|] == t.failures
    ensures forall k :: 0 <= k < |t.failures| ==> I.Delay(t', k) == I.Delay(t, k)
  {
    assert forall k :: 0 <= k < |t.failures| ==> t'.failures[k] == t'.failures[..|t.failures|][k];
  }

  lemma StartedTrace(r: Job, t: P.Trace, now: int)
    requires JobOk(r, t) && Rested(r, t, now)
    ensures var t' := t.(starts := t.starts + [now]); JobOk(r, t') && I.InAttempt(r, t', now)
  {
    DelayKept(t, t.(starts := t.starts + [now]));
  }

  lemma FailedTrace(r: Job, t: P.Trace, now: int, config: Option<QueueConfig>)
    requires JobOk(r, t) && I.InAttempt(r, t, now)
    ensures var t' := t.(failures := t.failures + [P.Failure(now, config)]);
      && JobOk(r, t') && |t'.starts| == |t'.failures|
      && (config.Some? && r.retryCount < r.maxRetries ==>
            var r' := r.(retryCount := r.retryCount + 1);
            JobOk(r', t') && Delayed(r', t', CalculateRetryDelay(r'.retryCount, config.value), now))
  {
    var t' := t.(failures := t.failures + [P.Failure(now, config)]);
    DelayKept(t, t');
  }

  lemma ElapsedLater(t: P.Trace, time: int, later: int)
    requires Elapsed(t, time) && time <= later
    ensures Elapsed(t, later)
  {
  }

  /** What Fit says of the job that a goroutine owns. */
  ghost predicate Owns(s: Calls, t: nat, id: string) {
    && t in s.tasks && Owned(s.tasks[t]) == Some(id)
    && id in s.store.jobs && id in s.traces && s.store.jobs[id].id == id
    && TendedOk(s.tasks[t], s.store.jobs[id], s.traces[id], s.now)
    && JobOk(s.store.jobs[id], s.traces[id])
  }

  lemma OwnsFromFit(s: Calls, t: nat)
    requires Fit(s) && t in s.tasks && Owned(s.tasks[t]).Some?
    ensures Owns(s, t, Owned(s.tasks[t]).value)
  {
    assert SpotOk(s, OfTask(t));
    assert JobFine(s, Owned(s.tasks[t]).value);
  }

  /** Created, Returning and Requeueing append an entry that is not due too early. */
  lemma EntersFine(s: Calls, t: nat, c: Choice, id: string)
    requires Owns(s, t, id) && s.now <= c.now && OwnedOnce(Step(s, t, c))
    requires s.tasks[t].Created? || s.tasks[t].Returning? || s.tasks[t].Requeueing?
    ensures OwnFine(Step(s, t, c), id)
  {
    var r, k := s.(now := c.now), s.tasks[t];
    var due := if k.Created? then DueAt(k.j, c.now) else if k.Returning? then c.now else c.now + k.delay;
    var next := if k.Created? then Counting else if k.Returning? then Polling(k.p) else Repeating(k.p);
    assert Step(s, t, c) == Append(r, t, k.j, due, next);
    AppendedAt(r, t, k.j, due, next);
    OwnAt(Step(s, t, c), id, OfQueue(k.j.queue, |s.store.Entries(k.j.queue)|));
  }

  /** The goroutine keeps the job. */
  lemma KeptFine(s: Calls, s': Calls, t: nat, id: string)
    requires OwnedOnce(s') && t in s'.tasks && Owned(s'.tasks[t]) == Some(id)
    requires id in s'.store.jobs && id in s'.traces
    requires TendedOk(s'.tasks[t], s'.store.jobs[id], s'.traces[id], s'.now)
    requires JobOk(s'.store.jobs[id], s'.traces[id])
    ensures OwnFine(s', id)
  {
    assert At(s', OfTask(t)) == Some(Tended(s'.tasks[t]));
    OwnAt(s', id, OfTask(t));
  }

  lemma FetchedFine(s: Calls, t: nat, c: Choice, id: string)
    requires Owns(s, t, id) && s.now <= c.now && OwnedOnce(Step(s, t, c))
    requires s.tasks[t].Dequeued? || (s.tasks[t].Carrying? && !c.yes)
    ensures OwnFine(Step(s, t, c), id)
  {
    KeptFine(s, Step(s, t, c), t, id);
  }

  lemma SentFine(s: Calls, t: nat, c: Choice, id: string)
    requires Owns(s, t, id) && s.now <= c.now && OwnedOnce(Step(s, t, c))
    requires s.tasks[t].Carrying? && c.yes
    ensures OwnFine(Step(s, t, c), id)
  {
    var s', p := Step(s, t, c), s.tasks[t].p;
    var y := OfChannel(p, |s.Channel(p)|);
    assert At(s', y) == Some(Sent(s.tasks[t].j));
    OwnAt(s', id, y);
  }

  lemma StartFine(s: Calls, t: nat, c: Choice, id: string)
    requires Owns(s, t, id) && s.now <= c.now && OwnedOnce(Step(s, t, c)) && s.tasks[t].Received?
    ensures OwnFine(Step(s, t, c), id)
  {
    ElapsedLater(s.traces[id], s.now, c.now);
    StartedTrace(s.store.jobs[id], s.traces[id], c.now);
    SameJobOk(s.store.jobs[id], Step(s, t, c).store.jobs[id], Step(s, t, c).traces[id]);
    KeptFine(s, Step(s, t, c), t, id);
  }

  lemma SameJobOk(r: Job, r': Job, t: P.Trace)
    requires JobOk(r, t) && Same(r, r')
    ensures JobOk(r', t)
  {
  }

  lemma HandledFine(s: Calls, t: nat, c: Choice, id: string)
    requires Owns(s, t, id) && s.now <= c.now && OwnedOnce(Step(s, t, c)) && s.tasks[t].Handling?
    requires c.yes ==> !CallOutcomes.HasOwner(Step(s, t, c), id)
    ensures OwnFine(Step(s, t, c), id)
  {
    var s' := Step(s, t, c);
    SameJobOk(s.store.jobs[id], s'.store.jobs[id], s'.traces[id]);
    if c.yes {
      OwnNowhere(s', id);
    } else {
      KeptFine(s, s', t, id);
    }
  }

  lemma StatusKeepsSame(s: Store, id: string, status: Status, now: int)
    requires id in s.jobs
    ensures id in s.UpdateStatus(id, status, now).jobs
    ensures Same(s.jobs[id], s.UpdateStatus(id, status, now).jobs[id])
  {
  }

  lemma FailedRecord(s: Calls, t: nat, p: string, j: Job, config: Option<QueueConfig>)
    requires j.id in s.store.jobs
    ensures var s' := Fail(s, t, p, j, config);
      j.id in s'.store.jobs && Same(s.store.jobs[j.id], s'.store.jobs[j.id])
  {
    StatusKeepsSame(s.store, j.id, if j.CanRetry() then Retrying else Failed, s.now);
  }

  lemma FailedHistory(s: Calls, t: nat, p: string, j: Job, config: Option<QueueConfig>)
    requires j.id in s.traces
    ensures var s' := Fail(s, t, p, j, config);
      j.id in s'.traces
      && s'.traces[j.id] == s.traces[j.id].(failures := s.traces[j.id].failures + [P.Failure(s.now, config)])
  {
  }

  /** The history and the facts that a failed attempt leaves. */
  lemma FailedFacts(s: Calls, t: nat, p: string, j: Job, config: Option<QueueConfig>)
    requires j.id in s.store.jobs && j.id in s.traces && Same(j, s.store.jobs[j.id])
    requires JobOk(s.store.jobs[j.id], s.traces[j.id]) && I.InAttempt(s.store.jobs[j.id], s.traces[j.id], s.now)
    ensures var s' := Fail(s, t, p, j, config);
      && j.id in s'.store.jobs && j.id in s'.traces
      && Same(s.store.jobs[j.id], s'.store.jobs[j.id]) && JobOk(s'.store.jobs[j.id], s'.traces[j.id])
      && s'.traces[j.id] == s.traces[j.id].(failures := s.traces[j.id].failures + [P.Failure(s.now, config)])
  {
    FailedRecord(s, t, p, j, config);
    FailedHistory(s, t, p, j, config);
    FailedTrace(s.store.jobs[j.id], s.traces[j.id], s.now, config);
    SameJobOk(s.store.jobs[j.id], Fail(s, t, p, j, config).store.jobs[j.id], Fail(s, t, p, j, config).traces[j.id]);
  }

  lemma RetryTask(s: Calls, t: nat, p: string, j: Job, config: QueueConfig)
    requires j.CanRetry()
    ensures var s', j' := Fail(s, t, p, j, Some(config)), j.(retryCount := j.retryCount + 1);
      && t in s'.tasks && s'.now == s.now
      && s'.tasks[t] == Resaving(p, j', CalculateRetryDelay(j'.retryCount, config))
  {
  }

  lemma RetryFine(s: Calls, t: nat, p: string, j: Job, config: QueueConfig)
    requires j.id in s.store.jobs && j.id in s.traces && Same(j, s.store.jobs[j.id]) && j.CanRetry()
    requires JobOk(s.store.jobs[j.id], s.traces[j.id]) && I.InAttempt(s.store.jobs[j.id], s.traces[j.id], s.now)
    ensures var s' := Fail(s, t, p, j, Some(config));
      && t in s'.tasks && Owned(s'.tasks[t]) == Some(j.id) && j.id in s'.store.jobs && j.id in s'.traces
      && TendedOk(s'.tasks[t], s'.store.jobs[j.id], s'.traces[j.id], s'.now)
  {
    FailedTrace(s.store.jobs[j.id], s.traces[j.id], s.now, Some(config));
    FailedRecord(s, t, p, j, Some(config));
    FailedHistory(s, t, p, j, Some(config));
    RetryTask(s, t, p, j, config);
  }

  lemma FailFine(s: Calls, t: nat, c: Choice, id: string)
    requires Owns(s, t, id) && s.now <= c.now && OwnedOnce(Step(s, t, c)) && s.tasks[t].Failing?
    requires Releases(s, t, c).Some? ==> !CallOutcomes.HasOwner(Step(s, t, c), id)
    ensures OwnFine(Step(s, t, c), id)
  {
    var r, p, j := s.(now := c.now), s.tasks[t].p, s.tasks[t].j;
    FailedFacts(r, t, p, j, c.config);
    if Releases(s, t, c).Some? {
      OwnNowhere(Step(s, t, c), id);
    } else {
      RetryFine(r, t, p, j, c.config.value);
      KeptFine(s, Step(s, t, c), t, id);
    }
  }

  lemma ResavedFine(s: Calls, t: nat, c: Choice, id: string)
    requires Owns(s, t, id) && s.now <= c.now && OwnedOnce(Step(s, t, c)) && s.tasks[t].Resaving?
    ensures OwnFine(Step(s, t, c), id)
  {
    KeptFine(s, Step(s, t, c), t, id);
  }

  lemma OwnCall(s: Calls, t: nat, c: Choice)
    requires Fit(s) && t in s.tasks && s.now <= c.now && Owned(s.tasks[t]).Some?
    ensures OwnFine(Step(s, t, c), Owned(s.tasks[t]).value)
  {
    var k, id := s.tasks[t], Owned(s.tasks[t]).value;
    OwnsFromFit(s, t);
    CallKeepsSafe(s, t, c);
    assert Owner(s, OfTask(t)) == Some(id);
    CallOutcomes.CallReleasesIff(s, t, c, id);
    assert !k.Buried?;
    if k.Created? || k.Returning? || k.Requeueing? { EntersFine(s, t, c, id); }
    else if k.Dequeued? || (k.Carrying? && !c.yes) { FetchedFine(s, t, c, id); }
    else if k.Carrying? { SentFine(s, t, c, id); }
    else if k.Received? { StartFine(s, t, c, id); }
    else if k.Handling? { HandledFine(s, t, c, id); }
    else if k.Failing? { FailFine(s, t, c, id); }
    else { ResavedFine(s, t, c, id); }
  }

  // ---- a job taken into care ----

  lemma PollFine(s: Calls, t: nat, c: Choice)
    requires Fit(s) && t in s.tasks && s.now <= c.now && s.tasks[t].Polling?
    ensures SpotOk(Step(s, t, c), OfTask(t))
  {
    if s.store.CanServe(c.q, c.now) {
      var k := BestIndex(s.store.Entries(c.q), c.now);
      var e := s.store.Entries(c.q)[k];
      assert SpotOk(s, OfQueue(c.q, k)) && At(s, OfQueue(c.q, k)) == Some(Entered(e));
      ElapsedLater(s.traces[e.jobId], e.timestamp, c.now);
      assert Step(s, t, c).tasks[t] == Dequeued(s.tasks[t].p, e.jobId);
    }
  }

  lemma ReceiveFine(s: Calls, t: nat, c: Choice)
    requires Fit(s) && t in s.tasks && s.now <= c.now && s.tasks[t].Waiting?
    ensures SpotOk(Step(s, t, c), OfTask(t))
  {
    var p := s.tasks[t].p;
    if s.Channel(p) != [] {
      var j := s.Channel(p)[0];
      assert SpotOk(s, OfChannel(p, 0)) && At(s, OfChannel(p, 0)) == Some(Sent(j));
      ElapsedLater(s.traces[j.id], s.now, c.now);
      assert Step(s, t, c).tasks[t] == Received(p, j);
    }
  }

  lemma CreateFine(s: Calls, t: nat, c: Choice)
    requires t in s.tasks && s.tasks[t].Creating?
    ensures SpotOk(Step(s, t, c), OfTask(t))
    ensures s.tasks[t].j.id !in s.store.jobs ==> JobFine(Step(s, t, c), s.tasks[t].j.id)
  {
  }

  lemma OthersOwnNothing(s: Calls, t: nat, c: Choice)
    requires t in s.tasks && Owned(s.tasks[t]).None? && TaskOk(s, s.tasks[t])
    requires !s.tasks[t].Polling? && !s.tasks[t].Waiting? && !s.tasks[t].Creating?
    ensures t in Step(s, t, c).tasks && Owned(Step(s, t, c).tasks[t]).None?
  {
    CallOutcomes.CallOwnTask(s, t, c);
    var k := s.tasks[t];
    if Submitter(k) || Canceller(k) {
    } else if Burier(k) {
    } else {
      assert Winner(k) || Loser(k) || k.Repeating?;
    }
  }

  /** What a goroutine without a job comes to own is as it should be. */
  lemma TakenFine(s: Calls, t: nat, c: Choice)
    requires Fit(s) && t in s.tasks && s.now <= c.now && Owned(s.tasks[t]).None?
    ensures SpotOk(Step(s, t, c), OfTask(t))
  {
    if s.tasks[t].Polling? { PollFine(s, t, c); }
    else if s.tasks[t].Waiting? { ReceiveFine(s, t, c); }
    else if s.tasks[t].Creating? { CreateFine(s, t, c); }
    else { OthersOwnNothing(s, t, c); }
  }

  // ---- every event ----

  lemma SpotAfter(s: Calls, t: nat, c: Choice, f: Flow, y: Spot)
    requires Fit(s) && t in s.tasks && s.now <= c.now
    requires IsFlow(s, Step(s, t, c), t, f, Releases(s, t, c)) && At(Step(s, t, c), y).Some?
    requires Some(y) != f.to
    ensures Owner(Step(s, t, c), y) != Owned(s.tasks[t]) ==> SpotOk(Step(s, t, c), y)
  {
    var s', x := Step(s, t, c), From(f.gap, y);
    assert CameFrom(s, s', f, y);
    assert SpotOk(s, x);
    if Owner(s', y) != Owned(s.tasks[t]) {
      ForeignWrite(s, t, c, Owner(s, x).value);
      assert s'.now == c.now by { StepTime(s, t, c); }
      SpotStays(s, s', x, y);
    }
  }

  lemma StepTime(s: Calls, t: nat, c: Choice)
    requires t in s.tasks
    ensures Step(s, t, c).now == c.now
  {
    var k := s.tasks[t];
    if Submitter(k) || Burier(k) {
    } else if Canceller(k) || Fetcher(k) || Runner(k) {
    } else if Failer(k) {
    } else {
      assert Winner(k) || Loser(k);
    }
  }

  lemma ToIsOwn(s: Calls, s': Calls, t: nat, f: Flow, released: Option<string>)
    requires t in s.tasks && IsFlow(s, s', t, f, released) && f.to.Some?
    ensures if Owned(s.tasks[t]).Some? then Owner(s', f.to.value) == Owned(s.tasks[t]) else f.to == Some(OfTask(t))
  {
    assert Owned(s.tasks[t]).Some? ==> At(s, OfTask(t)) == Some(Tended(s.tasks[t]));
    assert WentOn(s, s', f, OfTask(t));
  }

  lemma SpotsAfter(s: Calls, t: nat, c: Choice, y: Spot)
    requires Fit(s) && t in s.tasks && s.now <= c.now
    ensures SpotOk(Step(s, t, c), y)
  {
    var f := CallFlow(s, t, c);
    var s' := Step(s, t, c);
    if At(s', y).Some? {
      if Some(y) != f.to {
        SpotAfter(s, t, c, f, y);
      } else {
        ToIsOwn(s, s', t, f, Releases(s, t, c));
      }
      if Owned(s.tasks[t]).Some? {
        OwnCall(s, t, c);
      } else {
        TakenFine(s, t, c);
      }
    }
  }

  lemma JobsAfter(s: Calls, t: nat, c: Choice, id: string)
    requires Fit(s) && t in s.tasks && s.now <= c.now
    ensures JobFine(Step(s, t, c), id)
  {
    assert JobFine(s, id);
    CallRecords(s, t, c);
    if Owned(s.tasks[t]) == Some(id) {
      OwnCall(s, t, c);
    } else if id in s.store.jobs {
      ForeignWrite(s, t, c, id);
      SameJobOk(s.store.jobs[id], Step(s, t, c).store.jobs[id], s.traces[id]);
    } else if s.tasks[t].Creating? {
      CreateFine(s, t, c);
    } else {
      NoOtherCreates(s, t, c);
    }
  }

  lemma NoOtherCreates(s: Calls, t: nat, c: Choice)
    requires Fit(s) && t in s.tasks && !s.tasks[t].Creating?
    ensures Step(s, t, c).store.jobs.Keys == s.store.jobs.Keys
  {
    CallRecords(s, t, c);
    var k := s.tasks[t];
    if k.Interring? {
      RefusedWrite(s, t, c);
    } else if Owned(k).Some? {
      OwnStored(s, t);
    }
  }

  lemma QueueFixed(s: Calls, t: nat, c: Choice, id: string)
    requires Fit(s) && t in s.tasks && s.now <= c.now && id in s.store.jobs
    ensures id in Step(s, t, c).store.jobs && Step(s, t, c).store.jobs[id].queue == s.store.jobs[id].queue
  {
    CallRecords(s, t, c);
    if Owned(s.tasks[t]) == Some(id) {
      OwnsFromFit(s, t);
      OwnQueueFixed(s, t, c, id);
    } else {
      ForeignWrite(s, t, c, id);
    }
  }

  lemma OwnQueueFixed(s: Calls, t: nat, c: Choice, id: string)
    requires Owns(s, t, id)
    ensures id in Step(s, t, c).store.jobs && Step(s, t, c).store.jobs[id].queue == s.store.jobs[id].queue
  {
    var k := s.tasks[t];
    if k.Failing? { FailQueueFixed(s.(now := c.now), t, k.p, k.j, c.config); }
    else if Failer(k) { FailerQueueFixed(s, t, c, id); }
    else if Runner(k) { RunnerQueueFixed(s, t, c, id); }
    else if Submitter(k) { CreatedQueueFixed(s, t, c, id); }
    else { EntererQueueFixed(s, t, c, id); }
  }

  lemma FailQueueFixed(s: Calls, t: nat, p: string, j: Job, config: Option<QueueConfig>)
    requires j.id in s.store.jobs
    ensures var s' := Fail(s, t, p, j, config);
      j.id in s'.store.jobs && s'.store.jobs[j.id].queue == s.store.jobs[j.id].queue
  {
  }

  lemma FailerQueueFixed(s: Calls, t: nat, c: Choice, id: string)
    requires Owns(s, t, id) && Failer(s.tasks[t]) && !s.tasks[t].Failing?
    ensures id in Step(s, t, c).store.jobs && Step(s, t, c).store.jobs[id].queue == s.store.jobs[id].queue
  {
  }

  lemma RunnerQueueFixed(s: Calls, t: nat, c: Choice, id: string)
    requires Owns(s, t, id) && Runner(s.tasks[t])
    ensures id in Step(s, t, c).store.jobs && Step(s, t, c).store.jobs[id].queue == s.store.jobs[id].queue
  {
  }

  lemma CreatedQueueFixed(s: Calls, t: nat, c: Choice, id: string)
    requires Owns(s, t, id) && Submitter(s.tasks[t])
    ensures id in Step(s, t, c).store.jobs && Step(s, t, c).store.jobs[id].queue == s.store.jobs[id].queue
  {
  }

  lemma EntererQueueFixed(s: Calls, t: nat, c: Choice, id: string)
    requires Owns(s, t, id) && Fetcher(s.tasks[t])
    ensures id in Step(s, t, c).store.jobs && Step(s, t, c).store.jobs[id].queue == s.store.jobs[id].queue
  {
  }

  /** The goroutine's own next task. */
  lemma OwnTaskAfter(s: Calls, t: nat, c: Choice)
    requires Fit(s) && t in s.tasks && s.now <= c.now
    ensures t in Step(s, t, c).tasks && TaskOk(Step(s, t, c), Step(s, t, c).tasks[t])
  {
    CallOutcomes.CallOwnTask(s, t, c);
    CallRecords(s, t, c);
    var k := s.tasks[t];
    if Owned(k).Some? { OwnStored(s, t); }
    if Submitter(k) { SubmitterTaskOk(s, t, c); }
    else if Burier(k) { BurierTaskOk(s, t, c); }
    else if Canceller(k) { CancellerTaskOk(s, t, c); }
    else if Fetcher(k) { FetcherTaskOk(s, t, c); }
    else if Runner(k) { RunnerTaskOk(s, t, c); }
    else if k.Failing? { FailTaskOk(s.(now := c.now), t, k.p, k.j, c.config); }
    else if Failer(k) { FailerTaskOk(s, t, c); }
    else if Winner(k) { WinnerTaskOk(s, t, c); }
    else { LoserTaskOk(s, t, c); }
  }

  lemma SubmitterTaskOk(s: Calls, t: nat, c: Choice)
    requires t in s.tasks && Submitter(s.tasks[t])
    ensures t in Step(s, t, c).tasks && TaskOk(Step(s, t, c), Step(s, t, c).tasks[t])
  {
  }

  lemma BurierTaskOk(s: Calls, t: nat, c: Choice)
    requires t in s.tasks && Burier(s.tasks[t]) && TaskOk(s, s.tasks[t])
    ensures t in Step(s, t, c).tasks && TaskOk(Step(s, t, c), Step(s, t, c).tasks[t])
  {
  }

  lemma CancellerTaskOk(s: Calls, t: nat, c: Choice)
    requires t in s.tasks && Canceller(s.tasks[t]) && TaskOk(s, s.tasks[t]) && Filed(s)
    ensures t in Step(s, t, c).tasks && TaskOk(Step(s, t, c), Step(s, t, c).tasks[t])
  {
  }

  lemma FetcherTaskOk(s: Calls, t: nat, c: Choice)
    requires t in s.tasks && Fetcher(s.tasks[t])
    ensures t in Step(s, t, c).tasks && TaskOk(Step(s, t, c), Step(s, t, c).tasks[t])
  {
  }

  lemma RunnerTaskOk(s: Calls, t: nat, c: Choice)
    requires t in s.tasks && Runner(s.tasks[t])
    ensures t in Step(s, t, c).tasks && TaskOk(Step(s, t, c), Step(s, t, c).tasks[t])
  {
  }

  lemma FailTaskOk(s: Calls, t: nat, p: string, j: Job, config: Option<QueueConfig>)
    requires j.id in s.store.jobs
    ensures var s' := Fail(s, t, p, j, config); t in s'.tasks && TaskOk(s', s'.tasks[t])
  {
  }

  lemma FailerTaskOk(s: Calls, t: nat, c: Choice)
    requires t in s.tasks && Failer(s.tasks[t]) && !s.tasks[t].Failing?
    ensures t in Step(s, t, c).tasks && TaskOk(Step(s, t, c), Step(s, t, c).tasks[t])
  {
  }

  lemma WinnerTaskOk(s: Calls, t: nat, c: Choice)
    requires t in s.tasks && Winner(s.tasks[t])
    ensures t in Step(s, t, c).tasks && TaskOk(Step(s, t, c), Step(s, t, c).tasks[t])
  {
  }

  lemma LoserTaskOk(s: Calls, t: nat, c: Choice)
    requires t in s.tasks && Loser(s.tasks[t]) && TaskOk(s, s.tasks[t])
    ensures t in Step(s, t, c).tasks && TaskOk(Step(s, t, c), Step(s, t, c).tasks[t])
  {
  }

  lemma TasksAfter(s: Calls, t: nat, c: Choice, u: nat)
    requires Fit(s) && t in s.tasks && s.now <= c.now && u in Step(s, t, c).tasks
    ensures TaskOk(Step(s, t, c), Step(s, t, c).tasks[u])
  {
    CallOutcomes.CallOwnTask(s, t, c);
    if u == t {
      OwnTaskAfter(s, t, c);
    } else {
      var k := s.tasks[u];
      assert TaskOk(s, k);
      if k.Cancelling? || k.Marked? || k.Condemned? || k.Judging? || k.Burying? || k.Interring? {
        QueueFixed(s, t, c, k.j.id);
      }
    }
  }

  lemma CallKeepsFit(s: Calls, t: nat, c: Choice)
    requires Fit(s) && t in s.tasks && s.now <= c.now
    ensures Fit(Step(s, t, c))
  {
    CallKeepsSafe(s, t, c);
    forall y ensures SpotOk(Step(s, t, c), y) { SpotsAfter(s, t, c, y); }
    forall id ensures JobFine(Step(s, t, c), id) { JobsAfter(s, t, c, id); }
    forall u | u in Step(s, t, c).tasks
      ensures TaskOk(Step(s, t, c), Step(s, t, c).tasks[u])
    {
      TasksAfter(s, t, c, u);
    }
  }

  lemma EventKeepsFit(s: Calls, e: Event)
    requires Fit(s) && Possible(s, e)
    ensures Fit(Next(s, e))
  {
    if e.Call? {
      CallKeepsFit(s, e.t, e.choice);
    } else {
      EventKeepsSafe(s, e);
      forall y ensures SpotOk(Next(s, e), y) {
        OtherEventStays(s, e, y);
        assert SpotOk(s, y);
      }
      forall id ensures JobFine(Next(s, e), id) { assert JobFine(s, id); }
    }
  }

  lemma {:induction false} RunKeepsFit(s: Calls, events: seq<Event>, s': Calls)
    requires Fit(s) && Happens(s, events, s')
    ensures Fit(s')
    decreases |events|
  {
    if events != [] {
      EventKeepsFit(s, events[0]);
      RunKeepsFit(Next(s, events[0]), events[1..], s');
    }
  }

  lemma StartFit()
    ensures Fit(START)
  {
    StartSafe();
  }

  // ---- what follows for every run ----

  /** A job is executed at most MaxRetries - (retries it was submitted with) + 1 times, whatever the
      interleaving and however many pools share the store. */
  lemma BoundedAttemptsOfCalls(events: seq<Event>, s: Calls, id: string)
    requires Happens(START, events, s) && id in s.store.jobs
    ensures id in s.traces
    ensures |s.traces[id].starts| <= G.Max(0, s.store.jobs[id].maxRetries - s.traces[id].base) + 1
  {
    StartFit();
    RunKeepsFit(START, events, s);
    assert JobFine(s, id);
  }

  lemma {:induction false} SpacedAddsUp(t: P.Trace, n: nat)
    requires Spaced(t) && 1 <= n < |t.starts|
    ensures n <= |t.failures| && t.starts[n] >= t.failures[0].at + G.TotalDelay(t, n)
  {
    if n > 1 {
      SpacedAddsUp(t, n - 1);
    }
  }

  /** And its n-th retry starts no sooner than the first failure plus all the capped delays between. */
  lemma AttemptsSpacedOfCalls(events: seq<Event>, s: Calls, id: string, n: nat)
    requires Happens(START, events, s) && id in s.store.jobs
    ensures id in s.traces
    ensures 1 <= n < |s.traces[id].starts| ==>
      var t := s.traces[id];
      n <= |t.failures| && t.starts[n] - t.failures[0].at >= G.TotalDelay(t, n)
      && forall k :: 0 <= k < n ==> t.failures[k].config.Some?
  {
    StartFit();
    RunKeepsFit(START, events, s);
    assert JobFine(s, id);
    if 1 <= n < |s.traces[id].starts| {
      SpacedAddsUp(s.traces[id], n);
    }
  }

  /** No dead letter is ever stored: the Enqueue that carries it is refused under every interleaving. */
  lemma DeadLettersRefused(events: seq<Event>, s: Calls, t: nat, c: Choice)
    requires Happens(START, events, s) && t in s.tasks && s.tasks[t].Interring?
    ensures Step(s, t, c).store == s.store && Step(s, t, c).tasks[t] == Blaming(s.tasks[t].p)
  {
    StartFit();
    RunKeepsFit(START, events, s);
    assert TaskOk(s, s.tasks[t]);
    RefusedWrite(s, t, c);
  }
}
