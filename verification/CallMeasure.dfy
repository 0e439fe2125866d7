/** How many calls a job can still cause, under every interleaving of storage calls: each call on its
    behalf uses up a measure that only giving it back to its queue restores. */
module CallMeasure {
  import opened Jobs
  import opened MemoryStorage
  import opened CallInterleaving
  import opened CallOutcomes
  import opened CallAttempts
  import G = ProtocolGuarantees

  /** The calls until the job is back in its queue, or done with; one attempt takes nine. */
  function Left(h: Held): nat {
    match h
    case Entered(_) => 9
    case Sent(_) => 6
    case Tended(task) =>
      match task
      case Created(_) => 10
      case Dequeued(_, _) => 8
      case Carrying(_, _) => 7
      case Returning(_, _) => 10
      case Received(_, _) => 5
      case Handling(_, _) => 4
      case Failing(_, _) => 3
      case Resaving(_, _, _) => 2
      case Requeueing(_, _, _) => 10
      case _ => 0
  }

  /** Nine for each retry left, and what is left of the attempt. */
  function Weight(r: Job, h: Held): nat {
    9 * G.Max(0, r.maxRetries - r.retryCount) + Left(h)
  }

  ghost function Measure(s: Calls, id: string): nat
    requires id in s.store.jobs
  {
    if !HasOwner(s, id) then 0
    else
      var x :| Owner(s, x) == Some(id);
      Weight(s.store.jobs[id], At(s, x).value)
  }

  lemma MeasureAt(s: Calls, x: Spot, id: string)
    requires OwnedOnce(s) && id in s.store.jobs && Owner(s, x) == Some(id)
    ensures Measure(s, id) == Weight(s.store.jobs[id], At(s, x).value)
  {
    assert forall y :: Owner(s, y) == Some(id) ==> y == x;
  }

  // ---- calls on behalf of a job ----

  /** A call of the goroutine that owns the job, or one that takes it from its queue or a channel. */
  ghost predicate Advances(s: Calls, e: Event, id: string)
    requires Possible(s, e)
  {
    e.Call? && (Owned(s.tasks[e.t]) == Some(id)
                || (e.t in Next(s, e).tasks && Owned(Next(s, e).tasks[e.t]) == Some(id)))
  }

  /** A fetcher of a stopped pool gives the job back. */
  ghost predicate GivesItBack(s: Calls, e: Event, id: string)
    requires Possible(s, e)
  {
    e.Call? && s.tasks[e.t].Carrying? && !e.choice.yes && s.tasks[e.t].j.id == id
  }

  /** What stands for the job after the call is one call further on. */
  ghost predicate Further(s: Calls, s': Calls, id: string, h: Held, credit: nat) {
    && id in s.store.jobs && id in s'.store.jobs
    && exists y :: Owner(s', y) == Some(id)
         && Weight(s'.store.jobs[id], At(s', y).value) + 1 <= Weight(s.store.jobs[id], h) + credit
  }

  lemma FurtherAt(s: Calls, s': Calls, id: string, h: Held, credit: nat, y: Spot)
    requires id in s.store.jobs && id in s'.store.jobs && Owner(s', y) == Some(id)
    requires Weight(s'.store.jobs[id], At(s', y).value) + 1 <= Weight(s.store.jobs[id], h) + credit
    ensures Further(s, s', id, h, credit)
  {
  }

  /** The goroutine keeps the job. */
  lemma KeepsFurther(s: Calls, s': Calls, t: nat, id: string, credit: nat)
    requires t in s.tasks && t in s'.tasks && Owned(s'.tasks[t]) == Some(id)
    requires id in s.store.jobs && id in s'.store.jobs
    requires Weight(s'.store.jobs[id], Tended(s'.tasks[t])) + 1 <= Weight(s.store.jobs[id], Tended(s.tasks[t])) + credit
    ensures Further(s, s', id, Tended(s.tasks[t]), credit)
  {
    assert At(s', OfTask(t)) == Some(Tended(s'.tasks[t]));
    FurtherAt(s, s', id, Tended(s.tasks[t]), credit, OfTask(t));
  }

  lemma EntersFurther(s: Calls, t: nat, c: Choice, id: string)
    requires Owns(s, t, id) && (s.tasks[t].Created? || s.tasks[t].Returning? || s.tasks[t].Requeueing?)
    ensures Further(s, Step(s, t, c), id, Tended(s.tasks[t]), 0)
  {
    var r, k := s.(now := c.now), s.tasks[t];
    var due := if k.Created? then DueAt(k.j, c.now) else if k.Returning? then c.now else c.now + k.delay;
    var next := if k.Created? then Counting else if k.Returning? then Polling(k.p) else Repeating(k.p);
    assert Step(s, t, c) == Append(r, t, k.j, due, next);
    AppendsFurther(s, r, t, k.j, due, next);
  }

  lemma AppendsFurther(s: Calls, r: Calls, t: nat, j: Job, due: int, next: Task)
    requires t in s.tasks && r == s.(now := r.now) && j.id in s.store.jobs && Left(Tended(s.tasks[t])) == 10
    ensures Further(s, Append(r, t, j, due, next), j.id, Tended(s.tasks[t]), 0)
  {
    var s', y := Append(r, t, j, due, next), OfQueue(j.queue, |s.store.Entries(j.queue)|);
    assert At(s', y) == Some(Entered(Entry(j.id, j.priority, due)));
    FurtherAt(s, s', j.id, Tended(s.tasks[t]), 0, y);
  }

  lemma FetchedFurther(s: Calls, t: nat, c: Choice, id: string)
    requires Owns(s, t, id) && (s.tasks[t].Dequeued? || (s.tasks[t].Carrying? && !c.yes))
    ensures Further(s, Step(s, t, c), id, Tended(s.tasks[t]), if s.tasks[t].Carrying? then 4 else 0)
  {
    KeepsFurther(s, Step(s, t, c), t, id, if s.tasks[t].Carrying? then 4 else 0);
  }

  lemma SentFurther(s: Calls, t: nat, c: Choice, id: string)
    requires Owns(s, t, id) && s.tasks[t].Carrying? && c.yes
    ensures Further(s, Step(s, t, c), id, Tended(s.tasks[t]), 0)
  {
    var s', p := Step(s, t, c), s.tasks[t].p;
    assert At(s', OfChannel(p, |s.Channel(p)|)) == Some(Sent(s.tasks[t].j));
    FurtherAt(s, s', id, Tended(s.tasks[t]), 0, OfChannel(p, |s.Channel(p)|));
  }

  lemma RunFurther(s: Calls, t: nat, c: Choice, id: string)
    requires Owns(s, t, id) && (s.tasks[t].Received? || (s.tasks[t].Handling? && !c.yes))
    ensures Further(s, Step(s, t, c), id, Tended(s.tasks[t]), 0)
  {
    KeepsFurther(s, Step(s, t, c), t, id, 0);
  }

  lemma RetryFurther(s: Calls, t: nat, c: Choice, id: string)
    requires Owns(s, t, id) && s.tasks[t].Failing? && s.tasks[t].j.CanRetry() && c.config.Some?
    ensures Further(s, Step(s, t, c), id, Tended(s.tasks[t]), 0)
  {
    var p, j := s.tasks[t].p, s.tasks[t].j;
    RetriedTask(s.(now := c.now), t, p, j, c.config.value);
    KeepsFurther(s, Step(s, t, c), t, id, 0);
  }

  lemma RetriedTask(s: Calls, t: nat, p: string, j: Job, config: QueueConfig)
    requires j.id in s.store.jobs && j.CanRetry()
    ensures var s' := Fail(s, t, p, j, Some(config));
      && t in s'.tasks && s'.tasks[t].Resaving? && s'.tasks[t].j.id == j.id
      && j.id in s'.store.jobs && Same(s.store.jobs[j.id], s'.store.jobs[j.id])
  {
    FailedRecord(s, t, p, j, Some(config));
  }

  lemma ResavedFurther(s: Calls, t: nat, c: Choice, id: string)
    requires Owns(s, t, id) && s.tasks[t].Resaving?
    ensures Further(s, Step(s, t, c), id, Tended(s.tasks[t]), 0)
  {
    KeepsFurther(s, Step(s, t, c), t, id, 0);
  }

  /** A call of the owner that does not release the job. */
  lemma OwnFurther(s: Calls, t: nat, c: Choice)
    requires Fit(s) && t in s.tasks && Owned(s.tasks[t]).Some? && Releases(s, t, c).None?
    ensures Further(s, Step(s, t, c), Owned(s.tasks[t]).value, Tended(s.tasks[t]),
                    if s.tasks[t].Carrying? && !c.yes then 4 else 0)
  {
    var k, id := s.tasks[t], Owned(s.tasks[t]).value;
    OwnsFromFit(s, t);
    assert !k.Buried?;
    if k.Created? || k.Returning? || k.Requeueing? { EntersFurther(s, t, c, id); }
    else if k.Dequeued? || (k.Carrying? && !c.yes) { FetchedFurther(s, t, c, id); }
    else if k.Carrying? { SentFurther(s, t, c, id); }
    else if k.Received? || k.Handling? { RunFurther(s, t, c, id); }
    else if k.Failing? { RetryFurther(s, t, c, id); }
    else { ResavedFurther(s, t, c, id); }
  }

  /** A poll or a receive that takes the job. */
  lemma TakenFurther(s: Calls, t: nat, c: Choice, f: Flow, id: string)
    requires Fit(s) && t in s.tasks && Owned(s.tasks[t]).None? && id in s.store.jobs
    requires IsFlow(s, Step(s, t, c), t, f, Releases(s, t, c)) && f.src.Some? && Owner(s, f.src.value) == Some(id)
    requires f.to.Some?
    ensures Further(s, Step(s, t, c), id, At(s, f.src.value).value, 0)
  {
    var s' := Step(s, t, c);
    assert f.to == Some(OfTask(t)) && Owner(s', OfTask(t)) == Some(id);
    TakerTask(s, t, c, id);
    if s.tasks[t].Waiting? {
      assert f.src.value.OfChannel? by { SourceOfReceive(s, t, c, f); }
    }
    FurtherAt(s, s', id, At(s, f.src.value).value, 0, OfTask(t));
  }

  lemma SourceOfReceive(s: Calls, t: nat, c: Choice, f: Flow)
    requires Safe(s) && t in s.tasks && s.tasks[t].Waiting? && f.src.Some? && f.to.Some?
    requires IsFlow(s, Step(s, t, c), t, f, Releases(s, t, c))
    ensures f.src.value.OfChannel?
  {
    var p, s' := s.tasks[t].p, Step(s, t, c);
    ReceivedTask(s, t, c);
    assert At(s', f.to.value).Some?;
    assert s.Channel(p) != [] ==> Owner(s, OfChannel(p, 0)) == Some(s.Channel(p)[0].id);
    assert f.to == Some(OfTask(t));
  }

  lemma ReceivedTask(s: Calls, t: nat, c: Choice)
    requires t in s.tasks && s.tasks[t].Waiting?
    ensures var p := s.tasks[t].p;
      t in Step(s, t, c).tasks
      && Step(s, t, c).tasks[t] == if s.Channel(p) == [] then Waiting(p) else Received(p, s.Channel(p)[0])
  {
  }

  lemma OthersTakeNothing(s: Calls, t: nat, c: Choice, id: string)
    requires Fit(s) && t in s.tasks && Owned(s.tasks[t]).None? && id in s.store.jobs
    ensures s.tasks[t].Polling? || s.tasks[t].Waiting?
            || (t in Step(s, t, c).tasks ==> Owned(Step(s, t, c).tasks[t]) != Some(id))
  {
    var k := s.tasks[t];
    if k.Creating? {
      if k.j.id in s.store.jobs { RefusedWrite(s, t, c); }
    } else if !k.Polling? && !k.Waiting? {
      OthersOwnNothing(s, t, c);
    }
  }

  /** Only a poll and a receive take a stored job. */
  lemma TakerTask(s: Calls, t: nat, c: Choice, id: string)
    requires Fit(s) && t in s.tasks && Owned(s.tasks[t]).None? && id in s.store.jobs
    requires t in Step(s, t, c).tasks && Owned(Step(s, t, c).tasks[t]) == Some(id)
    ensures s.tasks[t].Polling? || s.tasks[t].Waiting?
    ensures Step(s, t, c).store.jobs == s.store.jobs
    ensures if s.tasks[t].Polling? then Step(s, t, c).tasks[t].Dequeued? else Step(s, t, c).tasks[t].Received?
  {
    OthersTakeNothing(s, t, c, id);
  }

  // ---- the account ----

  ghost predicate Accounted(s: Calls, s': Calls, id: string, used: nat, credit: nat) {
    id in s.store.jobs && id in s'.store.jobs && Measure(s', id) + used <= Measure(s, id) + credit
  }

  lemma FurtherAccounted(s: Calls, s': Calls, x: Spot, id: string, credit: nat)
    requires OwnedOnce(s) && OwnedOnce(s') && Owner(s, x) == Some(id)
    requires Further(s, s', id, At(s, x).value, credit)
    ensures Accounted(s, s', id, 1, credit)
  {
    var y :| Owner(s', y) == Some(id)
      && Weight(s'.store.jobs[id], At(s', y).value) + 1 <= Weight(s.store.jobs[id], At(s, x).value) + credit;
    MeasureAt(s, x, id);
    MeasureAt(s', y, id);
  }

  lemma OwnAccounted(s: Calls, t: nat, c: Choice, id: string)
    requires Fit(s) && t in s.tasks && Owned(s.tasks[t]) == Some(id)
    ensures Accounted(s, Step(s, t, c), id, 1, if s.tasks[t].Carrying? && !c.yes then 4 else 0)
  {
    OwnStored(s, t);
    CallKeepsSafe(s, t, c);
    CallRecords(s, t, c);
    assert At(s, OfTask(t)) == Some(Tended(s.tasks[t])) && Owner(s, OfTask(t)) == Some(id);
    if Releases(s, t, c).Some? {
      CallReleasesIff(s, t, c, id);
      MeasureAt(s, OfTask(t), id);
    } else {
      OwnFurther(s, t, c);
      FurtherAccounted(s, Step(s, t, c), OfTask(t), id, if s.tasks[t].Carrying? && !c.yes then 4 else 0);
    }
  }

  /** A goroutine that comes to own a stored job took it from where it stood. */
  lemma TakenFrom(s: Calls, s': Calls, t: nat, f: Flow, released: Option<string>, id: string)
    requires IsFlow(s, s', t, f, released) && t in s.tasks && t in s'.tasks && id in s.store.jobs
    requires Owned(s.tasks[t]) != Some(id) && Owned(s'.tasks[t]) == Some(id)
    ensures f.to == Some(OfTask(t)) && f.src.Some? && Owner(s, f.src.value) == Some(id) && Owned(s.tasks[t]).None?
  {
    assert CameFrom(s, s', f, OfTask(t)) && Owner(s', OfTask(t)) == Some(id);
    if f.to == Some(OfTask(t)) {
      ToIsOwn(s, s', t, f, released);
    }
  }

  lemma TakenAccounted(s: Calls, t: nat, c: Choice, id: string)
    requires Fit(s) && t in s.tasks && Owned(s.tasks[t]) != Some(id) && id in s.store.jobs
    requires t in Step(s, t, c).tasks && Owned(Step(s, t, c).tasks[t]) == Some(id)
    ensures Accounted(s, Step(s, t, c), id, 1, 0)
  {
    var f := CallFlow(s, t, c);
    var s' := Step(s, t, c);
    CallKeepsSafe(s, t, c);
    CallRecords(s, t, c);
    TakenFrom(s, s', t, f, Releases(s, t, c), id);
    TakenFurther(s, t, c, f, id);
    FurtherAccounted(s, s', f.src.value, id, 0);
  }

  /** A call about other jobs. */
  lemma ForeignAccounted(s: Calls, t: nat, c: Choice, id: string)
    requires Fit(s) && t in s.tasks && Owned(s.tasks[t]) != Some(id) && id in s.store.jobs
    requires t in Step(s, t, c).tasks && Owned(Step(s, t, c).tasks[t]) != Some(id)
    ensures Accounted(s, Step(s, t, c), id, 0, 0)
  {
    var f := CallFlow(s, t, c);
    var s' := Step(s, t, c);
    CallKeepsSafe(s, t, c);
    ForeignWrite(s, t, c, id);
    if HasOwner(s, id) {
      CallReleasesIff(s, t, c, id);
      if HasOwner(s', id) {
        var x :| Owner(s, x) == Some(id);
        var y := StaysHeld(s, s', t, f, Releases(s, t, c), x, id);
        MeasureAt(s, x, id);
        MeasureAt(s', y, id);
      }
    } else {
      FlowNoOwner(s, s', f, id);
    }
  }

  lemma StaysHeld(s: Calls, s': Calls, t: nat, f: Flow, released: Option<string>, x: Spot, id: string)
    returns (y: Spot)
    requires OwnedOnce(s') && IsFlow(s, s', t, f, released) && t in s.tasks && t in s'.tasks
    requires Owner(s, x) == Some(id) && Owned(s.tasks[t]) != Some(id) && Owned(s'.tasks[t]) != Some(id)
    requires released != Some(id)
    ensures Owner(s', y) == Some(id) && At(s', y) == At(s, x)
  {
    assert WentOn(s, s', f, x);
    y := Onto(f.gap, x);
    if f.src == Some(x) {
      assert f.to.Some? && Owner(s', f.to.value) == Some(id);
      ToIsOwn(s, s', t, f, released);
    }
  }

  lemma OtherAccounted(s: Calls, e: Event, id: string)
    requires Fit(s) && Possible(s, e) && !e.Call? && id in s.store.jobs
    ensures Accounted(s, Next(s, e), id, 0, 0)
  {
    EventKeepsSafe(s, e);
    if HasOwner(Next(s, e), id) {
      var x :| Owner(Next(s, e), x) == Some(id);
      OtherEventStays(s, e, x);
      MeasureAt(s, x, id);
      MeasureAt(Next(s, e), x, id);
    }
  }

  /** Every call on behalf of the job lowers its measure, unless it gives the job back, and nothing else
      raises it. */
  lemma EventAccounted(s: Calls, e: Event, id: string)
    requires Fit(s) && Possible(s, e) && id in s.store.jobs
    ensures Accounted(s, Next(s, e), id, if Advances(s, e, id) then 1 else 0, if GivesItBack(s, e, id) then 4 else 0)
  {
    if !e.Call? {
      OtherAccounted(s, e, id);
    } else if Owned(s.tasks[e.t]) == Some(id) {
      OwnAccounted(s, e.t, e.choice, id);
    } else if e.t in Next(s, e).tasks && Owned(Next(s, e).tasks[e.t]) == Some(id) {
      TakenAccounted(s, e.t, e.choice, id);
    } else {
      CallSamePool(s, e.t, e.choice);
      ForeignAccounted(s, e.t, e.choice, id);
    }
  }

  // ---- runs ----

  ghost function CallsFor(s: Calls, events: seq<Event>, id: string): nat
    requires Goes(s, events)
    decreases |events|
  {
    if events == [] then 0
    else (if Advances(s, events[0], id) then 1 else 0) + CallsFor(Next(s, events[0]), events[1..], id)
  }

  ghost function GivenBack(s: Calls, events: seq<Event>, id: string): nat
    requires Goes(s, events)
    decreases |events|
  {
    if events == [] then 0
    else (if GivesItBack(s, events[0], id) then 1 else 0) + GivenBack(Next(s, events[0]), events[1..], id)
  }

  ghost predicate Goes(s: Calls, events: seq<Event>)
    decreases |events|
  {
    events == [] || (Possible(s, events[0]) && Goes(Next(s, events[0]), events[1..]))
  }

  lemma {:induction false} HappensGoes(s: Calls, events: seq<Event>, s': Calls)
    requires Happens(s, events, s')
    ensures Goes(s, events)
    decreases |events|
  {
    if events != [] {
      HappensGoes(Next(s, events[0]), events[1..], s');
    }
  }

  lemma {:induction false} RunAccounted(s: Calls, events: seq<Event>, s': Calls, id: string)
    requires Fit(s) && Happens(s, events, s') && Goes(s, events) && id in s.store.jobs
    ensures id in s'.store.jobs
    ensures CallsFor(s, events, id) + Measure(s', id) <= Measure(s, id) + 4 * GivenBack(s, events, id)
    decreases |events|
  {
    if events != [] {
      EventAccounted(s, events[0], id);
      EventKeepsFit(s, events[0]);
      RunAccounted(Next(s, events[0]), events[1..], s', id);
    }
  }

  lemma OwnerFromTask(s: Calls, t: nat, id: string)
    requires Safe(s) && t in s.tasks && Owned(s.tasks[t]) == Some(id) && s.tasks[t].Created?
    ensures id in s.store.jobs && Measure(s, id) == Weight(s.store.jobs[id], Tended(s.tasks[t]))
  {
    OwnStored(s, t);
    MeasureAt(s, OfTask(t), id);
  }

  /** From its creation on, whatever the interleaving and however many pools, a job causes at most nine
      calls for each attempt it may make, one to enter its queue, and four for each time it is given
      back. */
  lemma CallsOfJobBounded(
    history: seq<Event>, s: Calls, t: nat, events: seq<Event>, s': Calls, id: string)
    requires Happens(START, history, s) && t in s.tasks && s.tasks[t].Created? && s.tasks[t].j.id == id
    requires Happens(s, events, s')
    ensures Goes(s, events) && id in s.store.jobs
    ensures var r := s.store.jobs[id];
      CallsFor(s, events, id) <= 9 * (G.Max(0, r.maxRetries - r.retryCount) + 1) + 1 + 4 * GivenBack(s, events, id)
  {
    StartFit();
    RunKeepsFit(START, history, s);
    HappensGoes(s, events, s');
    OwnerFromTask(s, t, id);
    RunAccounted(s, events, s', id);
  }
}
