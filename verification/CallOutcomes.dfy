/** When an outcome is final and when a job is kept, call by call. */
module CallOutcomes {
  import opened Jobs
  import opened MemoryStorage
  import opened QueueManager
  import opened CallInterleaving

  ghost predicate HasOwner(s: Calls, id: string) {
    exists x :: Owner(s, x) == Some(id)
  }

  // ---- where an owner goes ----

  lemma FlowOwner(s: Calls, s': Calls, f: Flow, id: string)
    requires OwnedOnce(s) && Flows(s, s', f) && HasOwner(s, id)
    ensures HasOwner(s', id) <==> !(f.src.Some? && f.to.None? && Owner(s, f.src.value) == Some(id))
  {
    var x :| Owner(s, x) == Some(id);
    assert WentOn(s, s', f, x);
    if f.src == Some(x) {
      if f.to.Some? {
        assert Owner(s', f.to.value) == Some(id);
      } else {
        forall y
          ensures Owner(s', y) != Some(id)
        {
          assert CameFrom(s, s', f, y);
          assert Owner(s, From(f.gap, y)) == Some(id) ==> Some(From(f.gap, y)) == f.src;
        }
      }
    } else {
      assert Owner(s', Onto(f.gap, x)) == Some(id);
    }
  }

  lemma FlowNoOwner(s: Calls, s': Calls, f: Flow, id: string)
    requires Flows(s, s', f) && !HasOwner(s, id) && id in s.store.jobs
    ensures !HasOwner(s', id)
  {
    forall y
      ensures Owner(s', y) != Some(id)
    {
      assert CameFrom(s, s', f, y);
      assert Owner(s, From(f.gap, y)) != Some(id);
    }
  }

  /** A call takes a job's owner away if and only if it releases the job. */
  lemma CallReleasesIff(s: Calls, t: nat, c: Choice, id: string)
    requires Safe(s) && t in s.tasks && HasOwner(s, id)
    ensures HasOwner(Step(s, t, c), id) <==> Releases(s, t, c) != Some(id)
  {
    var f := CallFlow(s, t, c);
    FlowOwner(s, Step(s, t, c), f, id);
  }

  lemma UnownedStays(s: Calls, e: Event, id: string)
    requires Safe(s) && Possible(s, e) && id in s.store.jobs && !HasOwner(s, id)
    ensures !HasOwner(Next(s, e), id)
  {
    if e.Call? {
      var f := CallFlow(s, e.t, e.choice);
      FlowNoOwner(s, Next(s, e), f, id);
    } else {
      forall x
        ensures Owner(Next(s, e), x) == Owner(s, x)
      {
        OtherEventStays(s, e, x);
      }
    }
  }

  // ---- finality ----

  /** A caller of CancelJob that read the job before its outcome and has not written yet. */
  ghost predicate CancellerWaits(s: Calls, id: string) {
    exists t :: t in s.tasks && s.tasks[t].Cancelling? && s.tasks[t].j.id == id
  }

  /** What a goroutine that does not own a job can do to its record. */
  lemma UnownedRecord(s: Calls, t: nat, c: Choice, id: string)
    requires Safe(s) && t in s.tasks && id in s.store.jobs && Owned(s.tasks[t]) != Some(id)
    ensures id in Step(s, t, c).store.jobs && id in s.traces && id in Step(s, t, c).traces
    ensures Step(s, t, c).traces[id] == s.traces[id]
    ensures Step(s, t, c).store.jobs[id] ==
      if s.tasks[t].Cancelling? && s.tasks[t].j.id == id then Stamped(s.store.jobs[id], Cancelled, c.now)
      else if s.tasks[t].Succeeded? && s.tasks[t].j.id == id then s.store.jobs[id].(progress := 100)
      else s.store.jobs[id]
  {
    CallRecords(s, t, c);
  }

  lemma UnownedTask(s: Calls, t: nat, id: string)
    requires t in s.tasks && !HasOwner(s, id)
    ensures Owned(s.tasks[t]) != Some(id)
  {
    assert Owner(s, OfTask(t)) != Some(id);
  }

  /** A call changes no goroutine but its own, which becomes a canceller only by reading a record that
      is not terminal. */
  ghost predicate OwnTask(s: Calls, s': Calls, t: nat)
    requires t in s.tasks
  {
    && t in s'.tasks && s'.tasks == s.tasks[t := s'.tasks[t]]
    && (s'.tasks[t].Cancelling? ==>
          s.tasks[t].Reading? && s.tasks[t].id in s.store.jobs
          && s'.tasks[t].j == s.store.jobs[s.tasks[t].id] && !s'.tasks[t].j.IsTerminal())
  }

  lemma SubmitterTask(s: Calls, t: nat, c: Choice)
    requires t in s.tasks && (Submitter(s.tasks[t]) || Canceller(s.tasks[t]))
    ensures OwnTask(s, Step(s, t, c), t)
  {
  }

  lemma FetcherTask(s: Calls, t: nat, c: Choice)
    requires t in s.tasks && (Fetcher(s.tasks[t]) || Runner(s.tasks[t])) && !s.tasks[t].Polling?
    ensures OwnTask(s, Step(s, t, c), t)
  {
  }

  lemma PollerTask(s: Calls, t: nat, c: Choice)
    requires t in s.tasks && s.tasks[t].Polling?
    ensures OwnTask(s, Step(s, t, c), t)
  {
  }

  lemma FailerTask(s: Calls, t: nat, c: Choice)
    requires t in s.tasks && Failer(s.tasks[t])
    ensures OwnTask(s, Step(s, t, c), t)
  {
  }

  lemma CounterTask(s: Calls, t: nat, c: Choice)
    requires t in s.tasks && (Burier(s.tasks[t]) || Winner(s.tasks[t]) || Loser(s.tasks[t]))
    ensures OwnTask(s, Step(s, t, c), t)
  {
  }

  lemma CallOwnTask(s: Calls, t: nat, c: Choice)
    requires t in s.tasks
    ensures OwnTask(s, Step(s, t, c), t)
  {
    var k := s.tasks[t];
    if Submitter(k) || Canceller(k) { SubmitterTask(s, t, c); }
    else if k.Polling? { PollerTask(s, t, c); }
    else if Fetcher(k) || Runner(k) { FetcherTask(s, t, c); }
    else if Failer(k) { FailerTask(s, t, c); }
    else { CounterTask(s, t, c); }
  }

  lemma CancellersStay(s: Calls, e: Event, id: string)
    requires Safe(s) && Possible(s, e) && id in s.store.jobs && s.store.jobs[id].IsTerminal()
    requires !CancellerWaits(s, id)
    ensures !CancellerWaits(Next(s, e), id)
  {
    var s' := Next(s, e);
    forall t | t in s'.tasks && s'.tasks[t].Cancelling?
      ensures s'.tasks[t].j.id != id
    {
      if e.Call? {
        CallOwnTask(s, e.t, e.choice);
      }
    }
  }

  ghost predicate KeepsStatus(s: Calls, id: string)
    requires id in s.store.jobs
  {
    forall events, s' :: Happens(s, events, s') ==>
      id in s'.store.jobs && s'.store.jobs[id].status == s.store.jobs[id].status
  }

  /** A job that nothing stands for never runs again, whatever happens. */
  lemma {:induction false} RestNeverRuns(s: Calls, events: seq<Event>, s': Calls, id: string)
    requires Safe(s) && Happens(s, events, s') && id in s.store.jobs && !HasOwner(s, id)
    ensures id in s'.store.jobs && !HasOwner(s', id)
    ensures id in s.traces && id in s'.traces && s'.traces[id] == s.traces[id]
    decreases |events|
  {
    if events != [] {
      var e := events[0];
      UnownedStays(s, e, id);
      EventKeepsSafe(s, e);
      if e.Call? {
        UnownedTask(s, e.t, id);
        UnownedRecord(s, e.t, e.choice, id);
      }
      RestNeverRuns(Next(s, e), events[1..], s', id);
    }
  }

  lemma {:induction false} OutcomeStays(s: Calls, events: seq<Event>, s': Calls, id: string)
    requires Safe(s) && Happens(s, events, s') && id in s.store.jobs && !HasOwner(s, id)
    requires s.store.jobs[id].IsTerminal()
    requires s.store.jobs[id].status == Cancelled || !CancellerWaits(s, id)
    ensures id in s'.store.jobs && s'.store.jobs[id].status == s.store.jobs[id].status
    decreases |events|
  {
    if events != [] {
      var e := events[0];
      UnownedStays(s, e, id);
      EventKeepsSafe(s, e);
      if e.Call? {
        UnownedTask(s, e.t, id);
        UnownedRecord(s, e.t, e.choice, id);
      }
      if !CancellerWaits(s, id) {
        CancellersStay(s, e, id);
      }
      OutcomeStays(Next(s, e), events[1..], s', id);
    }
  }

  /** A recorded outcome is final under every interleaving of storage calls if and only if it is
      CANCELLED or no caller of CancelJob read the job before the outcome and still has to write. */
  lemma OutcomeFinalIff(s: Calls, id: string)
    requires Safe(s) && id in s.store.jobs && !HasOwner(s, id) && s.store.jobs[id].IsTerminal()
    ensures KeepsStatus(s, id) <==> s.store.jobs[id].status == Cancelled || !CancellerWaits(s, id)
  {
    if s.store.jobs[id].status == Cancelled || !CancellerWaits(s, id) {
      forall events, s' | Happens(s, events, s')
        ensures id in s'.store.jobs && s'.store.jobs[id].status == s.store.jobs[id].status
      {
        OutcomeStays(s, events, s', id);
      }
    } else {
      var t :| t in s.tasks && s.tasks[t].Cancelling? && s.tasks[t].j.id == id;
      var c := Choice("", true, None, s.now);
      UnownedTask(s, t, id);
      UnownedRecord(s, t, c, id);
      assert [Call(t, c)][1..] == [];
      assert Happens(s, [Call(t, c)], Next(s, Call(t, c)));
    }
  }

  lemma SameCancellers(s: Calls, s': Calls, t: nat, id: string)
    requires t in s.tasks && OwnTask(s, s', t) && !s.tasks[t].Cancelling? && !s.tasks[t].Reading?
    ensures CancellerWaits(s', id) <==> CancellerWaits(s, id)
  {
    assert forall u :: u in s.tasks && u != t ==> u in s'.tasks && s'.tasks[u] == s.tasks[u];
  }

  /** The calls that record an outcome leave the job to nobody. */
  lemma RecordingReleases(s: Calls, t: nat, c: Choice)
    requires Safe(s) && t in s.tasks
    requires (s.tasks[t].Handling? && c.yes) || (s.tasks[t].Failing? && !s.tasks[t].j.CanRetry())
    ensures var id, s' := s.tasks[t].j.id, Step(s, t, c);
      && id in s'.store.jobs && !HasOwner(s', id)
      && s'.store.jobs[id].status == (if s.tasks[t].Handling? then Success else Failed)
      && (CancellerWaits(s', id) <==> CancellerWaits(s, id))
  {
    var id := s.tasks[t].j.id;
    OwnStored(s, t);
    assert Owner(s, OfTask(t)) == Some(id);
    CallReleasesIff(s, t, c, id);
    CallOwnTask(s, t, c);
    SameCancellers(s, Step(s, t, c), t, id);
  }

  /** So SUCCESS or FAILED, once recorded, is final if and only if no cancellation is in flight. */
  lemma RecordedOutcomeFinalIff(s: Calls, t: nat, c: Choice)
    requires Safe(s) && t in s.tasks
    requires (s.tasks[t].Handling? && c.yes) || (s.tasks[t].Failing? && !s.tasks[t].j.CanRetry())
    ensures s.tasks[t].j.id in Step(s, t, c).store.jobs
    ensures KeepsStatus(Step(s, t, c), s.tasks[t].j.id) <==> !CancellerWaits(s, s.tasks[t].j.id)
  {
    RecordingReleases(s, t, c);
    CallKeepsSafe(s, t, c);
    OutcomeFinalIff(Step(s, t, c), s.tasks[t].j.id);
  }

  // ---- no loss ----

  ghost predicate Unfinished(s: Calls, id: string) {
    id in s.store.jobs && !s.store.jobs[id].IsTerminal()
  }

  /** In the channel of a stopped pool that has no worker left. */
  ghost predicate Stranded(s: Calls, x: Spot) {
    x.OfChannel? && !Live(s, x.p)
  }

  ghost predicate Served(s: Calls, id: string) {
    exists x :: Owner(s, x) == Some(id) && !Stranded(s, x)
  }

  /** Somebody is responsible for every unfinished job. */
  ghost predicate NoneLost(s: Calls) {
    forall id :: Unfinished(s, id) ==> Served(s, id)
  }

  /** A fetcher sends into the channel of a stopped pool that has no worker left. */
  ghost predicate Abandons(s: Calls, t: nat, c: Choice, id: string)
    requires t in s.tasks
  {
    s.tasks[t].Carrying? && c.yes && s.tasks[t].j.id == id && !Live(s, s.tasks[t].p)
  }

  /** The call loses a job: a canceller removes the entry of a job whose record a worker has meanwhile
      written back, a retry finds no configuration, or a fetcher sends where nobody receives. */
  ghost predicate Loses(s: Calls, t: nat, c: Choice)
    requires t in s.tasks
  {
    match s.tasks[t]
    case Marked(j) =>
      FirstOf(s.store.Entries(j.queue), j.id) < |s.store.Entries(j.queue)| && Unfinished(s, j.id)
    case Failing(_, j) => j.CanRetry() && c.config.None? && Unfinished(s, j.id)
    case Carrying(_, j) => Abandons(s, t, c, j.id) && Unfinished(s, j.id)
    case _ => false
  }

  lemma OnlyOwner(s: Calls, x: Spot, id: string)
    requires OwnedOnce(s) && Owner(s, x) == Some(id)
    ensures HasOwner(s, id) && (Served(s, id) <==> !Stranded(s, x))
  {
    assert forall y :: Owner(s, y) == Some(id) ==> y == x;
  }

  /** A job that somebody cares for stays cared for, unless the call releases or abandons it. */
  lemma ServedAfter(s: Calls, t: nat, c: Choice, id: string)
    requires Safe(s) && t in s.tasks && Served(s, id)
    ensures Served(Step(s, t, c), id) <==> Releases(s, t, c) != Some(id) && !Abandons(s, t, c, id)
  {
    var s' := Step(s, t, c);
    var x :| Owner(s, x) == Some(id) && !Stranded(s, x);
    CallKeepsSafe(s, t, c);
    CallReleasesIff(s, t, c, id);
    if Releases(s, t, c) != Some(id) {
      if Abandons(s, t, c, id) {
        AbandonedAt(s, t, c);
      } else {
        var y := ServedAt(s, t, c, x, id);
        OnlyOwner(s', y, id);
      }
    }
  }

  lemma AbandonedAt(s: Calls, t: nat, c: Choice)
    requires Safe(s) && t in s.tasks && s.tasks[t].Carrying? && Abandons(s, t, c, s.tasks[t].j.id)
    ensures !Served(Step(s, t, c), s.tasks[t].j.id)
  {
    var s', p, j := Step(s, t, c), s.tasks[t].p, s.tasks[t].j;
    var y := OfChannel(p, |s.Channel(p)|);
    assert At(s', y) == Some(Sent(j));
    CallKeepsSafe(s, t, c);
    CallKeepsLive(s, t, c, p);
    OnlyOwner(s', y, j.id);
  }

  lemma ServedAt(s: Calls, t: nat, c: Choice, x: Spot, id: string) returns (y: Spot)
    requires Safe(s) && t in s.tasks && Owner(s, x) == Some(id) && !Stranded(s, x)
    requires Releases(s, t, c) != Some(id) && !Abandons(s, t, c, id)
    ensures Owner(Step(s, t, c), y) == Some(id) && !Stranded(Step(s, t, c), y)
  {
    var s' := Step(s, t, c);
    var f := CallFlow(s, t, c);
    assert WentOn(s, s', f, x);
    if f.src == Some(x) {
      y := f.to.value;
      if y.OfChannel? {
        CarryingSends(s, t, c, f, x, id);
        CallKeepsLive(s, t, c, y.p);
      }
    } else {
      y := Onto(f.gap, x);
      if x.OfChannel? { CallKeepsLive(s, t, c, x.p); }
    }
  }

  lemma CarryingSends(s: Calls, t: nat, c: Choice, f: Flow, x: Spot, id: string)
    requires Safe(s) && t in s.tasks && Owner(s, x) == Some(id) && f.src == Some(x)
    requires IsFlow(s, Step(s, t, c), t, f, Releases(s, t, c)) && f.to.Some? && f.to.value.OfChannel?
    ensures s.tasks[t].Carrying? && c.yes && s.tasks[t].j.id == id && s.tasks[t].p == f.to.value.p
  {
    assert Owner(s, OfTask(t)) == Some(s.tasks[t].j.id);
    assert WentOn(s, Step(s, t, c), f, OfTask(t));
    if !c.yes {
      GivesBack(s, t, c);
      assert Owner(Step(s, t, c), OfTask(t)) == Some(s.tasks[t].j.id);
      CallKeepsSafe(s, t, c);
    }
  }

  lemma GivesBack(s: Calls, t: nat, c: Choice)
    requires OwnersStored(s) && t in s.tasks && s.tasks[t].Carrying? && !c.yes
    ensures t in Step(s, t, c).tasks && Owned(Step(s, t, c).tasks[t]) == Some(s.tasks[t].j.id)
  {
    OwnStored(s, t);
  }

  /** A job that comes into being has an owner, and one that nobody cares for stays as finished as it
      was. */
  lemma UnfinishedHadOwner(s: Calls, t: nat, c: Choice, id: string)
    requires Safe(s) && NoneLost(s) && t in s.tasks && Unfinished(Step(s, t, c), id)
    ensures Served(s, id) || Served(Step(s, t, c), id)
  {
    if id in s.store.jobs {
      if !Served(s, id) {
        assert Owner(s, OfTask(t)) != Some(id) || !Stranded(s, OfTask(t));
        UnownedRecord(s, t, c, id);
      }
    } else {
      CallRecords(s, t, c);
      NewJobOwned(s, t, c, id);
    }
  }

  lemma NewJobOwned(s: Calls, t: nat, c: Choice, id: string)
    requires t in s.tasks && id !in s.store.jobs && id in Step(s, t, c).store.jobs
    requires Subject(s.tasks[t]) == Some(id)
    ensures Served(Step(s, t, c), id)
  {
    assert Owner(Step(s, t, c), OfTask(t)) == Some(id) && !Stranded(Step(s, t, c), OfTask(t));
  }

  /** What a release leaves: a finished job, unless it loses it. */
  lemma ReleasedIsFinished(s: Calls, t: nat, c: Choice, id: string)
    requires Safe(s) && t in s.tasks && Releases(s, t, c) == Some(id) && id in s.store.jobs
    ensures Unfinished(Step(s, t, c), id) <==> Loses(s, t, c)
  {
  }

  lemma AbandonedIsUnfinished(s: Calls, t: nat, c: Choice, id: string)
    requires t in s.tasks && Abandons(s, t, c, id)
    ensures Unfinished(Step(s, t, c), id) <==> Loses(s, t, c)
  {
  }

  /** From a state in which nobody is missing, a call loses a job if and only if it is one of those
      three. */
  lemma CallLosesIff(s: Calls, t: nat, c: Choice)
    requires Safe(s) && NoneLost(s) && t in s.tasks
    ensures NoneLost(Step(s, t, c)) <==> !Loses(s, t, c)
  {
    if Loses(s, t, c) {
      LosesOne(s, t, c);
    } else {
      forall id | Unfinished(Step(s, t, c), id)
        ensures Served(Step(s, t, c), id)
      {
        UnfinishedHadOwner(s, t, c, id);
        if Served(s, id) {
          ServedAfter(s, t, c, id);
          if Releases(s, t, c) == Some(id) {
            var x :| Owner(s, x) == Some(id);
            ReleasedIsFinished(s, t, c, id);
          } else if Abandons(s, t, c, id) {
            AbandonedIsUnfinished(s, t, c, id);
          }
        }
      }
    }
  }

  lemma LosesOne(s: Calls, t: nat, c: Choice)
    requires Safe(s) && NoneLost(s) && t in s.tasks && Loses(s, t, c)
    ensures !NoneLost(Step(s, t, c))
  {
    var id := s.tasks[t].j.id;
    ServedAfter(s, t, c, id);
    if s.tasks[t].Carrying? {
      AbandonedIsUnfinished(s, t, c, id);
    } else {
      ReleasedIsFinished(s, t, c, id);
    }
  }

  /** The event leaves a pool without a worker, stopped, and with an unfinished job in its channel. */
  ghost predicate Strands(s: Calls, e: Event)
    requires Possible(s, e)
  {
    exists p, k: nat :: StrandsAt(s, Next(s, e), p, k)
  }

  ghost predicate StrandsAt(s: Calls, s': Calls, p: string, k: nat) {
    Live(s, p) && !Live(s', p) && k < |s.Channel(p)| && Unfinished(s, s.Channel(p)[k].id)
  }

  ghost predicate EventLoses(s: Calls, e: Event)
    requires Possible(s, e)
  {
    if e.Call? then Loses(s, e.t, e.choice) else Strands(s, e)
  }

  lemma StrandsOne(s: Calls, e: Event, p: string, k: nat)
    requires Safe(s) && Possible(s, e) && !e.Call? && StrandsAt(s, Next(s, e), p, k)
    ensures !NoneLost(Next(s, e))
  {
    var id := s.Channel(p)[k].id;
    EventKeepsSafe(s, e);
    OtherEventStays(s, e, OfChannel(p, k));
    OnlyOwner(Next(s, e), OfChannel(p, k), id);
    assert Unfinished(Next(s, e), id);
  }

  lemma EventLosesIff(s: Calls, e: Event)
    requires Safe(s) && NoneLost(s) && Possible(s, e)
    ensures NoneLost(Next(s, e)) <==> !EventLoses(s, e)
  {
    if e.Call? {
      CallLosesIff(s, e.t, e.choice);
    } else if Strands(s, e) {
      var p, k: nat :| StrandsAt(s, Next(s, e), p, k);
      StrandsOne(s, e, p, k);
    } else {
      forall id | Unfinished(Next(s, e), id)
        ensures Served(Next(s, e), id)
      {
        assert Unfinished(s, id);
        var x :| Owner(s, x) == Some(id) && !Stranded(s, x);
        OtherEventStays(s, e, x);
        assert Owner(Next(s, e), x) == Some(id);
        if x.OfChannel? {
          assert !StrandsAt(s, Next(s, e), x.p, x.k);
        }
      }
    }
  }

  /** No job is missing at any point of a run. */
  ghost predicate NeverLost(s: Calls, events: seq<Event>)
    decreases |events|
  {
    NoneLost(s) && (events != [] ==> Possible(s, events[0]) && NeverLost(Next(s, events[0]), events[1..]))
  }

  /** No event of the run loses a job. */
  ghost predicate NoLosingEvent(s: Calls, events: seq<Event>)
    decreases |events|
  {
    events != [] ==>
      && Possible(s, events[0]) && !EventLoses(s, events[0])
      && NoLosingEvent(Next(s, events[0]), events[1..])
  }

  /** Over every run of storage calls, starts, stops and exits, no job is ever missing if and only if no
      event of the run is one of those that lose. */
  lemma {:induction false} NeverLostIff(s: Calls, events: seq<Event>, s': Calls)
    requires Safe(s) && NoneLost(s) && Happens(s, events, s')
    ensures NeverLost(s, events) <==> NoLosingEvent(s, events)
    decreases |events|
  {
    if events != [] {
      var next := Next(s, events[0]);
      EventLosesIff(s, events[0]);
      EventKeepsSafe(s, events[0]);
      assert Happens(next, events[1..], s');
      if NoneLost(next) {
        NeverLostIff(next, events[1..], s');
      }
    }
  }
}
