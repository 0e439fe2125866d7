/** When a job can still be executed, and when a cancellation prevents it, call by call. */
module CallCancellation {
  import opened Jobs
  import opened MemoryStorage
  import opened QueueManager
  import opened CallInterleaving
  import opened CallOutcomes
  import A = CallAttempts

  // ---- which jobs can still start ----

  /** What stands for the job at x can lead to a start: anything but a last attempt under way and the
      channel of a stopped pool without a worker. */
  ghost predicate Startable(s: Calls, x: Spot, id: string) {
    Owner(s, x) == Some(id) && !LastAttempt(At(s, x).value) && !Stranded(s, x)
  }

  predicate LastAttempt(h: Held) {
    h.Tended? && (h.task.Handling? || h.task.Failing?) && !h.task.j.CanRetry()
  }

  ghost predicate Stuck(s: Calls, id: string) {
    forall x :: !Startable(s, x, id)
  }

  function Starts(s: Calls, id: string): seq<int> {
    if id in s.traces then s.traces[id].starts else []
  }

  /** Some continuation starts another attempt. */
  ghost predicate CanStart(s: Calls, id: string) {
    exists events, s' :: Happens(s, events, s') && Starts(s', id) != Starts(s, id)
  }

  lemma OwnLastAttempt(s: Calls, t: nat, c: Choice, id: string)
    requires Safe(s) && t in s.tasks && Owned(s.tasks[t]) == Some(id) && Stuck(s, id)
    ensures Stuck(Step(s, t, c), id) && Starts(Step(s, t, c), id) == Starts(s, id)
  {
    assert At(s, OfTask(t)) == Some(Tended(s.tasks[t]));
    assert !Startable(s, OfTask(t), id);
    OwnStored(s, t);
    CallKeepsSafe(s, t, c);
    CallReleasesIff(s, t, c, id);
    var s' := Step(s, t, c);
    LastAttemptStep(s, t, c, id);
    forall x
      ensures !Startable(s', x, id)
    {
      if Owner(s', x) == Some(id) {
        assert Owner(s', OfTask(t)) == Some(id);
      }
    }
  }

  lemma LastAttemptStep(s: Calls, t: nat, c: Choice, id: string)
    requires t in s.tasks && Owned(s.tasks[t]) == Some(id) && LastAttempt(Tended(s.tasks[t]))
    requires id in s.store.jobs && id in s.traces
    ensures var s' := Step(s, t, c);
      && t in s'.tasks && Starts(s', id) == Starts(s, id)
      && (Releases(s, t, c) != Some(id) ==> Owned(s'.tasks[t]) == Some(id) && LastAttempt(Tended(s'.tasks[t])))
  {
  }

  lemma StuckStays(s: Calls, e: Event, id: string)
    requires Safe(s) && Possible(s, e) && id in s.store.jobs && Stuck(s, id)
    ensures Stuck(Next(s, e), id) && Starts(Next(s, e), id) == Starts(s, id)
  {
    if !e.Call? {
      forall x
        ensures !Startable(Next(s, e), x, id)
      {
        OtherEventStays(s, e, x);
        assert !Startable(s, x, id);
        if Stranded(s, x) { DeadStays(s, e, x.p); }
      }
    } else if Owned(s.tasks[e.t]) == Some(id) {
      OwnLastAttempt(s, e.t, e.choice, id);
    } else {
      A.ForeignWrite(s, e.t, e.choice, id);
      var f := CallFlow(s, e.t, e.choice);
      forall p ensures Live(Next(s, e), p) ==> Live(s, p) { CallKeepsLive(s, e.t, e.choice, p); }
      forall x
        ensures !Startable(Next(s, e), x, id)
      {
        StuckElsewhere(s, Next(s, e), e.t, f, Releases(s, e.t, e.choice), x, id);
      }
    }
  }

  lemma StuckElsewhere(s: Calls, s': Calls, t: nat, f: Flow, released: Option<string>, x: Spot, id: string)
    requires t in s.tasks && IsFlow(s, s', t, f, released) && id in s.store.jobs && Stuck(s, id)
    requires Owned(s.tasks[t]) != Some(id) && forall p :: Live(s', p) ==> Live(s, p)
    ensures !Startable(s', x, id)
  {
    assert CameFrom(s, s', f, x);
    if Some(x) != f.to {
      assert !Startable(s, From(f.gap, x), id);
    } else {
      A.ToIsOwn(s, s', t, f, released);
      if f.src.Some? {
        assert !Startable(s, f.src.value, id);
        if f.src.value.OfChannel? {
          assert WorksFor(s, t, f.src.value.p);
        }
      }
    }
  }

  lemma {:induction false} StuckForever(s: Calls, events: seq<Event>, s': Calls, id: string)
    requires Safe(s) && Happens(s, events, s') && id in s.store.jobs && Stuck(s, id)
    ensures Starts(s', id) == Starts(s, id)
    decreases |events|
  {
    if events != [] {
      StuckStays(s, events[0], id);
      EventKeepsSafe(s, events[0]);
      if events[0].Call? { CallRecords(s, events[0].t, events[0].choice); }
      StuckForever(Next(s, events[0]), events[1..], s', id);
    }
  }

  // ---- the way to a start ----

  /** A continuation that leaves the job's attempts as they are. */
  ghost predicate Onward(s: Calls, s': Calls, id: string) {
    && (exists events :: Happens(s, events, s'))
    && id in s'.store.jobs && id in s'.traces && Starts(s', id) == Starts(s, id)
    && Safe(s')
  }

  lemma OnwardThen(s: Calls, s1: Calls, s2: Calls, id: string)
    requires Onward(s, s1, id) && Onward(s1, s2, id)
    ensures Onward(s, s2, id)
  {
    var first :| Happens(s, first, s1);
    var second :| Happens(s1, second, s2);
    HappensBoth(s, first, s1, second, s2);
  }

  lemma OnwardEvent(s: Calls, e: Event, id: string)
    requires Safe(s) && Possible(s, e) && id in s.store.jobs
    requires e.Call? && s.tasks[e.t].Received? ==> s.tasks[e.t].j.id != id
    ensures Onward(s, Next(s, e), id)
  {
    assert [e][1..] == [];
    assert Happens(s, [e], Next(s, e));
    EventKeepsSafe(s, e);
    if e.Call? {
      CallRecords(s, e.t, e.choice);
      OnlyStartStarts(s, e.t, e.choice, id);
    }
  }

  lemma OnlyStartStarts(s: Calls, t: nat, c: Choice, id: string)
    requires Safe(s) && t in s.tasks && id in s.store.jobs
    requires s.tasks[t].Received? ==> s.tasks[t].j.id != id
    ensures Starts(Step(s, t, c), id) == Starts(s, id)
  {
    var k := s.tasks[t];
    if Owned(k) != Some(id) {
      A.ForeignWrite(s, t, c, id);
    } else if k.Failing? {
      FailStarts(s.(now := c.now), t, k.p, k.j, c.config);
    } else {
      QuietTrace(s, t, c);
    }
  }

  lemma FailStarts(s: Calls, t: nat, p: string, j: Job, config: Option<QueueConfig>)
    requires j.id in s.traces
    ensures Starts(Fail(s, t, p, j, config), j.id) == Starts(s, j.id)
  {
  }

  lemma QuietTrace(s: Calls, t: nat, c: Choice)
    requires t in s.tasks && Owned(s.tasks[t]).Some? && !s.tasks[t].Received? && !s.tasks[t].Failing?
    ensures Step(s, t, c).traces == s.traces
  {
    var k := s.tasks[t];
    if Fetcher(k) {
    } else {
      assert k.Created? || k.Buried? || k.Handling? || k.Resaving? || k.Requeueing?;
    }
  }

  /** A worker can come to hold the job, ready to start it. */
  ghost predicate CanReceive(s: Calls, id: string) {
    exists s', u :: Onward(s, s', id) && ReadyAt(s', u, id)
  }

  predicate ReadyAt(s: Calls, u: nat, id: string) {
    u in s.tasks && s.tasks[u].Received? && s.tasks[u].j.id == id
  }

  lemma CanReceiveLater(s: Calls, s1: Calls, id: string)
    requires Onward(s, s1, id) && CanReceive(s1, id)
    ensures CanReceive(s, id)
  {
    var s', u :| Onward(s1, s', id) && ReadyAt(s', u, id);
    OnwardThen(s, s1, s', id);
  }

  lemma {:induction false} NewTask(keys: set<nat>) returns (u: nat)
    ensures forall k :: k in keys ==> k < u
    decreases keys
  {
    if keys == {} {
      u := 0;
    } else {
      var k :| k in keys;
      var v := NewTask(keys - {k});
      u := if v <= k then k + 1 else v;
      assert forall i :: i in keys ==> i == k || i in keys - {k};
    }
  }

  const GO := Choice("", true, None, 0)

  /** How many of its own calls a worker is at most away from receiving. */
  function Away(task: Task): nat {
    match task
    case Received(_, _) => 10
    case Handling(_, _) => 9
    case Failing(_, _) => 8
    case Condemned(_, _) => 7
    case Judging(_, _) => 6
    case Burying(_, _) => 5
    case Interring(_, _) => 4
    case Resaving(_, _, _) => 4
    case Buried(_, _) => 3
    case Requeueing(_, _, _) => 3
    case Succeeded(_, _) => 3
    case Mourning(_) => 2
    case Repeating(_) => 2
    case Finishing(_) => 2
    case Blaming(_) => 1
    case Crediting(_) => 1
    case _ => 0
  }

  /** The worker of pool p comes nearer and leaves the channels alone. */
  ghost predicate Nearer(s: Calls, s': Calls, u: nat) {
    && u in s.tasks && u in s'.tasks && Away(s'.tasks[u]) < Away(s.tasks[u]) && s'.channels == s.channels
  }

  lemma RunnerNearer(s: Calls, u: nat, c: Choice)
    requires u in s.tasks && Runner(s.tasks[u]) && !s.tasks[u].Waiting? && c.yes
    ensures Nearer(s, Step(s, u, c), u)
  {
  }

  lemma FailingNearer(s: Calls, u: nat, p: string, j: Job)
    requires u in s.tasks
    ensures var s' := Fail(s, u, p, j, None); u in s'.tasks && Away(s'.tasks[u]) < 8 && s'.channels == s.channels
  {
  }

  lemma FailerNearer(s: Calls, u: nat, c: Choice)
    requires u in s.tasks && Failer(s.tasks[u]) && c.config.None?
    ensures Nearer(s, Step(s, u, c), u)
  {
    if s.tasks[u].Failing? {
      FailingNearer(s.(now := c.now), u, s.tasks[u].p, s.tasks[u].j);
    }
  }

  lemma WinnerNearer(s: Calls, u: nat, c: Choice)
    requires u in s.tasks && Winner(s.tasks[u])
    ensures Nearer(s, Step(s, u, c), u)
  {
  }

  lemma LoserNearer(s: Calls, u: nat, c: Choice)
    requires u in s.tasks && Loser(s.tasks[u]) && c.config.None?
    ensures Nearer(s, Step(s, u, c), u)
  {
  }

  lemma BurierNearer(s: Calls, u: nat, c: Choice)
    requires u in s.tasks && Burier(s.tasks[u]) && c.config.None?
    ensures Nearer(s, Step(s, u, c), u)
  {
  }

  lemma WorkerNearer(s: Calls, u: nat, c: Choice)
    requires u in s.tasks && WorkerOf(s.tasks[u]).Some? && !s.tasks[u].Waiting? && c.yes && c.config.None?
    ensures Nearer(s, Step(s, u, c), u)
  {
    var k := s.tasks[u];
    if Runner(k) { RunnerNearer(s, u, c); }
    else if Failer(k) { FailerNearer(s, u, c); }
    else if Winner(k) { WinnerNearer(s, u, c); }
    else if Loser(k) { LoserNearer(s, u, c); }
    else { BurierNearer(s, u, c); }
  }

  /** A worker gets ready to receive while the job stays where it is in the channel. */
  lemma {:induction false} WorkerReturns(s: Calls, u: nat, p: string, k: nat, id: string) returns (s1: Calls)
    requires Safe(s) && WorksFor(s, u, p) && Owner(s, OfChannel(p, k)) == Some(id)
    ensures Onward(s, s1, id) && Owner(s1, OfChannel(p, k)) == Some(id)
    ensures u in s1.tasks && s1.tasks[u] == Waiting(p)
    decreases if u in s.tasks then Away(s.tasks[u]) else 0
  {
    assert id in s.store.jobs;
    if s.tasks[u].Waiting? {
      s1 := s;
      SelfOnward(s, id);
    } else {
      var c := GO.(now := s.now);
      assert Owner(s, OfTask(u)) != Some(id);
      OnwardEvent(s, Call(u, c), id);
      CallSamePool(s, u, c);
      WorkerNearer(s, u, c);
      assert Step(s, u, c).Channel(p) == s.Channel(p);
      s1 := WorkerReturns(Step(s, u, c), u, p, k, id);
      OnwardThen(s, Step(s, u, c), s1, id);
    }
  }

  /** A worker of a live pool stands ready, a new one if the pool is not stopped. */
  lemma WorkerReady(s: Calls, p: string, k: nat, id: string) returns (s1: Calls, u: nat)
    requires Safe(s) && Live(s, p) && Owner(s, OfChannel(p, k)) == Some(id)
    ensures Onward(s, s1, id) && Owner(s1, OfChannel(p, k)) == Some(id)
    ensures u in s1.tasks && s1.tasks[u] == Waiting(p)
  {
    assert id in s.store.jobs;
    if p !in s.stopped {
      u := NewTask(s.tasks.Keys);
      s1 := Next(s, Begin(u, Waiting(p)));
      OnwardEvent(s, Begin(u, Waiting(p)), id);
    } else {
      u :| WorksFor(s, u, p);
      s1 := WorkerReturns(s, u, p, k, id);
    }
  }

  /** And receives the head of the channel. */
  lemma ReceiveHead(s: Calls, p: string, k: nat, id: string) returns (s2: Calls, u: nat)
    requires Safe(s) && Live(s, p) && Owner(s, OfChannel(p, k)) == Some(id)
    ensures Onward(s, s2, id) && Live(s2, p)
    ensures if k == 0 then ReadyAt(s2, u, id) else Owner(s2, OfChannel(p, k - 1)) == Some(id)
  {
    var s1;
    s1, u := WorkerReady(s, p, k, id);
    s2 := ReceiveReady(s1, u, p, k, id);
    OnwardThen(s, s1, s2, id);
  }

  lemma ReceiveReady(s: Calls, u: nat, p: string, k: nat, id: string) returns (s': Calls)
    requires Safe(s) && u in s.tasks && s.tasks[u] == Waiting(p) && Owner(s, OfChannel(p, k)) == Some(id)
    ensures Onward(s, s', id) && Live(s', p)
    ensures if k == 0 then ReadyAt(s', u, id) else Owner(s', OfChannel(p, k - 1)) == Some(id)
  {
    var c := GO.(now := s.now);
    s' := Step(s, u, c);
    ReceiveOne(s, u, p, c);
    assert id in s.store.jobs;
    OnwardEvent(s, Call(u, c), id);
    assert WorksFor(s', u, p);
    assert k > 0 ==> At(s', OfChannel(p, k - 1)) == At(s, OfChannel(p, k));
  }

  lemma ReceiveOne(s: Calls, u: nat, p: string, c: Choice)
    requires u in s.tasks && s.tasks[u] == Waiting(p) && s.Channel(p) != []
    ensures var s' := Step(s, u, c);
      u in s'.tasks && s'.tasks[u] == Received(p, s.Channel(p)[0]) && s'.Channel(p) == s.Channel(p)[1..]
  {
  }

  lemma {:induction false} FromChannel(s: Calls, p: string, k: nat, id: string)
    requires Safe(s) && Live(s, p) && Owner(s, OfChannel(p, k)) == Some(id)
    ensures CanReceive(s, id)
    decreases k
  {
    var s2, u := ReceiveHead(s, p, k, id);
    if k > 0 {
      FromChannel(s2, p, k - 1, id);
      CanReceiveLater(s, s2, id);
    }
  }

  lemma SelfOnward(s: Calls, id: string)
    requires Safe(s) && id in s.store.jobs
    ensures Onward(s, s, id)
  {
    assert Happens(s, [], s);
  }

  /** One call brings the job on to where it can be received. */
  lemma FromCall(s: Calls, t: nat, c: Choice, id: string)
    requires Safe(s) && t in s.tasks && Possible(s, Call(t, c)) && id in s.store.jobs && !s.tasks[t].Received?
    requires CanReceive(Step(s, t, c), id)
    ensures CanReceive(s, id)
  {
    OnwardEvent(s, Call(t, c), id);
    CanReceiveLater(s, Step(s, t, c), id);
  }

  /** Sent to a pool that is not stopped. */
  lemma FromSending(s: Calls, t: nat, id: string)
    requires Safe(s) && t in s.tasks && s.tasks[t].Carrying? && s.tasks[t].j.id == id && s.tasks[t].p !in s.stopped
    ensures CanReceive(s, id)
  {
    OwnStored(s, t);
    var c, p := GO.(now := s.now), s.tasks[t].p;
    var s1 := Step(s, t, c);
    assert At(s1, OfChannel(p, |s.Channel(p)|)) == Some(Sent(s.tasks[t].j));
    CallKeepsSafe(s, t, c);
    CallSamePool(s, t, c);
    FromChannel(s1, p, |s.Channel(p)|, id);
    FromCall(s, t, c, id);
  }

  lemma FromTaking(s: Calls, t: nat, id: string)
    requires Safe(s) && t in s.tasks && s.tasks[t].Dequeued? && s.tasks[t].id == id && s.tasks[t].p !in s.stopped
    ensures CanReceive(s, id)
  {
    OwnStored(s, t);
    var c := GO.(now := s.now);
    CallKeepsSafe(s, t, c);
    CallSamePool(s, t, c);
    FromSending(Step(s, t, c), t, id);
    FromCall(s, t, c, id);
  }

  /** A pool that was never stopped. */
  lemma {:induction false} NewPool(stopped: set<string>) returns (p: string)
    ensures forall q :: q in stopped ==> |q| < |p|
    decreases stopped
  {
    if stopped == {} {
      p := "p";
    } else {
      var q :| q in stopped;
      var r := NewPool(stopped - {q});
      p := r + q + "p";
      assert forall x :: x in stopped ==> x == q || x in stopped - {q};
    }
  }

  /** Poll after poll, until the entry is the one taken. */
  lemma {:induction false} FromQueue(s: Calls, q: string, k: nat, id: string)
    requires Safe(s) && Owner(s, OfQueue(q, k)) == Some(id)
    ensures CanReceive(s, id)
    decreases |s.store.Entries(q)|
  {
    assert id in s.store.jobs;
    var s2, u, p := FetcherReady(s, q, id);
    var e := s.store.Entries(q)[k];
    var c := Choice(q, true, None, if e.timestamp > s.now then e.timestamp else s.now);
    assert Due(s2.store.Entries(q)[k], c.now);
    FromPoll(s2, u, p, c, q, k, id);
    var s3 := Step(s2, u, c);
    CallSamePool(s2, u, c);
    OnwardEvent(s2, Call(u, c), id);
    OnwardThen(s, s2, s3, id);
    if s3.tasks[u] == Dequeued(p, id) {
      FromTaking(s3, u, id);
    } else {
      var k' :| Owner(s3, OfQueue(q, k')) == Some(id);
      FromQueue(s3, q, k', id);
    }
    CanReceiveLater(s, s3, id);
  }

  /** The queue is resumed, and a fetcher of a new pool polls it. */
  lemma FetcherReady(s: Calls, q: string, id: string) returns (s2: Calls, u: nat, p: string)
    requires Safe(s) && id in s.store.jobs
    ensures Onward(s, s2, id) && u in s2.tasks && s2.tasks[u] == Polling(p) && p !in s2.stopped
    ensures s2.now == s.now && s2.store.Entries(q) == s.store.Entries(q) && !s2.store.IsPaused(q)
  {
    u := NewTask(s.tasks.Keys);
    p := NewPool(s.stopped);
    var s1 := Next(s, SetPaused(q, false));
    OnwardEvent(s, SetPaused(q, false), id);
    s2 := Next(s1, Begin(u, Polling(p)));
    OnwardEvent(s1, Begin(u, Polling(p)), id);
    OnwardThen(s, s1, s2, id);
  }

  lemma FromPoll(s: Calls, u: nat, p: string, c: Choice, q: string, k: nat, id: string)
    requires u in s.tasks && s.tasks[u] == Polling(p) && c.q == q && !s.store.IsPaused(q)
    requires k < |s.store.Entries(q)| && s.store.Entries(q)[k].jobId == id && Due(s.store.Entries(q)[k], c.now)
    ensures var s' := Step(s, u, c);
      && |s'.store.Entries(q)| < |s.store.Entries(q)| && u in s'.tasks
      && (s'.tasks[u] == Dequeued(p, id) || exists k' :: Owner(s', OfQueue(q, k')) == Some(id))
  {
    var b := BestIndex(s.store.Entries(q), c.now);
    var s' := Step(s, u, c);
    assert s'.store.Entries(q) == RemoveAt(s.store.Entries(q), b);
    if b != k {
      assert Owner(s', OfQueue(q, if k < b then k else k - 1)) == Some(id);
    }
  }

  /** The goroutine appends the entry with its next call. */
  lemma FromEntering(s: Calls, t: nat, id: string)
    requires Safe(s) && t in s.tasks && Owned(s.tasks[t]) == Some(id)
    requires var k := s.tasks[t]; k.Created? || k.Buried? || k.Returning? || k.Requeueing?
    ensures CanReceive(s, id)
  {
    OwnStored(s, t);
    var c, q := GO.(now := s.now), s.tasks[t].j.queue;
    CallKeepsSafe(s, t, c);
    assert Owner(Step(s, t, c), OfQueue(q, |s.store.Entries(q)|)) == Some(id);
    FromQueue(Step(s, t, c), q, |s.store.Entries(q)|, id);
    FromCall(s, t, c, id);
  }

  /** A fetcher whose pool is stopped gives the job back. */
  lemma FromCarrying(s: Calls, t: nat, id: string)
    requires Safe(s) && t in s.tasks && s.tasks[t].Carrying? && s.tasks[t].j.id == id
    ensures CanReceive(s, id)
  {
    if s.tasks[t].p !in s.stopped {
      FromSending(s, t, id);
    } else {
      OwnStored(s, t);
      var c := Choice("", false, None, s.now);
      CallKeepsSafe(s, t, c);
      FromEntering(Step(s, t, c), t, id);
      FromCall(s, t, c, id);
    }
  }

  lemma FromDequeued(s: Calls, t: nat, id: string)
    requires Safe(s) && t in s.tasks && s.tasks[t].Dequeued? && s.tasks[t].id == id
    ensures CanReceive(s, id)
  {
    OwnStored(s, t);
    var c := GO.(now := s.now);
    CallKeepsSafe(s, t, c);
    FromCarrying(Step(s, t, c), t, id);
    FromCall(s, t, c, id);
  }

  lemma FromResaving(s: Calls, t: nat, id: string)
    requires Safe(s) && t in s.tasks && s.tasks[t].Resaving? && s.tasks[t].j.id == id
    ensures CanReceive(s, id)
  {
    OwnStored(s, t);
    var c := GO.(now := s.now);
    CallKeepsSafe(s, t, c);
    FromEntering(Step(s, t, c), t, id);
    FromCall(s, t, c, id);
  }

  lemma FromFailing(s: Calls, t: nat, id: string)
    requires Safe(s) && t in s.tasks && s.tasks[t].Failing? && s.tasks[t].j.id == id && s.tasks[t].j.CanRetry()
    ensures CanReceive(s, id)
  {
    OwnStored(s, t);
    var c := Choice("", true, Some(DefaultConfig("")), s.now);
    CallKeepsSafe(s, t, c);
    FromResaving(Step(s, t, c), t, id);
    FromCall(s, t, c, id);
  }

  lemma FromHandling(s: Calls, t: nat, id: string)
    requires Safe(s) && t in s.tasks && s.tasks[t].Handling? && s.tasks[t].j.id == id && s.tasks[t].j.CanRetry()
    ensures CanReceive(s, id)
  {
    OwnStored(s, t);
    var c := Choice("", false, None, s.now);
    CallKeepsSafe(s, t, c);
    FromFailing(Step(s, t, c), t, id);
    FromCall(s, t, c, id);
  }

  lemma FromTask(s: Calls, t: nat, id: string)
    requires Safe(s) && Startable(s, OfTask(t), id)
    ensures CanReceive(s, id)
  {
    var k := s.tasks[t];
    if k.Received? {
      OwnStored(s, t);
      SelfOnward(s, id);
      assert ReadyAt(s, t, id);
    }
    else if k.Carrying? { FromCarrying(s, t, id); }
    else if k.Dequeued? { FromDequeued(s, t, id); }
    else if k.Resaving? { FromResaving(s, t, id); }
    else if k.Failing? { FromFailing(s, t, id); }
    else if k.Handling? { FromHandling(s, t, id); }
    else { FromEntering(s, t, id); }
  }

  lemma ReadyCanStart(s: Calls, s1: Calls, u: nat, id: string)
    requires Onward(s, s1, id) && ReadyAt(s1, u, id)
    ensures CanStart(s, id)
  {
    var events :| Happens(s, events, s1);
    var e := Call(u, GO.(now := s1.now));
    HappensThen(s, events, s1, e);
    assert Starts(Next(s1, e), id) == Starts(s1, id) + [s1.now];
  }

  /** A job can ever start again if and only if a queue, the channel of a live pool or a goroutine stands
      for it, other than in a last attempt. */
  lemma CanStartIff(s: Calls, id: string)
    requires Safe(s) && id in s.store.jobs
    ensures CanStart(s, id) <==> exists x :: Startable(s, x, id)
  {
    if x :| Startable(s, x, id) {
      match x {
        case OfQueue(q, k) => FromQueue(s, q, k, id);
        case OfChannel(p, k) => FromChannel(s, p, k, id);
        case OfTask(t) => FromTask(s, t, id);
      }
      var s1, u :| Onward(s, s1, id) && ReadyAt(s1, u, id);
      ReadyCanStart(s, s1, u, id);
    } else {
      forall events, s' | Happens(s, events, s')
        ensures Starts(s', id) == Starts(s, id)
      {
        StuckForever(s, events, s', id);
      }
    }
  }

  // ---- cancelling a job that waits ----

  lemma RemoveWithoutEntry(s: Calls, t: nat, c: Choice)
    requires t in s.tasks && s.tasks[t].Marked? && Releases(s, t, c).None?
    ensures Step(s, t, c) == s.(now := c.now).With(t, Gone)
  {
  }

  lemma SameStarts(s: Calls, s': Calls, t: nat, now: int, id: string, x: Spot)
    requires t in s.tasks && s.tasks[t].Marked? && s' == s.(now := now).With(t, Gone)
    ensures Startable(s', x, id) <==> Startable(s, x, id)
  {
    assert At(s', x) == At(s, x);
    assert forall p, u :: WorksFor(s', u, p) <==> WorksFor(s, u, p);
  }

  /** An entry stands in the queue that a canceller's copy names. */
  lemma EntryInQueue(s: Calls, t: nat, x: Spot)
    requires A.Fit(s) && t in s.tasks && s.tasks[t].Marked? && x.OfQueue? && Owner(s, x) == Some(s.tasks[t].j.id)
    ensures x.q == s.tasks[t].j.queue
    ensures FirstOf(s.store.Entries(x.q), s.tasks[t].j.id) < |s.store.Entries(x.q)|
  {
    assert A.SpotOk(s, x) && A.TaskOk(s, s.tasks[t]);
  }

  /** After a canceller's Remove the job can still be executed if and only if, at the Remove, something
      other than its queue entry stands for it and can lead to a start. */
  lemma RemoveStopsIff(s: Calls, t: nat, c: Choice)
    requires A.Fit(s) && t in s.tasks && s.tasks[t].Marked? && s.now <= c.now
    ensures var id := s.tasks[t].j.id;
      CanStart(Step(s, t, c), id) <==> exists x :: Startable(s, x, id) && !x.OfQueue?
  {
    var id, s' := s.tasks[t].j.id, Step(s, t, c);
    assert A.TaskOk(s, s.tasks[t]);
    CallKeepsSafe(s, t, c);
    CallRecords(s, t, c);
    CanStartIff(s', id);
    if Releases(s, t, c) == Some(id) {
      var k := FirstOf(s.store.Entries(s.tasks[t].j.queue), id);
      assert Owner(s, OfQueue(s.tasks[t].j.queue, k)) == Some(id);
      CallReleasesIff(s, t, c, id);
    } else {
      RemoveWithoutEntry(s, t, c);
      forall x
        ensures Startable(s', x, id) <==> Startable(s, x, id) && !x.OfQueue?
      {
        SameStarts(s, s', t, c.now, id, x);
        if Startable(s, x, id) && x.OfQueue? {
          EntryInQueue(s, t, x);
        }
      }
    }
  }

  lemma StartsGrow(s: Calls, t: nat, c: Choice, id: string)
    requires Safe(s) && t in s.tasks && id in s.store.jobs
    ensures |Starts(s, id)| <= |Starts(Step(s, t, c), id)|
  {
    if s.tasks[t].Received? {
      OwnStored(s, t);
      if s.tasks[t].j.id != id { A.ForeignWrite(s, t, c, id); }
    } else {
      OnlyStartStarts(s, t, c, id);
    }
  }

  lemma {:induction false} RunsGrow(s: Calls, events: seq<Event>, s': Calls, id: string)
    requires Safe(s) && Happens(s, events, s') && id in s.store.jobs
    ensures |Starts(s, id)| <= |Starts(s', id)| && id in s'.store.jobs
    ensures |Starts(s, id)| == |Starts(s', id)| ==> Starts(s, id) == Starts(s', id)
    decreases |events|
  {
    if events != [] {
      EventKeepsSafe(s, events[0]);
      if events[0].Call? {
        CallRecords(s, events[0].t, events[0].choice);
        StartsGrow(s, events[0].t, events[0].choice, id);
        StartsAppend(s, events[0].t, events[0].choice, id);
      }
      RunsGrow(Next(s, events[0]), events[1..], s', id);
    }
  }

  lemma StartsAppend(s: Calls, t: nat, c: Choice, id: string)
    requires Safe(s) && t in s.tasks && id in s.store.jobs
    ensures Starts(Step(s, t, c), id) == Starts(s, id) || |Starts(Step(s, t, c), id)| == |Starts(s, id)| + 1
  {
    if s.tasks[t].Received? {
      OwnStored(s, t);
      if s.tasks[t].j.id != id { A.ForeignWrite(s, t, c, id); }
    } else {
      OnlyStartStarts(s, t, c, id);
    }
  }

  /** No attempt of the job starts after s, in any continuation of s'. */
  ghost predicate NeverExecuted(s: Calls, s': Calls, id: string) {
    forall more, end :: Happens(s', more, end) ==> Starts(end, id) == Starts(s, id)
  }

  /** A cancellation of a job, seen from any state s at or before it, up to the Remove at s1: the job
      is never executed from s on, in any continuation, if and only if it was not started before the
      Remove and then nothing that can lead to a start stands for it but its queue entry. */
  lemma CancellationWorksIff(s: Calls, events: seq<Event>, s1: Calls, t: nat, c: Choice)
    requires A.Fit(s) && Happens(s, events, s1)
    requires t in s1.tasks && s1.tasks[t].Marked? && s1.now <= c.now && s1.tasks[t].j.id in s.store.jobs
    ensures var id := s1.tasks[t].j.id;
      NeverExecuted(s, Step(s1, t, c), id)
      <==> Starts(s1, id) == Starts(s, id) && forall x :: Startable(s1, x, id) ==> x.OfQueue?
  {
    var id, s2 := s1.tasks[t].j.id, Step(s1, t, c);
    A.RunKeepsFit(s, events, s1);
    RunsGrow(s, events, s1, id);
    RemoveStopsIff(s1, t, c);
    OnlyStartStarts(s1, t, c, id);
    assert Happens(s2, [], s2);
    if NeverExecuted(s, s2, id) {
      assert Starts(s2, id) == Starts(s, id);
      assert !CanStart(s2, id);
    } else {
      var more, end :| Happens(s2, more, end) && Starts(end, id) != Starts(s, id);
      assert Starts(end, id) == Starts(s2, id) || CanStart(s2, id);
    }
  }

  // ---- an entry that no fetcher takes ----

  /** The event takes the job's entry from its queue. */
  ghost predicate TakesEntry(s: Calls, e: Event, id: string)
    requires Possible(s, e)
  {
    e.Call? && s.tasks[e.t].Polling? && Owned(Next(s, e).tasks[e.t]) == Some(id)
  }

  ghost predicate NeverTaken(s: Calls, events: seq<Event>, id: string)
    decreases |events|
  {
    events != [] ==>
      && Possible(s, events[0]) && !TakesEntry(s, events[0], id)
      && NeverTaken(Next(s, events[0]), events[1..], id)
  }

  ghost predicate OnlyQueued(s: Calls, id: string) {
    forall x :: Owner(s, x) == Some(id) ==> x.OfQueue?
  }

  lemma UntakenEvent(s: Calls, e: Event, id: string)
    requires Safe(s) && Possible(s, e) && id in s.store.jobs && OnlyQueued(s, id) && !TakesEntry(s, e, id)
    ensures OnlyQueued(Next(s, e), id) && Starts(Next(s, e), id) == Starts(s, id)
  {
    if e.Call? {
      assert Owner(s, OfTask(e.t)) != Some(id);
      A.ForeignWrite(s, e.t, e.choice, id);
      var f := CallFlow(s, e.t, e.choice);
      forall x | Owner(Next(s, e), x) == Some(id)
        ensures x.OfQueue?
      {
        UntakenSpot(s, e.t, e.choice, f, x, id);
      }
    } else {
      forall x | Owner(Next(s, e), x) == Some(id)
        ensures x.OfQueue?
      {
        OtherEventStays(s, e, x);
        assert Owner(s, x) == Some(id);
      }
    }
  }

  lemma UntakenSpot(s: Calls, t: nat, c: Choice, f: Flow, x: Spot, id: string)
    requires Safe(s) && t in s.tasks && id in s.store.jobs && OnlyQueued(s, id)
    requires s.tasks[t].Polling? ==> t in Step(s, t, c).tasks && Owned(Step(s, t, c).tasks[t]) != Some(id)
    requires IsFlow(s, Step(s, t, c), t, f, Releases(s, t, c)) && Owner(Step(s, t, c), x) == Some(id)
    ensures x.OfQueue?
  {
    assert CameFrom(s, Step(s, t, c), f, x);
    assert Owner(s, OfTask(t)) != Some(id);
    if Some(x) != f.to {
      assert Owner(s, From(f.gap, x)) == Some(id);
    } else {
      A.ToIsOwn(s, Step(s, t, c), t, f, Releases(s, t, c));
      assert Owner(s, f.src.value) == Some(id);
      OnlyPollsTake(s, t, c, f, id);
    }
  }

  /** Only a poll brings a queued job into a goroutine's care. */
  lemma OnlyPollsTake(s: Calls, t: nat, c: Choice, f: Flow, id: string)
    requires Safe(s) && t in s.tasks && Owned(s.tasks[t]).None? && id in s.store.jobs && OnlyQueued(s, id)
    requires t in Step(s, t, c).tasks && Owned(Step(s, t, c).tasks[t]) == Some(id)
    ensures s.tasks[t].Polling?
  {
    UnlessPolling(s, t, c, id);
  }

  lemma UnlessPolling(s: Calls, t: nat, c: Choice, id: string)
    requires Safe(s) && t in s.tasks && Owned(s.tasks[t]).None? && id in s.store.jobs && OnlyQueued(s, id)
    ensures s.tasks[t].Polling? || (t in Step(s, t, c).tasks ==> Owned(Step(s, t, c).tasks[t]) != Some(id))
  {
    var k := s.tasks[t];
    if k.Waiting? {
      assert Owner(s, OfChannel(k.p, 0)) != Some(id);
    } else if k.Creating? || k.Interring? {
      if k.j.id in s.store.jobs { A.RefusedWrite(s, t, c); }
    } else if !k.Polling? {
      OthersTakeNothing(s, t, c);
    }
  }

  lemma OthersTakeNothing(s: Calls, t: nat, c: Choice)
    requires t in s.tasks && Owned(s.tasks[t]).None?
    requires var k := s.tasks[t]; !k.Waiting? && !k.Creating? && !k.Interring? && !k.Polling?
    ensures t in Step(s, t, c).tasks ==> Owned(Step(s, t, c).tasks[t]).None?
  {
    var k := s.tasks[t];
    if Submitter(k) || Canceller(k) {
    } else if Burier(k) {
    } else {
      assert Winner(k) || Loser(k) || k.Repeating?;
    }
  }

  lemma {:induction false} UntakenRun(s: Calls, events: seq<Event>, s': Calls, id: string)
    requires Safe(s) && Happens(s, events, s') && id in s.store.jobs
    requires OnlyQueued(s, id) && NeverTaken(s, events, id)
    ensures OnlyQueued(s', id) && Starts(s', id) == Starts(s, id)
    decreases |events|
  {
    if events != [] {
      UntakenEvent(s, events[0], id);
      EventKeepsSafe(s, events[0]);
      if events[0].Call? { CallRecords(s, events[0].t, events[0].choice); }
      UntakenRun(Next(s, events[0]), events[1..], s', id);
    }
  }

  /** So a job cancelled while its entry waits, and taken by no fetcher before the Remove, is never
      executed, in any continuation. */
  lemma UntakenMeansCancelled(s: Calls, events: seq<Event>, s1: Calls, t: nat, c: Choice)
    requires A.Fit(s) && Happens(s, events, s1)
    requires t in s1.tasks && s1.tasks[t].Marked? && s1.now <= c.now
    requires var id := s1.tasks[t].j.id;
      id in s.store.jobs && OnlyQueued(s, id) && NeverTaken(s, events, id)
    ensures NeverExecuted(s, Step(s1, t, c), s1.tasks[t].j.id)
  {
    UntakenRun(s, events, s1, s1.tasks[t].j.id);
    CancellationWorksIff(s, events, s1, t, c);
  }
}
