/** The counters under every interleaving of storage calls: what they say differs from what happened by
    exactly the goroutines that stand between an outcome and its counter. */
module CallCounters {
  import opened Jobs
  import opened MemoryStorage
  import opened CallInterleaving
  import opened Sums
  import P = PoolProtocol

  /** Where a goroutine stands: between CreateJob and RecordJobCreated, in an attempt, between SUCCESS and
      RecordJobCompleted, between a failure and RecordJobRetried or RecordJobFailed. */
  datatype Desk = Elsewhere | Creation | Attempt | Won | Lost

  function DeskOf(task: Task): Desk {
    match task
    case Created(_) => Creation
    case Counting => Creation
    case Buried(_, _) => Creation
    case Mourning(_) => Creation
    case Handling(_, _) => Attempt
    case Failing(_, _) => Attempt
    case Succeeded(_, _) => Won
    case Finishing(_) => Won
    case Resaving(_, _, _) => Lost
    case Requeueing(_, _, _) => Lost
    case Repeating(_) => Lost
    case Condemned(_, _) => Lost
    case _ => Elsewhere
  }

  ghost function Standing(s: Calls, desk: Desk): set<nat> {
    set t | t in s.tasks && DeskOf(s.tasks[t]) == desk
  }

  ghost function Count(s: Calls, desk: Desk): nat {
    |Standing(s, desk)|
  }

  // ---- what happened ----

  ghost function StartsIn(s: Calls): string -> int {
    (id: string) => if id in s.traces then |s.traces[id].starts| else 0
  }

  ghost function FailuresIn(s: Calls): string -> int {
    (id: string) => if id in s.traces then |s.traces[id].failures| else 0
  }

  /** Attempts started, and attempts failed, of all jobs together. */
  ghost function Starts(s: Calls): int {
    Sum(s.traces.Keys, StartsIn(s))
  }

  ghost function Failures(s: Calls): int {
    Sum(s.traces.Keys, FailuresIn(s))
  }

  ghost predicate Balanced(s: Calls) {
    && |s.store.jobs| == s.store.created + Count(s, Creation)
    && Failures(s) == s.store.failed + s.store.retried + s.dropped + Count(s, Lost)
    && Starts(s) == Failures(s) + s.store.completed + Count(s, Attempt) + Count(s, Won)
  }

  // ---- one call ----

  function One(b: bool): int {
    if b then 1 else 0
  }

  lemma OneElement(a: set<nat>, b: set<nat>, t: nat)
    requires forall u :: u != t ==> (u in b <==> u in a)
    ensures |b| == |a| + One(t in b) - One(t in a)
  {
    var rest := a - {t};
    assert rest == b - {t};
    assert a == if t in a then rest + {t} else rest;
    assert b == if t in b then rest + {t} else rest;
  }

  lemma CountAfter(s: Calls, s': Calls, t: nat, desk: Desk)
    requires t in s.tasks && t in s'.tasks && s'.tasks == s.tasks[t := s'.tasks[t]]
    ensures Count(s', desk) == Count(s, desk) + One(DeskOf(s'.tasks[t]) == desk) - One(DeskOf(s.tasks[t]) == desk)
  {
    forall u | u != t
      ensures u in Standing(s', desk) <==> u in Standing(s, desk)
    {
      assert u in s'.tasks <==> u in s.tasks;
    }
    OneElement(Standing(s, desk), Standing(s', desk), t);
  }

  lemma CountBegun(s: Calls, s': Calls, t: nat, desk: Desk)
    requires t !in s.tasks && t in s'.tasks && s'.tasks == s.tasks[t := s'.tasks[t]] && DeskOf(s'.tasks[t]) != desk
    ensures Count(s', desk) == Count(s, desk)
  {
    assert Standing(s', desk) == Standing(s, desk);
  }

  /** What one call books: how many jobs, starts and failures it adds. */
  datatype Booking = Booking(jobs: int, starts: int, failures: int)

  /** The counters. */
  datatype Books = Books(created: int, completed: int, failed: int, dropped: int)

  function BooksOf(s: Calls): Books {
    Books(s.store.created, s.store.completed, s.store.failed + s.store.retried, s.dropped)
  }

  /** From desk d to desk d', with the counters turning from x into y, b happened. */
  predicate Even(d: Desk, d': Desk, x: Books, y: Books, b: Booking) {
    && b.jobs == y.created - x.created + One(d' == Creation) - One(d == Creation)
    && b.failures == y.failed - x.failed + y.dropped - x.dropped + One(d' == Lost) - One(d == Lost)
    && b.starts == b.failures + y.completed - x.completed
                   + One(d' == Attempt) - One(d == Attempt) + One(d' == Won) - One(d == Won)
  }

  /** And the records and histories show it. */
  ghost predicate Shows(s: Calls, s': Calls, b: Booking) {
    && |s'.store.jobs| == |s.store.jobs| + b.jobs
    && Starts(s') == Starts(s) + b.starts && Failures(s') == Failures(s) + b.failures
  }

  lemma BooksBalance(s: Calls, s': Calls, t: nat, b: Booking)
    requires Balanced(s) && Shows(s, s', b)
    requires t in s.tasks && t in s'.tasks && s'.tasks == s.tasks[t := s'.tasks[t]]
    requires Even(DeskOf(s.tasks[t]), DeskOf(s'.tasks[t]), BooksOf(s), BooksOf(s'), b)
    ensures Balanced(s')
  {
    CountAfter(s, s', t, Creation);
    CountAfter(s, s', t, Lost);
    CountAfter(s, s', t, Attempt);
    CountAfter(s, s', t, Won);
  }

  const NOTHING := Booking(0, 0, 0)

  lemma SameSize(a: map<string, Job>, b: map<string, Job>)
    requires a.Keys == b.Keys
    ensures |a| == |b|
  {
    assert |a| == |a.Keys| && |b| == |b.Keys|;
  }

  lemma SameTraces(s: Calls, s': Calls)
    requires s'.store.jobs.Keys == s.store.jobs.Keys && s'.traces == s.traces
    ensures Shows(s, s', NOTHING)
  {
    SumSame(s.traces.Keys, StartsIn(s), StartsIn(s'));
    SumSame(s.traces.Keys, FailuresIn(s), FailuresIn(s'));
    SameSize(s.store.jobs, s'.store.jobs);
  }

  lemma NewTrace(s: Calls, s': Calls, id: string)
    requires id !in s.traces && id in s'.traces && s'.traces == s.traces[id := s'.traces[id]]
    requires s'.traces[id].starts == [] && s'.traces[id].failures == []
    ensures Starts(s') == Starts(s) && Failures(s') == Failures(s)
  {
    assert s'.traces.Keys == s.traces.Keys + {id};
    SumNew(s.traces.Keys, StartsIn(s), StartsIn(s'), id);
    SumNew(s.traces.Keys, FailuresIn(s), FailuresIn(s'), id);
  }

  lemma LongerTrace(s: Calls, s': Calls, id: string)
    requires id in s.traces && id in s'.traces && s'.traces == s.traces[id := s'.traces[id]]
    ensures Starts(s') == Starts(s) + |s'.traces[id].starts| - |s.traces[id].starts|
    ensures Failures(s') == Failures(s) + |s'.traces[id].failures| - |s.traces[id].failures|
  {
    assert s'.traces.Keys == s.traces.Keys;
    SumChange(s.traces.Keys, StartsIn(s), StartsIn(s'), id);
    SumChange(s.traces.Keys, FailuresIn(s), FailuresIn(s'), id);
  }

  // ---- every kind of call ----

  /** A call of task t that books b. */
  ghost predicate Booked(s: Calls, s': Calls, t: nat, b: Booking) {
    && t in s.tasks && t in s'.tasks
    && Even(DeskOf(s.tasks[t]), DeskOf(s'.tasks[t]), BooksOf(s), BooksOf(s'), b) && Shows(s, s', b)
  }

  /** Calls that write no history and store no job. */
  lemma PlainBooks(s: Calls, s': Calls, t: nat)
    requires t in s.tasks && t in s'.tasks && s'.store.jobs.Keys == s.store.jobs.Keys && s'.traces == s.traces
    requires Even(DeskOf(s.tasks[t]), DeskOf(s'.tasks[t]), BooksOf(s), BooksOf(s'), NOTHING)
    ensures Booked(s, s', t, NOTHING)
  {
    SameTraces(s, s');
  }

  lemma CreateKeeps(s: Calls, t: nat, j: Job, created: Task, refused: Task)
    requires t in s.tasks && DeskOf(s.tasks[t]) == Elsewhere && j.id !in s.store.jobs
    requires DeskOf(created) == Creation && DeskOf(refused) == Elsewhere
    ensures var s' := Create(s, t, j, created, refused);
      && t in s'.tasks && Even(Elsewhere, DeskOf(s'.tasks[t]), BooksOf(s), BooksOf(s'), Booking(1, 0, 0))
      && s'.store.jobs.Keys == s.store.jobs.Keys + {j.id}
      && s'.traces == s.traces[j.id := P.Trace(j.retryCount, [], [])]
  {
  }

  lemma CreateBooks(s: Calls, t: nat, j: Job, created: Task, refused: Task)
    requires t in s.tasks && Filed(s) && DeskOf(s.tasks[t]) == Elsewhere
    requires DeskOf(created) == Creation && DeskOf(refused) == Elsewhere
    ensures Booked(s, Create(s, t, j, created, refused), t, Booking(One(j.id !in s.store.jobs), 0, 0))
  {
    var s' := Create(s, t, j, created, refused);
    if j.id in s.store.jobs {
      PlainBooks(s, s', t);
    } else {
      CreateKeeps(s, t, j, created, refused);
      NewTrace(s, s', j.id);
      OneLarger(s.store.jobs, s'.store.jobs, j.id);
    }
  }

  lemma OneLarger(a: map<string, Job>, b: map<string, Job>, id: string)
    requires id !in a && b.Keys == a.Keys + {id}
    ensures |b| == |a| + 1
  {
    assert |a| == |a.Keys| && |b| == |b.Keys|;
  }

  lemma StartKeeps(s: Calls, t: nat, p: string, j: Job)
    requires t in s.tasks && DeskOf(s.tasks[t]) == Elsewhere && j.id in s.store.jobs && j.id in s.traces
    ensures var s' := Start(s, t, p, j);
      && t in s'.tasks && Even(Elsewhere, DeskOf(s'.tasks[t]), BooksOf(s), BooksOf(s'), Booking(0, 1, 0))
      && s'.store.jobs.Keys == s.store.jobs.Keys
      && s'.traces == s.traces[j.id := s.traces[j.id].(starts := s.traces[j.id].starts + [s.now])]
  {
  }

  lemma StartBooks(s: Calls, t: nat, p: string, j: Job)
    requires t in s.tasks && Filed(s) && DeskOf(s.tasks[t]) == Elsewhere && j.id in s.store.jobs
    ensures Booked(s, Start(s, t, p, j), t, Booking(0, 1, 0))
  {
    var s' := Start(s, t, p, j);
    StartKeeps(s, t, p, j);
    LongerTrace(s, s', j.id);
    SameSize(s.store.jobs, s'.store.jobs);
  }

  lemma FailKeeps(s: Calls, t: nat, p: string, j: Job, config: Option<QueueConfig>)
    requires t in s.tasks && j.id in s.store.jobs && DeskOf(s.tasks[t]) == Attempt
    ensures var s' := Fail(s, t, p, j, config);
      && s'.store.jobs.Keys == s.store.jobs.Keys && t in s'.tasks
      && Even(Attempt, DeskOf(s'.tasks[t]), BooksOf(s), BooksOf(s'), Booking(0, 0, 1))
  {
    var s' := Fail(s, t, p, j, config);
    if !j.CanRetry() {
      assert s'.store == s.store.UpdateStatus(j.id, Failed, s.now);
    } else if config.Some? {
      assert s'.store == s.store.UpdateStatus(j.id, Retrying, s.now);
    }
  }

  lemma FailNotes(s: Calls, t: nat, p: string, j: Job, config: Option<QueueConfig>)
    requires j.id in s.traces
    ensures Fail(s, t, p, j, config).traces
         == s.traces[j.id := s.traces[j.id].(failures := s.traces[j.id].failures + [P.Failure(s.now, config)])]
  {
  }

  lemma FailBooks(s: Calls, t: nat, p: string, j: Job, config: Option<QueueConfig>)
    requires t in s.tasks && j.id in s.store.jobs && Filed(s) && DeskOf(s.tasks[t]) == Attempt
    ensures Booked(s, Fail(s, t, p, j, config), t, Booking(0, 0, 1))
  {
    var s' := Fail(s, t, p, j, config);
    FailKeeps(s, t, p, j, config);
    FailNotes(s, t, p, j, config);
    LongerTrace(s, s', j.id);
    SameSize(s.store.jobs, s'.store.jobs);
  }

  /** What the calls that store no job and write no history leave. */
  ghost predicate Quiet(s: Calls, s': Calls, t: nat) {
    && t in s.tasks && t in s'.tasks && s'.store.jobs.Keys == s.store.jobs.Keys && s'.traces == s.traces
    && Even(DeskOf(s.tasks[t]), DeskOf(s'.tasks[t]), BooksOf(s), BooksOf(s'), NOTHING)
  }

  lemma SubmitterQuiet(s: Calls, t: nat, c: Choice)
    requires t in s.tasks && Submitter(s.tasks[t]) && !s.tasks[t].Creating?
    ensures Quiet(s, Step(s, t, c), t)
  {
  }

  lemma BuryingQuiet(s: Calls, t: nat, c: Choice)
    requires t in s.tasks && s.tasks[t].Burying?
    ensures Quiet(s, Step(s, t, c), t)
  {
  }

  lemma BurierQuiet(s: Calls, t: nat, c: Choice)
    requires t in s.tasks && (s.tasks[t].Buried? || s.tasks[t].Mourning?)
    ensures Quiet(s, Step(s, t, c), t)
  {
  }

  lemma CancellerQuiet(s: Calls, t: nat, c: Choice)
    requires t in s.tasks && Canceller(s.tasks[t])
    ensures Quiet(s, Step(s, t, c), t)
  {
  }

  lemma FetcherQuiet(s: Calls, t: nat, c: Choice)
    requires t in s.tasks && Fetcher(s.tasks[t])
    requires Owned(s.tasks[t]).Some? ==> Owned(s.tasks[t]).value in s.store.jobs
    ensures Quiet(s, Step(s, t, c), t)
  {
  }

  lemma RunnerQuiet(s: Calls, t: nat, c: Choice)
    requires t in s.tasks && (s.tasks[t].Waiting? || s.tasks[t].Handling?)
    ensures Quiet(s, Step(s, t, c), t)
  {
  }

  lemma WinnerQuiet(s: Calls, t: nat, c: Choice)
    requires t in s.tasks && Winner(s.tasks[t])
    ensures Quiet(s, Step(s, t, c), t)
  {
  }

  lemma RepeatingQuiet(s: Calls, t: nat, c: Choice)
    requires t in s.tasks && s.tasks[t].Repeating?
    ensures Quiet(s, Step(s, t, c), t)
  {
  }

  lemma RetrierQuiet(s: Calls, t: nat, c: Choice)
    requires t in s.tasks && (s.tasks[t].Resaving? || s.tasks[t].Requeueing?)
    requires Owned(s.tasks[t]).Some? ==> Owned(s.tasks[t]).value in s.store.jobs
    ensures Quiet(s, Step(s, t, c), t)
  {
  }

  lemma JudgingQuiet(s: Calls, t: nat, c: Choice)
    requires t in s.tasks && s.tasks[t].Judging?
    ensures Quiet(s, Step(s, t, c), t)
  {
  }

  lemma LoserQuiet(s: Calls, t: nat, c: Choice)
    requires t in s.tasks && (s.tasks[t].Condemned? || s.tasks[t].Blaming?)
    ensures Quiet(s, Step(s, t, c), t)
  {
  }

  predicate BooksSome(task: Task) {
    task.Creating? || task.Interring? || task.Received? || task.Failing?
  }

  lemma OtherQuiet(s: Calls, t: nat, c: Choice)
    requires Safe(s) && t in s.tasks && !BooksSome(s.tasks[t])
    ensures Quiet(s, Step(s, t, c), t)
  {
    var k := s.tasks[t];
    if Owned(k).Some? { OwnStored(s, t); }
    if Submitter(k) { SubmitterQuiet(s, t, c); }
    else if k.Burying? { BuryingQuiet(s, t, c); }
    else if Burier(k) { BurierQuiet(s, t, c); }
    else if Canceller(k) { CancellerQuiet(s, t, c); }
    else if Fetcher(k) { FetcherQuiet(s, t, c); }
    else if Runner(k) { RunnerQuiet(s, t, c); }
    else if Winner(k) { WinnerQuiet(s, t, c); }
    else if k.Repeating? { RepeatingQuiet(s, t, c); }
    else if Failer(k) { RetrierQuiet(s, t, c); }
    else if k.Judging? { JudgingQuiet(s, t, c); }
    else { LoserQuiet(s, t, c); }
  }

  /** The clock is read first. */
  lemma Reclocked(s: Calls, now: int, s': Calls, t: nat, b: Booking)
    requires Booked(s.(now := now), s', t, b)
    ensures Booked(s, s', t, b)
  {
    SameTraces(s, s.(now := now));
  }

  lemma CreatorBooks(s: Calls, t: nat, c: Choice)
    requires Safe(s) && t in s.tasks && s.tasks[t].Creating?
    ensures Booked(s, Step(s, t, c), t, Booking(One(s.tasks[t].j.id !in s.store.jobs), 0, 0))
  {
    var k := s.tasks[t];
    CreateBooks(s.(now := c.now), t, k.j, Created(k.j), Gone);
    Reclocked(s, c.now, Step(s, t, c), t, Booking(One(k.j.id !in s.store.jobs), 0, 0));
  }

  lemma InterringCreates(s: Calls, t: nat, c: Choice)
    requires t in s.tasks && s.tasks[t].Interring?
    ensures var k := s.tasks[t]; Step(s, t, c) == Create(s.(now := c.now), t, k.j, Buried(k.p, k.j), Blaming(k.p))
  {
  }

  lemma InterrerBooks(s: Calls, t: nat, c: Choice)
    requires Safe(s) && t in s.tasks && s.tasks[t].Interring?
    ensures Booked(s, Step(s, t, c), t, Booking(One(s.tasks[t].j.id !in s.store.jobs), 0, 0))
  {
    var k := s.tasks[t];
    InterringCreates(s, t, c);
    CreateBooks(s.(now := c.now), t, k.j, Buried(k.p, k.j), Blaming(k.p));
    Reclocked(s, c.now, Step(s, t, c), t, Booking(One(k.j.id !in s.store.jobs), 0, 0));
  }

  lemma StarterBooks(s: Calls, t: nat, c: Choice)
    requires Safe(s) && t in s.tasks && s.tasks[t].Received?
    ensures Booked(s, Step(s, t, c), t, Booking(0, 1, 0))
  {
    OwnStored(s, t);
    StartBooks(s.(now := c.now), t, s.tasks[t].p, s.tasks[t].j);
    Reclocked(s, c.now, Step(s, t, c), t, Booking(0, 1, 0));
  }

  lemma FailerBooks(s: Calls, t: nat, c: Choice)
    requires Safe(s) && t in s.tasks && s.tasks[t].Failing?
    ensures Booked(s, Step(s, t, c), t, Booking(0, 0, 1))
  {
    OwnStored(s, t);
    FailBooks(s.(now := c.now), t, s.tasks[t].p, s.tasks[t].j, c.config);
    Reclocked(s, c.now, Step(s, t, c), t, Booking(0, 0, 1));
  }

  lemma CallBooks(s: Calls, t: nat, c: Choice) returns (b: Booking)
    requires Safe(s) && t in s.tasks
    ensures Booked(s, Step(s, t, c), t, b)
  {
    var k := s.tasks[t];
    b := NOTHING;
    if k.Creating? || k.Interring? {
      b := Booking(One(k.j.id !in s.store.jobs), 0, 0);
      if k.Creating? { CreatorBooks(s, t, c); } else { InterrerBooks(s, t, c); }
    } else if k.Received? {
      b := Booking(0, 1, 0);
      StarterBooks(s, t, c);
    } else if k.Failing? {
      b := Booking(0, 0, 1);
      FailerBooks(s, t, c);
    } else {
      OtherQuiet(s, t, c);
      PlainBooks(s, Step(s, t, c), t);
    }
  }

  lemma CallBalances(s: Calls, t: nat, c: Choice)
    requires Safe(s) && Balanced(s) && t in s.tasks
    ensures Balanced(Step(s, t, c))
  {
    var b := CallBooks(s, t, c);
    CallSamePool(s, t, c);
    BooksBalance(s, Step(s, t, c), t, b);
  }

  /** Starting, stopping and leaving book nothing. */
  lemma OtherBalances(s: Calls, e: Event)
    requires Balanced(s) && Possible(s, e) && !e.Call?
    ensures Balanced(Next(s, e))
  {
    var s' := Next(s, e);
    SameTraces(s, s');
    if e.Begin? {
      CountBegun(s, s', e.t, Creation);
      CountBegun(s, s', e.t, Lost);
      CountBegun(s, s', e.t, Attempt);
      CountBegun(s, s', e.t, Won);
    } else if e.Exit? {
      BooksBalance(s, s', e.t, NOTHING);
    } else {
      assert s'.tasks == s.tasks;
    }
  }

  lemma {:induction false} RunBalances(s: Calls, events: seq<Event>, s': Calls)
    requires Safe(s) && Balanced(s) && Happens(s, events, s')
    ensures Balanced(s')
    decreases |events|
  {
    if events != [] {
      if events[0].Call? {
        CallBalances(s, events[0].t, events[0].choice);
      } else {
        OtherBalances(s, events[0]);
      }
      EventKeepsSafe(s, events[0]);
      RunBalances(Next(s, events[0]), events[1..], s');
    }
  }

  /** At every point of every run of storage calls: the jobs stored are those counted as created and one
      for each goroutine that has created and not counted yet; the failed attempts are those counted as
      failed or retried, those not counted yet, and the retries dropped for want of a configuration; the
      other attempts started are under way, or counted as completed, or not counted yet. */
  lemma CountersOfCalls(events: seq<Event>, s: Calls)
    requires Happens(START, events, s)
    ensures |s.store.jobs| == s.store.created + Count(s, Creation)
    ensures Failures(s) == s.store.failed + s.store.retried + s.dropped + Count(s, Lost)
    ensures Starts(s) == Failures(s) + s.store.completed + Count(s, Attempt) + Count(s, Won)
  {
    StartSafe();
    RunBalances(START, events, s);
  }
}
