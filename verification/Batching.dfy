/** Batch processing: buffers, timers and flushes under two locks.  AddJob and processBatch look the
    batch of a type up under one lock and use it under another, so a registration may come between;
    a timer or a full buffer only spawns a flush, which takes what is buffered when it runs. */
module Batching {
  import opened Jobs
  import opened MemoryStorage
  import opened Orders

  datatype Item = Item(job: Job, at: int)

  datatype Config = Config(size: int, timeout: int)

  const FIVE_SECONDS := 5_000_000_000

  /** What one registration creates: the buffer, the timer it points at, the AddJob calls that looked
      it up and have not appended, the flushes that looked it up and have not taken, and, as history,
      the batches taken from it. */
  datatype Batch = Batch(
    buffer: seq<Item>, current: Option<nat>,
    adding: multiset<Job>, flushing: nat,
    taken: seq<seq<Item>>)

  const NEW_BATCH := Batch([], None, multiset{}, 0, [])

  /** One job type: its registrations, the last of which is the registered one, the armed timers with
      their deadlines, and the flushes spawned that have not looked the batch up. */
  datatype Lane = Lane(batches: seq<Batch>, armed: map<nat, int>, next: nat, spawned: nat)
  {
    function Armed(g: nat, deadline: int): Lane
      requires g < |batches|
    {
      this.(batches := batches[g := batches[g].(current := Some(next))],
            armed := armed[next := deadline], next := next + 1)
    }

    function Stopped(g: nat): Lane
      requires g < |batches|
    {
      if batches[g].current.Some? then this.(armed := armed - {batches[g].current.value}) else this
    }

    /** The part of AddJob under the batch's own lock. */
    function Append(cfg: Config, g: nat, j: Job, at: int): Lane
      requires g < |batches|
    {
      var b := batches[g];
      var l := this.(batches := batches[g := b.(buffer := b.buffer + [Item(j, at)], adding := b.adding - multiset{j})]);
      var l := if |l.batches[g].buffer| == 1 then l.Armed(g, at + cfg.timeout) else l;
      if |l.batches[g].buffer| >= cfg.size then l.Stopped(g).(spawned := l.spawned + 1) else l
    }

    /** The part of processBatch under the processor's lock: it finds the registered batch, or none. */
    function Found(): Lane {
      if batches == [] then this
      else
        var g := |batches| - 1;
        this.(batches := batches[g := batches[g].(flushing := batches[g].flushing + 1)])
    }

    /** The part of processBatch under the batch's own lock. */
    function Take(g: nat): Lane
      requires g < |batches| && batches[g].flushing > 0
    {
      var b := batches[g].(flushing := batches[g].flushing - 1);
      this.(batches := batches[g := if b.buffer == [] then b else b.(taken := b.taken + [b.buffer], buffer := [])])
    }
  }

  const NEW_LANE := Lane([], map[], 0, 0)

  datatype Event =
    | Register
    | LookUp(job: Job)                       // AddJob finds the batch, or none
    | Append(g: nat, job: Job, at: int)      // and appends to the one it found
    | Fire(timer: nat)
    | Start                                  // a spawned processBatch finds the batch, or none
    | Visit                                  // one that Stop calls does
    | Take(g: nat)                           // and takes what the one it found holds

  predicate Enabled(l: Lane, e: Event) {
    match e
    case Append(g, j, _) => g < |l.batches| && j in l.batches[g].adding
    case Fire(t) => t in l.armed
    case Start => l.spawned > 0
    case Take(g) => g < |l.batches| && l.batches[g].flushing > 0
    case _ => true
  }

  function Step(cfg: Config, l: Lane, e: Event): Lane
    requires Enabled(l, e)
  {
    match e
    case Register => l.(batches := l.batches + [NEW_BATCH])
    case LookUp(j) =>
      if l.batches == [] then l
      else
        var g := |l.batches| - 1;
        l.(batches := l.batches[g := l.batches[g].(adding := l.batches[g].adding + multiset{j})])
    case Append(g, j, at) => l.Append(cfg, g, j, at)
    case Fire(t) => l.(armed := l.armed - {t}, spawned := l.spawned + 1)
    case Start => l.(spawned := l.spawned - 1).Found()
    case Visit => l.Found()
    case Take(g) => l.Take(g)
  }

  predicate Runs(cfg: Config, l: Lane, events: seq<Event>)
    decreases |events|, 0
  {
    events == []
    || (Runs(cfg, l, events[..|events| - 1])
        && Enabled(After(cfg, l, events[..|events| - 1]), events[|events| - 1]))
  }

  function After(cfg: Config, l: Lane, events: seq<Event>): Lane
    requires Runs(cfg, l, events)
    decreases |events|, 1
  {
    if events == [] then l
    else Step(cfg, After(cfg, l, events[..|events| - 1]), events[|events| - 1])
  }

  lemma AfterThen(cfg: Config, l: Lane, events: seq<Event>, e: Event)
    requires Runs(cfg, l, events) && Enabled(After(cfg, l, events), e)
    ensures Runs(cfg, l, events + [e])
    ensures After(cfg, l, events + [e]) == Step(cfg, After(cfg, l, events), e)
  {
    assert (events + [e])[..|events|] == events;
  }

  // ---- neither dropped nor duplicated ----

  function Flatten(taken: seq<seq<Item>>): seq<Item> {
    if taken == [] then [] else Flatten(taken[..|taken| - 1]) + taken[|taken| - 1]
  }

  /** The items appended to batch g, in order. */
  function AppendedTo(events: seq<Event>, g: nat): seq<Item> {
    if events == [] then []
    else
      var e := events[|events| - 1];
      AppendedTo(events[..|events| - 1], g) + if e.Append? && e.g == g then [Item(e.job, e.at)] else []
  }

  function Kept(b: Batch): seq<Item> {
    Flatten(b.taken) + b.buffer
  }

  lemma TakeKeeps(b: Batch)
    ensures Kept(b.(taken := b.taken + [b.buffer], buffer := [])) == Kept(b)
  {
    assert (b.taken + [b.buffer])[..|b.taken|] == b.taken;
  }

  lemma StepKeeps(cfg: Config, l: Lane, e: Event, g: nat)
    requires Enabled(l, e) && g < |Step(cfg, l, e).batches|
    ensures Kept(Step(cfg, l, e).batches[g])
         == (if g < |l.batches| then Kept(l.batches[g]) else [])
            + (if e.Append? && e.g == g then [Item(e.job, e.at)] else [])
  {
    if g < |l.batches| {
      var b := l.batches[g];
      if e.Append? && e.g == g {
        assert Flatten(b.taken) + (b.buffer + [Item(e.job, e.at)]) == Kept(b) + [Item(e.job, e.at)];
      } else if e.Take? && e.g == g {
        TakeKeeps(b.(flushing := b.flushing - 1));
      }
    }
  }

  /** For every interleaving, re-registrations included, the batches taken from a registration, in take
      order, followed by its buffer, are the jobs appended to it, in order. */
  lemma {:induction false} NeitherDroppedNorDuplicated(cfg: Config, events: seq<Event>, g: nat)
    requires Runs(cfg, NEW_LANE, events)
    ensures var l := After(cfg, NEW_LANE, events);
      if g < |l.batches| then Flatten(l.batches[g].taken) + l.batches[g].buffer == AppendedTo(events, g)
      else AppendedTo(events, g) == []
  {
    if events != [] {
      var before, e := events[..|events| - 1], events[|events| - 1];
      var l := After(cfg, NEW_LANE, before);
      NeitherDroppedNorDuplicated(cfg, before, g);
      if g < |Step(cfg, l, e).batches| {
        StepKeeps(cfg, l, e, g);
      }
    }
  }

  // ---- a waiting job is on its way ----

  /** The batch's timer is armed and due a timeout after its oldest job. */
  predicate TimerCovers(cfg: Config, l: Lane, b: Batch)
    requires b.buffer != []
  {
    && b.current.Some? && b.current.value in l.armed
    && l.armed[b.current.value] == b.buffer[0].at + cfg.timeout
  }

  ghost predicate TimersFresh(l: Lane) {
    && (forall t :: t in l.armed ==> t < l.next)
    && (forall g :: 0 <= g < |l.batches| && l.batches[g].current.Some? ==> l.batches[g].current.value < l.next)
    && (forall g, h :: 0 <= g < h < |l.batches| && l.batches[g].current.Some? ==>
          l.batches[g].current != l.batches[h].current)
  }

  predicate Underway(l: Lane, b: Batch) {
    l.spawned > 0 || b.flushing > 0
  }

  ghost predicate LastCovered(cfg: Config, l: Lane) {
    l.batches != [] ==>
      var b := l.batches[|l.batches| - 1];
      && (b.buffer != [] ==> Underway(l, b) || TimerCovers(cfg, l, b))
      && (b.buffer != [] && |b.buffer| >= cfg.size ==> Underway(l, b))
  }

  ghost predicate NoneEmpty(l: Lane) {
    forall g, i :: 0 <= g < |l.batches| && 0 <= i < |l.batches[g].taken| ==> l.batches[g].taken[i] != []
  }

  lemma AppendFresh(cfg: Config, l: Lane, g: nat, j: Job, at: int)
    requires g < |l.batches| && TimersFresh(l)
    ensures TimersFresh(l.Append(cfg, g, j, at))
  {
  }

  lemma StepFresh(cfg: Config, l: Lane, e: Event)
    requires Enabled(l, e) && TimersFresh(l)
    ensures TimersFresh(Step(cfg, l, e))
  {
    if e.Append? {
      AppendFresh(cfg, l, e.g, e.job, e.at);
    }
  }

  lemma AppendCovered(cfg: Config, l: Lane, g: nat, j: Job, at: int)
    requires g < |l.batches| && TimersFresh(l) && LastCovered(cfg, l)
    ensures LastCovered(cfg, l.Append(cfg, g, j, at))
  {
  }

  lemma StepCovered(cfg: Config, l: Lane, e: Event)
    requires Enabled(l, e) && TimersFresh(l) && LastCovered(cfg, l)
    ensures LastCovered(cfg, Step(cfg, l, e))
  {
    if e.Append? {
      AppendCovered(cfg, l, e.g, e.job, e.at);
    }
  }

  lemma StepNoneEmpty(cfg: Config, l: Lane, e: Event)
    requires Enabled(l, e) && NoneEmpty(l)
    ensures NoneEmpty(Step(cfg, l, e))
  {
  }

  /** In every reachable state a non-empty registered batch has a flush under way or the armed timer of
      its oldest job, one of at least the batch size has a flush under way, and no empty batch was ever
      handed to a processor. */
  lemma {:induction false} AlwaysCovered(cfg: Config, events: seq<Event>)
    requires Runs(cfg, NEW_LANE, events)
    ensures var l := After(cfg, NEW_LANE, events);
      TimersFresh(l) && LastCovered(cfg, l) && NoneEmpty(l)
  {
    if events != [] {
      var before, e := events[..|events| - 1], events[|events| - 1];
      AlwaysCovered(cfg, before);
      StepFresh(cfg, After(cfg, NEW_LANE, before), e);
      StepCovered(cfg, After(cfg, NEW_LANE, before), e);
      StepNoneEmpty(cfg, After(cfg, NEW_LANE, before), e);
    }
  }

  // ---- no flush comes early ----

  function Firings(events: seq<Event>): nat {
    if events == [] then 0 else Firings(events[..|events| - 1]) + if events[|events| - 1].Fire? then 1 else 0
  }

  function Summons(events: seq<Event>): nat {
    if events == [] then 0 else Summons(events[..|events| - 1]) + if events[|events| - 1].Start? then 1 else 0
  }

  /** The appends that left their batch with at least `size` jobs. */
  function Fillings(cfg: Config, events: seq<Event>, size: int): nat
    requires Runs(cfg, NEW_LANE, events)
  {
    if events == [] then 0
    else
      var before, e := events[..|events| - 1], events[|events| - 1];
      var l := After(cfg, NEW_LANE, before);
      Fillings(cfg, before, size) + if e.Append? && |l.batches[e.g].buffer| + 1 >= size then 1 else 0
  }

  lemma StepSpawns(cfg: Config, l: Lane, e: Event)
    requires Enabled(l, e)
    ensures Step(cfg, l, e).spawned == l.spawned
      + (if e.Fire? then 1 else 0) - (if e.Start? then 1 else 0)
      + (if e.Append? && |l.batches[e.g].buffer| + 1 >= cfg.size then 1 else 0)
  {
  }

  /** In every run the flushes spawned, looked up or not, are exactly the timers that fired and the
      appends that left a batch of at least the batch size. */
  lemma {:induction false} FlushesSpawned(cfg: Config, events: seq<Event>)
    requires Runs(cfg, NEW_LANE, events)
    ensures After(cfg, NEW_LANE, events).spawned + Summons(events) == Firings(events) + Fillings(cfg, events, cfg.size)
  {
    if events != [] {
      var before := events[..|events| - 1];
      FlushesSpawned(cfg, before);
      StepSpawns(cfg, After(cfg, NEW_LANE, before), events[|events| - 1]);
    }
  }

  predicate Fired(events: seq<Event>, t: nat) {
    Fire(t) in events
  }

  /** A batch below the batch size waits for the timer of its first job, unless that fired; at that size
      the timer is stopped. */
  ghost predicate TimerKept(cfg: Config, l: Lane, b: Batch, events: seq<Event>) {
    b.buffer != [] ==>
      b.current.Some? && var t := b.current.value;
      && (t in l.armed <==> |b.buffer| < cfg.size && !Fired(events, t))
      && (t in l.armed ==> l.armed[t] == b.buffer[0].at + cfg.timeout)
  }

  ghost predicate AllKept(cfg: Config, l: Lane, events: seq<Event>) {
    && (forall g :: 0 <= g < |l.batches| ==> TimerKept(cfg, l, l.batches[g], events))
    && (forall t: nat :: Fired(events, t) ==> t < l.next)
  }

  lemma FiredThen(events: seq<Event>, e: Event)
    ensures forall t: nat :: Fired(events + [e], t) <==> Fired(events, t) || e == Fire(t)
  {
  }

  lemma AppendKeepsTimer(cfg: Config, l: Lane, g: nat, j: Job, at: int, h: nat, events: seq<Event>)
    requires g < |l.batches| && h < |l.batches| && TimersFresh(l) && AllKept(cfg, l, events)
    ensures var l' := l.Append(cfg, g, j, at); h < |l'.batches| && TimerKept(cfg, l', l'.batches[h], events)
  {
    assert TimerKept(cfg, l, l.batches[h], events) && TimerKept(cfg, l, l.batches[g], events);
  }

  lemma StepKeepsTimer(cfg: Config, l: Lane, e: Event, h: nat, events: seq<Event>)
    requires Enabled(l, e) && TimersFresh(l) && AllKept(cfg, l, events) && h < |Step(cfg, l, e).batches|
    ensures var l' := Step(cfg, l, e); TimerKept(cfg, l', l'.batches[h], events + [e])
  {
    FiredThen(events, e);
    if e.Append? {
      AppendKeepsTimer(cfg, l, e.g, e.job, e.at, h, events);
    } else if h < |l.batches| {
      assert TimerKept(cfg, l, l.batches[h], events);
    }
  }

  /** In every run, for every registration: a batch that holds jobs has the timer of its oldest job armed,
      due a timeout after it, if and only if it is below the batch size and that timer has not fired. */
  lemma {:induction false} TimersKept(cfg: Config, events: seq<Event>)
    requires Runs(cfg, NEW_LANE, events)
    ensures AllKept(cfg, After(cfg, NEW_LANE, events), events)
  {
    if events != [] {
      var before, e := events[..|events| - 1], events[|events| - 1];
      var l := After(cfg, NEW_LANE, before);
      TimersKept(cfg, before);
      AlwaysCovered(cfg, before);
      assert events == before + [e];
      FiredThen(before, e);
      forall h | 0 <= h < |Step(cfg, l, e).batches|
        ensures TimerKept(cfg, Step(cfg, l, e), Step(cfg, l, e).batches[h], events)
      {
        StepKeepsTimer(cfg, l, e, h, before);
      }
    }
  }

  // ---- replaced batches ----

  /** Replaced, with no started flush that still refers to it. */
  predicate Abandoned(l: Lane, g: nat)
    requires g < |l.batches|
  {
    g < |l.batches| - 1 && l.batches[g].flushing == 0
  }

  /** Nothing is ever taken from an abandoned batch again, whatever happens, registrations and Stop
      included. */
  lemma {:induction false} AbandonedForever(cfg: Config, l: Lane, g: nat, events: seq<Event>)
    requires g < |l.batches| && Abandoned(l, g) && Runs(cfg, l, events)
    ensures var after := After(cfg, l, events);
      && g < |after.batches| && Abandoned(after, g)
      && after.batches[g].taken == l.batches[g].taken && l.batches[g].buffer <= after.batches[g].buffer
  {
    if events != [] {
      AbandonedForever(cfg, l, g, events[..|events| - 1]);
    }
  }

  // ---- the machine runs dry ----

  predicate Internal(e: Event) {
    e.Fire? || e.Start? || e.Take?
  }

  function Flushes(batches: seq<Batch>): nat {
    if batches == [] then 0 else Flushes(batches[..|batches| - 1]) + batches[|batches| - 1].flushing
  }

  function Measure(l: Lane): nat {
    3 * |l.armed| + 2 * l.spawned + Flushes(l.batches)
  }

  lemma {:induction false} FlushesAfter(batches: seq<Batch>, g: nat, b: Batch)
    requires g < |batches|
    ensures Flushes(batches[g := b]) == Flushes(batches) - batches[g].flushing + b.flushing
    decreases |batches|
  {
    var n := |batches| - 1;
    if g == n {
      assert batches[g := b][..n] == batches[..n];
    } else {
      assert batches[g := b][..n] == batches[..n][g := b];
      FlushesAfter(batches[..n], g, b);
    }
  }

  lemma InternalStepShrinks(cfg: Config, l: Lane, e: Event)
    requires Enabled(l, e) && Internal(e)
    ensures Measure(Step(cfg, l, e)) < Measure(l)
  {
    match e
    case Fire(t) => assert l.armed.Keys == (l.armed - {t}).Keys + {t};
    case Start =>
      if l.batches != [] {
        var g := |l.batches| - 1;
        FlushesAfter(l.batches, g, l.batches[g].(flushing := l.batches[g].flushing + 1));
      }
    case Take(g) => FlushesAfter(l.batches, g, l.Take(g).batches[g]);
  }

  lemma {:induction false} InternalStepsBounded(cfg: Config, l: Lane, events: seq<Event>)
    requires Runs(cfg, l, events) && forall i :: 0 <= i < |events| ==> Internal(events[i])
    ensures |events| + Measure(After(cfg, l, events)) <= Measure(l)
  {
    if events != [] {
      var before := events[..|events| - 1];
      InternalStepsBounded(cfg, l, before);
      InternalStepShrinks(cfg, After(cfg, l, before), events[|events| - 1]);
    }
  }

  /** When no timer is armed and no flush under way, every job appended was taken, once and in order,
      if and only if no replaced batch holds a job; with a single registration none can. */
  lemma DryMeansAllTaken(cfg: Config, events: seq<Event>)
    requires Runs(cfg, NEW_LANE, events)
    requires forall e :: Internal(e) ==> !Enabled(After(cfg, NEW_LANE, events), e)
    ensures var l := After(cfg, NEW_LANE, events);
      (forall g :: 0 <= g < |l.batches| ==> Flatten(l.batches[g].taken) == AppendedTo(events, g))
      <==> (forall g :: 0 <= g < |l.batches| - 1 ==> l.batches[g].buffer == [])
  {
    var l := After(cfg, NEW_LANE, events);
    LastIsEmpty(cfg, events);
    forall g | 0 <= g < |l.batches|
      ensures Flatten(l.batches[g].taken) == AppendedTo(events, g) <==> l.batches[g].buffer == []
    {
      NeitherDroppedNorDuplicated(cfg, events, g);
      assert |Flatten(l.batches[g].taken) + l.batches[g].buffer| == |AppendedTo(events, g)|;
      assert l.batches[g].buffer == [] ==> Flatten(l.batches[g].taken) + [] == Flatten(l.batches[g].taken);
    }
  }

  lemma LastIsEmpty(cfg: Config, events: seq<Event>)
    requires Runs(cfg, NEW_LANE, events)
    requires forall e :: Internal(e) ==> !Enabled(After(cfg, NEW_LANE, events), e)
    ensures var l := After(cfg, NEW_LANE, events); l.batches != [] ==> l.batches[|l.batches| - 1].buffer == []
  {
    var l := After(cfg, NEW_LANE, events);
    AlwaysCovered(cfg, events);
    assert Internal(Start) && !Enabled(l, Start);
    if l.batches != [] {
      var g := |l.batches| - 1;
      assert Internal(Event.Take(g)) && !Enabled(l, Event.Take(g));
      assert l.batches[g].current.Some? ==> Internal(Fire(l.batches[g].current.value));
    }
  }

  // ---- the batch size ----

  ghost predicate Within(l: Lane, size: int) {
    forall g :: 0 <= g < |l.batches| ==> BatchWithin(l.batches[g], size)
  }

  ghost predicate BatchWithin(b: Batch, size: int) {
    |b.buffer| <= size && forall i :: 0 <= i < |b.taken| ==> |b.taken[i]| <= size
  }

  /** No append of the run found a buffer already at the batch size. */
  predicate NeverFull(cfg: Config, events: seq<Event>)
    requires Runs(cfg, NEW_LANE, events)
  {
    events == []
    || var before, e := events[..|events| - 1], events[|events| - 1];
       NeverFull(cfg, before)
       && (e.Append? ==> |After(cfg, NEW_LANE, before).batches[e.g].buffer| < cfg.size)
  }

  lemma StepWithin(cfg: Config, l: Lane, e: Event)
    requires cfg.size >= 1 && Enabled(l, e)
    ensures Within(Step(cfg, l, e), cfg.size)
       <==> Within(l, cfg.size) && (e.Append? ==> |l.batches[e.g].buffer| < cfg.size)
  {
    var l' := Step(cfg, l, e);
    forall g | 0 <= g < |l.batches|
      ensures BatchWithin(l'.batches[g], cfg.size) <==>
        BatchWithin(l.batches[g], cfg.size) && (e.Append? && e.g == g ==> |l.batches[g].buffer| < cfg.size)
    {
      StepBatchWithin(cfg, l, e, g);
    }
    assert forall g :: |l.batches| <= g < |l'.batches| ==> l'.batches[g] == NEW_BATCH;
  }

  lemma StepBatchWithin(cfg: Config, l: Lane, e: Event, g: nat)
    requires cfg.size >= 1 && Enabled(l, e) && g < |l.batches|
    ensures g < |Step(cfg, l, e).batches|
    ensures BatchWithin(Step(cfg, l, e).batches[g], cfg.size) <==>
      BatchWithin(l.batches[g], cfg.size) && (e.Append? && e.g == g ==> |l.batches[g].buffer| < cfg.size)
  {
    var b := l.batches[g];
    if e.Take? && e.g == g && b.buffer != [] {
      var taken := b.taken + [b.buffer];
      assert taken[|b.taken|] == b.buffer && forall i :: 0 <= i < |b.taken| ==> taken[i] == b.taken[i];
    }
  }

  /** For every size of at least one and every run, no batch taken and no buffer ever exceeds the batch
      size if and only if no append found its buffer already at that size. */
  lemma {:induction false} SizeIsBoundIff(cfg: Config, events: seq<Event>)
    requires cfg.size >= 1 && Runs(cfg, NEW_LANE, events)
    ensures Within(After(cfg, NEW_LANE, events), cfg.size) <==> NeverFull(cfg, events)
  {
    if events != [] {
      var before := events[..|events| - 1];
      SizeIsBoundIff(cfg, before);
      StepWithin(cfg, After(cfg, NEW_LANE, before), events[|events| - 1]);
    }
  }

  /** Jobs added one after another before the spawned flush runs. */
  lemma {:induction false} Fill(cfg: Config, j: Job, n: nat) returns (events: seq<Event>)
    requires cfg.size >= 1
    ensures Runs(cfg, NEW_LANE, events)
    ensures var l := After(cfg, NEW_LANE, events); |l.batches| == 1 && |l.batches[0].buffer| == n
  {
    if n == 0 {
      AfterThen(cfg, NEW_LANE, [], Register);
      events := [] + [Register];
    } else {
      var before := Fill(cfg, j, n - 1);
      AfterThen(cfg, NEW_LANE, before, LookUp(j));
      AfterThen(cfg, NEW_LANE, before + [LookUp(j)], Event.Append(0, j, 0));
      events := before + [LookUp(j)] + [Event.Append(0, j, 0)];
    }
  }

  /** At every size there is a run in which an append finds its buffer full. */
  lemma SizeIsExceeded(cfg: Config, j: Job) returns (events: seq<Event>)
    requires cfg.size >= 1
    ensures Runs(cfg, NEW_LANE, events) && !NeverFull(cfg, events)
  {
    events := Fill(cfg, j, cfg.size + 1);
    SizeIsBoundIff(cfg, events);
    assert !BatchWithin(After(cfg, NEW_LANE, events).batches[0], cfg.size);
  }

  // ---- the processor object ----

  /** What processBatch records on a job: the handler's error fails every job of the batch. */
  function Settled(j: Job, err: Option<string>): Job {
    if err.Some? then j.(status := Failed, error := err.value) else j.(status := Success)
  }

  function SettleAll(s: Store, jobs: seq<Item>, err: Option<string>): Store {
    if jobs == [] then s
    else SettleAll(s, jobs[..|jobs| - 1], err).UpdateJob(Settled(jobs[|jobs| - 1].job, err))
  }

  /** The last position of a job in a batch, or -1. */
  function LastOf(jobs: seq<Item>, id: string): (i: int)
    ensures -1 <= i < |jobs|
    ensures if i < 0 then forall k :: 0 <= k < |jobs| ==> jobs[k].job.id != id else jobs[i].job.id == id
  {
    if jobs == [] then -1
    else if jobs[|jobs| - 1].job.id == id then |jobs| - 1
    else LastOf(jobs[..|jobs| - 1], id)
  }

  /** Every stored job of the batch ends with the batch's outcome, every other job stays as it was. */
  lemma {:induction false} SettleAllOutcome(s: Store, jobs: seq<Item>, err: Option<string>, id: string)
    ensures var after, i := SettleAll(s, jobs, err), LastOf(jobs, id);
      && after == s.(jobs := after.jobs) && (id in after.jobs <==> id in s.jobs)
      && (id in s.jobs ==>
            after.jobs[id] == (if i < 0 then s.jobs[id]
                               else if err.Some? then jobs[i].job.(status := Failed, error := err.value)
                               else jobs[i].job.(status := Success)))
  {
    if jobs != [] {
      SettleAllOutcome(s, jobs[..|jobs| - 1], err, id);
    }
  }

  function LastBuffer(l: Lane): seq<Item> {
    if l.batches == [] then [] else l.batches[|l.batches| - 1].buffer
  }

  /** Both halves of a processBatch, uninterrupted. */
  function Processed(cfg: Config, l: Lane): Lane
    requires l.spawned > 0
  {
    var l1 := Step(cfg, l, Start);
    if l.batches == [] then l1 else Step(cfg, l1, Event.Take(|l.batches| - 1))
  }

  /** The same, called by Stop. */
  function Stopped(cfg: Config, l: Lane): Lane {
    var l1 := Step(cfg, l, Visit);
    if l.batches == [] then l1 else Step(cfg, l1, Event.Take(|l.batches| - 1))
  }

  /** The effect on the store of one processBatch for each type of `order`; `errs` gives what the
      handlers return. */
  function SettleTypes(s: Store, lanes: map<string, Lane>, order: seq<string>, errs: string -> Option<string>): Store
    requires Listed(order, lanes.Keys)
  {
    if order == [] then s
    else
      var t := order[|order| - 1];
      SettleAll(SettleTypes(s, lanes, order[..|order| - 1], errs), LastBuffer(lanes[t]), errs(t))
  }

  /** What Stop has done to the store after the types of `order`. */
  ghost predicate SettledBy(
    s0: Store, s: Store, lanes: map<string, Lane>, order: seq<string>, errs: string -> Option<string>)
  {
    Listed(order, lanes.Keys) && s == SettleTypes(s0, lanes, order, errs)
  }

  lemma SettledThen(s0: Store, s: Store, s': Store,
                    lanes: map<string, Lane>, order: seq<string>, t: string, errs: string -> Option<string>)
    requires t in lanes && SettledBy(s0, s, lanes, order, errs)
    requires s' == SettleAll(s, LastBuffer(lanes[t]), errs(t))
    ensures SettledBy(s0, s', lanes, order + [t], errs)
  {
    assert (order + [t])[..|order|] == order;
  }

  /** The types not in `todo` had what their registered batch held taken. */
  ghost predicate Emptied(cfg: Config, before: map<string, Lane>, after: map<string, Lane>, todo: set<string>) {
    && after.Keys == before.Keys
    && forall t :: t in before ==> after[t] == if t in todo then before[t] else Stopped(cfg, before[t])
  }

  lemma EmptiedThen(cfg: Config, before: map<string, Lane>, after: map<string, Lane>, todo: set<string>, t: string)
    requires todo <= before.Keys && Emptied(cfg, before, after, todo) && t in todo
    ensures Emptied(cfg, before, after[t := Stopped(cfg, before[t])], todo - {t}) && after[t] == before[t]
  {
  }

  class BatchProcessor {
    const store: MemoryStore
    const cfg: Config
    var lanes: map<string, Lane>

    constructor (store: MemoryStore, size: int, timeout: int)
      ensures this.store == store && lanes == map[]
      ensures cfg == Config(if size == 0 then 10 else size, if timeout == 0 then 5_000_000_000 else timeout)
    {
      var n, t := size, timeout;
      if n == 0 { n := 10; }
      if t == 0 { t := FIVE_SECONDS; }
      this.store, cfg, lanes := store, Config(n, t), map[];
    }

    method RegisterBatchHandler(jobType: string)
      modifies this
      ensures lanes == old(lanes)[jobType :=
        Step(cfg, if jobType in old(lanes) then old(lanes)[jobType] else NEW_LANE, Register)]
    {
      var l := NEW_LANE;
      if jobType in lanes { l := lanes[jobType]; }
      lanes := lanes[jobType := l.(batches := l.batches + [NEW_BATCH])];
    }

    /** AddJob under the processor's lock. */
    method FindForAdd(jobType: string, j: Job) returns (found: Option<nat>)
      modifies this
      ensures jobType !in old(lanes) ==> lanes == old(lanes) && found == None
      ensures jobType in old(lanes) ==>
        var l := old(lanes)[jobType];
        lanes == old(lanes)[jobType := Step(cfg, l, LookUp(j))]
        && found == if l.batches == [] then None else Some(|l.batches| - 1)
    {
      if jobType !in lanes { return None; }
      var l := lanes[jobType];
      if |l.batches| == 0 {
        assert lanes[jobType := l] == lanes;
        return None;
      }
      var g := |l.batches| - 1;
      var b := l.batches[g];
      lanes := lanes[jobType := l.(batches := l.batches[g := b.(adding := b.adding + multiset{j})])];
      return Some(g);
    }

    /** AddJob under the batch's lock. */
    method AppendTo(jobType: string, g: nat, j: Job, now: int)
      requires jobType in lanes && Enabled(lanes[jobType], Event.Append(g, j, now))
      modifies this
      ensures lanes == old(lanes)[jobType := Step(cfg, old(lanes)[jobType], Event.Append(g, j, now))]
    {
      var l := lanes[jobType];
      var b := l.batches[g];
      b := b.(buffer := b.buffer + [Item(j, now)], adding := b.adding - multiset{j});
      l := l.(batches := l.batches[g := b]);
      if |b.buffer| == 1 {
        b := b.(current := Some(l.next));
        l := l.(batches := l.batches[g := b], armed := l.armed[l.next := now + cfg.timeout], next := l.next + 1);
      }
      if |b.buffer| >= cfg.size {
        if b.current.Some? {
          l := l.(armed := l.armed - {b.current.value});
        }
        l := l.(spawned := l.spawned + 1);
      }
      lanes := lanes[jobType := l];
    }

    method AddJob(jobType: string, j: Job, now: int)
      modifies this
      ensures jobType !in old(lanes) ==> lanes == old(lanes)
      ensures jobType in old(lanes) && old(lanes)[jobType].batches == [] ==> lanes == old(lanes)
      ensures jobType in old(lanes) && old(lanes)[jobType].batches != [] ==>
        var l := old(lanes)[jobType];
        lanes == old(lanes)[jobType :=
          Step(cfg, Step(cfg, l, LookUp(j)), Event.Append(|l.batches| - 1, j, now))]
    {
      ghost var l0 := lanes;
      var found := FindForAdd(jobType, j);
      if found.None? {
        assert jobType in l0 ==> l0[jobType := l0[jobType]] == l0;
        return;
      }
      AppendTo(jobType, found.value, j, now);
    }

    /** processBatch under the processor's lock, by a goroutine that was spawned for it. */
    method FindForFlush(jobType: string) returns (found: Option<nat>)
      requires jobType in lanes && lanes[jobType].spawned > 0
      modifies this
      ensures var l := old(lanes)[jobType];
        lanes == old(lanes)[jobType := Step(cfg, l, Start)]
        && found == if l.batches == [] then None else Some(|l.batches| - 1)
    {
      var l := lanes[jobType];
      l := l.(spawned := l.spawned - 1);
      found := None;
      if |l.batches| > 0 {
        var g := |l.batches| - 1;
        l := l.(batches := l.batches[g := l.batches[g].(flushing := l.batches[g].flushing + 1)]);
        found := Some(g);
      }
      lanes := lanes[jobType := l];
    }

    /** processBatch under the batch's lock. */
    method TakeFrom(jobType: string, g: nat) returns (jobs: seq<Item>)
      requires jobType in lanes && Enabled(lanes[jobType], Event.Take(g))
      modifies this
      ensures jobs == old(lanes)[jobType].batches[g].buffer
      ensures lanes == old(lanes)[jobType := Step(cfg, old(lanes)[jobType], Event.Take(g))]
    {
      var l := lanes[jobType];
      var b := l.batches[g];
      jobs := b.buffer;
      b := b.(flushing := b.flushing - 1);
      if |jobs| > 0 {
        b := b.(taken := b.taken + [jobs], buffer := []);
      }
      lanes := lanes[jobType := l.(batches := l.batches[g := b])];
    }

    /** processBatch under no lock, once the handler has returned `err`. */
    method Settle(jobs: seq<Item>, err: Option<string>)
      modifies store
      ensures store.State() == SettleAll(old(store.State()), jobs, err)
    {
      ghost var s0 := store.State();
      for i := 0 to |jobs|
        invariant store.State() == SettleAll(s0, jobs[..i], err)
      {
        assert jobs[..i + 1][..i] == jobs[..i];
        var j := jobs[i].job;
        if err.Some? {
          j := j.(status := Failed, error := err.value);
        } else {
          j := j.(status := Success);
        }
        var _ := store.UpdateJob(j);
      }
      assert jobs[..|jobs|] == jobs;
    }

    method ProcessBatch(jobType: string, err: Option<string>)
      requires jobType in lanes && lanes[jobType].spawned > 0
      requires store as object != this
      modifies this, store
      ensures lanes == old(lanes)[jobType := Processed(cfg, old(lanes)[jobType])]
      ensures store.State() == SettleAll(old(store.State()), LastBuffer(old(lanes)[jobType]), err)
    {
      var found := FindForFlush(jobType);
      if found.None? { return; }
      var jobs := TakeFrom(jobType, found.value);
      Settle(jobs, err);
    }

    /** Takes and settles what the registered batches hold, type by type in the map's order; timers
        stay armed. */
    method Stop(errs: string -> Option<string>) returns (ghost order: seq<string>)
      requires store as object != this
      modifies this, store
      ensures IsOrder(order, old(lanes).Keys)
      ensures Emptied(cfg, old(lanes), lanes, {})
      ensures SettledBy(old(store.State()), store.State(), old(lanes), order, errs)
    {
      order := [];
      ghost var l0, s0 := lanes, store.State();
      var todo := lanes.Keys;
      while todo != {}
        invariant todo <= l0.Keys && Emptied(cfg, l0, lanes, todo)
        invariant IsOrder(order, l0.Keys - todo)
        invariant SettledBy(s0, store.State(), l0, order, errs)
        decreases todo
      {
        var t :| t in todo;
        ghost var before := store.State();
        OrderThen(order, l0.Keys - todo, t);
        EmptiedThen(cfg, l0, lanes, todo, t);
        assert l0.Keys - (todo - {t}) == l0.Keys - todo + {t};
        todo := todo - {t};
        StopType(t, errs(t));
        SettledThen(s0, before, store.State(), l0, order, t, errs);
        order := order + [t];
      }
    }

    method StopType(jobType: string, err: Option<string>)
      requires jobType in lanes
      requires store as object != this
      modifies this, store
      ensures lanes == old(lanes)[jobType := Stopped(cfg, old(lanes)[jobType])]
      ensures store.State() == SettleAll(old(store.State()), LastBuffer(old(lanes)[jobType]), err)
    {
      lanes := lanes[jobType := lanes[jobType].(spawned := lanes[jobType].spawned + 1)];
      ProcessBatch(jobType, err);
    }
  }
}
