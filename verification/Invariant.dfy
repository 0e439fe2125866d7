/** The inductive invariant of the protocol, and the frame lemma that carries it over an action
    touching one job. */
module ProtocolInvariant {
  import opened Jobs
  import opened MemoryStorage
  import opened QueueManager
  import opened Backoff
  import opened WorkerPool
  import opened PoolProtocol

  // ---- one job's history ----

  /** The delay computed after failure k. */
  function Delay(t: Trace, k: nat): int
    requires k < |t.failures|
  {
    var c := t.failures[k].config;
    if c.Some? then CalculateRetryDelay(t.base + k + 1, c.value) else 0
  }

  /** `time` is past the delay of the last failure. */
  predicate DelayElapsed(t: Trace, time: int) {
    t.failures != [] ==> time >= t.failures[|t.failures| - 1].at + Delay(t, |t.failures| - 1)
  }

  /** Each attempt fails after it starts, and the next starts no sooner than the delay after. */
  ghost predicate Spaced(t: Trace) {
    && |t.failures| <= |t.starts| <= |t.failures| + 1
    && (forall k :: 0 <= k < |t.failures| ==> t.starts[k] <= t.failures[k].at && t.failures[k].config.Some?)
    && (forall k :: 0 <= k < |t.failures| && k + 1 < |t.starts| ==>
          t.starts[k + 1] >= t.failures[k].at + Delay(t, k))
  }

  /** Between attempts: every started attempt has failed. */
  predicate BetweenAttempts(j: Job, t: Trace) {
    |t.starts| == |t.failures| && j.retryCount == t.base + |t.failures|
  }

  predicate InAttempt(j: Job, t: Trace, now: int) {
    && |t.starts| == |t.failures| + 1
    && j.retryCount == t.base + |t.failures|
    && t.starts[|t.failures|] <= now
  }

  /** What a job that is in no place looks like. */
  predicate AtRest(j: Job, t: Trace) {
    match j.status
    case Success => |t.starts| == |t.failures| + 1 && j.retryCount == t.base + |t.failures|
    case Failed =>
      |t.starts| == |t.failures| && j.retryCount + 1 == t.base + |t.failures| && j.retryCount >= j.maxRetries
    case Cancelled => BetweenAttempts(j, t)
    case _ => false
  }

  // ---- the invariant ----

  /** A copy taken at dequeue time agrees with the stored job on all but status, error, progress
      and times. */
  predicate Agrees(copy: Job, stored: Job) {
    && copy.id == stored.id && copy.queue == stored.queue && copy.priority == stored.priority
    && copy.maxRetries == stored.maxRetries && copy.retryCount == stored.retryCount
    && copy.status == Pending
  }

  predicate TokenOk(w: World, p: Place, t: Token) {
    var id := t.Id();
    && id in w.Jobs() && id in w.traces
    && var j := w.Jobs()[id];
       var trace := w.traces[id];
       match t
       case Waiting(e) =>
         && p.InQueue? && p.q == j.queue && j.status == Pending && e.priority == j.priority
         && BetweenAttempts(j, trace) && DelayElapsed(trace, e.timestamp)
       case Carried(copy) =>
         && Agrees(copy, j) && j.status in {Pending, Cancelled}
         && BetweenAttempts(j, trace) && DelayElapsed(trace, w.now)
       case Handled(copy) =>
         && Agrees(copy, j) && j.status in {Running, Cancelled}
         && InAttempt(j, trace, w.now)
  }

  predicate JobOk(w: World, id: string)
    requires id in w.Jobs()
  {
    var j := w.Jobs()[id];
    && j.id == id && id in w.traces && j.queue in w.m.configs
    && w.traces[id].base <= j.retryCount
    && (w.traces[id].base < j.retryCount ==> j.retryCount <= j.maxRetries)
  }

  ghost predicate TokensOk(w: World) {
    forall p :: At(w, p).Some? ==> TokenOk(w, p, At(w, p).value)
  }

  ghost predicate JobFine(w: World, id: string)
    requires id in w.Jobs()
  {
    && JobOk(w, id) && Spaced(w.traces[id])
    && (!Placed(w, id) ==> AtRest(w.Jobs()[id], w.traces[id]))
  }

  ghost predicate JobsOk(w: World) {
    && (forall id :: id in w.traces <==> id in w.Jobs())
    && (forall id :: id in w.Jobs() ==> JobFine(w, id))
  }

  /** Every fetched job has a free seat in the channel. */
  predicate Seated(w: World) {
    && |w.slots| == w.pool.concurrency
    && |w.ch| + (if w.hand.Some? then 1 else 0) <= w.pool.concurrency
    && "" !in w.m.configs && "" !in w.m.store.configs
    && w.pool.id in w.m.store.workers
    && (w.fetching || w.hand.None?)
  }

  ghost predicate Core(w: World) {
    SingleOwner(w) && TokensOk(w) && JobsOk(w) && Seated(w)
  }

  // ---- moving one token ----

  /** The token at `src` goes away and one appears at `dst`; behind a removed queue entry or
      channel element the rest moves up. */
  datatype Move = Move(src: Option<Place>, dst: Option<Place>)

  function Back(e: Move, p: Place): Place {
    if e.src == e.dst then p else
    match e.src
    case Some(InQueue(q, k)) => if p.InQueue? && p.q == q && p.k >= k then InQueue(q, p.k + 1) else p
    case Some(InChannel(k)) => if p.InChannel? && p.k >= k then InChannel(p.k + 1) else p
    case _ => p
  }

  function Forth(e: Move, p: Place): Place {
    if e.src == e.dst then p else
    match e.src
    case Some(InQueue(q, k)) => if p.InQueue? && p.q == q && p.k > k then InQueue(q, p.k - 1) else p
    case Some(InChannel(k)) => if p.InChannel? && p.k > k then InChannel(p.k - 1) else p
    case _ => p
  }

  ghost predicate Moves(w: World, w': World, e: Move) {
    && (e.src.Some? ==> At(w, e.src.value).Some?)
    && (e.dst.Some? ==> At(w', e.dst.value).Some?)
    && (e.dst.Some? && e.dst != e.src ==> At(w, Back(e, e.dst.value)).None?)
    && forall p :: Some(p) != e.dst ==>
         At(w', p) == if Some(p) == e.src && (p.InHand? || p.InSlot?) then None else At(w, Back(e, p))
  }

  /** Everything about jobs other than `id` is as before. */
  ghost predicate OthersSame(w: World, w': World, id: string) {
    forall x :: x != id ==>
      && (x in w.Jobs() <==> x in w'.Jobs()) && (x in w.traces <==> x in w'.traces)
      && (x in w.Jobs() ==> w'.Jobs()[x] == w.Jobs()[x])
      && (x in w.traces ==> w'.traces[x] == w.traces[x])
  }

  /** How far a job at place p is from leaving the pool: queue, hand, channel, worker, handler. */
  function StageOf(w: World, p: Place): nat {
    match p
    case InQueue(_, _) => 5
    case InHand => 4
    case InChannel(_) => 3
    case InSlot(i) => if i < |w.slots| && w.slots[i].Taken? then 2 else 1
  }

  ghost predicate Stands(w: World, id: string, stage: nat) {
    exists p :: Holds(w, p, id) && StageOf(w, p) == stage
  }

  lemma PlacedStands(w: World)
    ensures forall id :: Placed(w, id) <==> exists s :: Stands(w, id, s)
  {
    forall id | Placed(w, id)
      ensures exists s :: Stands(w, id, s)
    {
      var p :| Holds(w, p, id);
      assert Stands(w, id, StageOf(w, p));
    }
  }

  /** Only job `id` may have changed, moved, come or gone. */
  ghost predicate Focus(w: World, w': World, id: string) {
    && OthersSame(w, w', id)
    && (forall x :: x != id ==> (Placed(w, x) <==> Placed(w', x)))
    && (forall x, s :: x != id ==> (Stands(w, x, s) <==> Stands(w', x, s)))
  }

  /** The move is about job `id`: it carries it on, brings it in, or takes it out. */
  ghost predicate About(w: World, w': World, e: Move, id: string) {
    && (e.src.Some? ==> Holds(w, e.src.value, id))
    && (e.dst.Some? ==> Holds(w', e.dst.value, id))
    && (e.src.None? ==> !Placed(w, id))
  }

  lemma BackInjective(e: Move, p: Place, p': Place)
    requires Back(e, p) == Back(e, p')
    ensures p == p'
  {
  }

  lemma MoveOrigin(w: World, w': World, e: Move, id: string, p: Place, x: string)
    requires Moves(w, w', e) && About(w, w', e, id)
    requires Holds(w', p, x) && Some(p) != e.dst
    ensures Holds(w, Back(e, p), x) && Some(Back(e, p)) != e.src
    ensures StageOf(w, Back(e, p)) == StageOf(w', p)
  {
  }

  lemma ForthBack(e: Move, p: Place)
    requires Some(p) != e.src
    ensures Back(e, Forth(e, p)) == p
  {
  }

  lemma MoveTarget(w: World, w': World, e: Move, id: string, p: Place, x: string)
    requires Moves(w, w', e) && About(w, w', e, id)
    requires Holds(w, p, x) && Some(p) != e.src
    ensures Holds(w', Forth(e, p), x)
    ensures StageOf(w', Forth(e, p)) == StageOf(w, p)
  {
    ForthBack(e, p);
    assert Some(Forth(e, p)) != e.dst;
  }

  lemma MoveKeepsSingle(w: World, w': World, e: Move, id: string)
    requires SingleOwner(w)
    requires Moves(w, w', e) && About(w, w', e, id)
    ensures SingleOwner(w')
  {
    forall p, p', x | Holds(w', p, x) && Holds(w', p', x)
      ensures p == p'
    {
      if Some(p) != e.dst { MoveOrigin(w, w', e, id, p, x); }
      if Some(p') != e.dst { MoveOrigin(w, w', e, id, p', x); }
      if Some(p) != e.dst && Some(p') != e.dst {
        BackInjective(e, p, p');
      }
    }
  }

  lemma MovePlaced(w: World, w': World, e: Move, id: string)
    requires SingleOwner(w)
    requires Moves(w, w', e) && About(w, w', e, id)
    ensures forall x, s :: x != id ==> (Stands(w, x, s) <==> Stands(w', x, s))
    ensures forall x :: x != id ==> (Placed(w, x) <==> Placed(w', x))
    ensures Placed(w', id) <==> e.dst.Some?
  {
    forall x, s: nat | x != id
      ensures Stands(w, x, s) <==> Stands(w', x, s)
    {
      if Stands(w, x, s) {
        var p :| Holds(w, p, x) && StageOf(w, p) == s;
        MoveTarget(w, w', e, id, p, x);
      }
      if Stands(w', x, s) {
        var p :| Holds(w', p, x) && StageOf(w', p) == s;
        MoveOrigin(w, w', e, id, p, x);
      }
    }
    PlacedStands(w);
    PlacedStands(w');
    if e.dst.Some? {
      assert Holds(w', e.dst.value, id);
    } else if Placed(w', id) {
      var p :| Holds(w', p, id);
      MoveOrigin(w, w', e, id, p, id);
    }
  }

  lemma MoveKeepsTokens(w: World, w': World, e: Move, id: string)
    requires SingleOwner(w) && TokensOk(w)
    requires Moves(w, w', e) && About(w, w', e, id) && OthersSame(w, w', id)
    requires w.now <= w'.now
    requires e.dst.Some? ==> TokenOk(w', e.dst.value, At(w', e.dst.value).value)
    ensures TokensOk(w')
  {
    forall p | At(w', p).Some?
      ensures TokenOk(w', p, At(w', p).value)
    {
      if Some(p) != e.dst {
        var t := At(w', p).value;
        MoveOrigin(w, w', e, id, p, t.Id());
        assert t.Id() != id;
      }
    }
  }

  lemma MoveKeepsJobs(w: World, w': World, e: Move, id: string)
    requires JobsOk(w)
    requires OthersSame(w, w', id) && w.m.configs.Keys <= w'.m.configs.Keys
    requires forall x :: x != id ==> (Placed(w, x) <==> Placed(w', x))
    requires id in w'.traces <==> id in w'.Jobs()
    requires id in w'.Jobs() ==> JobFine(w', id)
    ensures JobsOk(w')
  {
    forall x | x in w'.Jobs()
      ensures JobFine(w', x)
    {
      if x != id {
        assert JobFine(w, x);
      }
    }
  }

  /** The frame lemma: an action about one job keeps the core if that job is left in order. */
  lemma MoveKeepsCore(w: World, w': World, e: Move, id: string)
    requires Core(w)
    requires Moves(w, w', e) && About(w, w', e, id) && OthersSame(w, w', id)
    requires w.now <= w'.now && w.m.configs.Keys <= w'.m.configs.Keys && Seated(w')
    requires id in w'.traces <==> id in w'.Jobs()
    requires e.dst.Some? ==> TokenOk(w', e.dst.value, At(w', e.dst.value).value)
    requires id in w'.Jobs() ==> JobOk(w', id) && Spaced(w'.traces[id])
    requires id in w'.Jobs() && e.dst.None? ==> AtRest(w'.Jobs()[id], w'.traces[id])
    ensures Core(w') && Focus(w, w', id)
    ensures Placed(w', id) <==> e.dst.Some?
  {
    MoveKeepsSingle(w, w', e, id);
    MovePlaced(w, w', e, id);
    MoveKeepsTokens(w, w', e, id);
    MoveKeepsJobs(w, w', e, id);
  }

  /** An action that moves no job and changes no job. */
  ghost predicate Still(w: World, w': World) {
    && (forall p :: At(w', p) == At(w, p) && (At(w, p).Some? ==> StageOf(w', p) == StageOf(w, p)))
    && w'.Jobs() == w.Jobs() && w'.traces == w.traces
    && w.now <= w'.now && w.m.configs.Keys <= w'.m.configs.Keys
  }

  /** No job's record, history or having a place changes. */
  ghost predicate SameJobs(w: World, w': World) {
    && w'.Jobs() == w.Jobs() && w'.traces == w.traces
    && (forall x :: Placed(w, x) <==> Placed(w', x))
    && (forall x, s :: Stands(w, x, s) <==> Stands(w', x, s))
  }

  lemma StillSame(w: World, w': World)
    requires Still(w, w')
    ensures SameJobs(w, w')
  {
    forall x, s: nat
      ensures Stands(w, x, s) <==> Stands(w', x, s)
    {
      assert forall p :: Holds(w, p, x) <==> Holds(w', p, x);
    }
    PlacedStands(w);
    PlacedStands(w');
  }

  lemma StillKeepsTokens(w: World, w': World)
    requires SingleOwner(w) && TokensOk(w) && Still(w, w')
    ensures SingleOwner(w') && TokensOk(w')
  {
    assert forall p, x :: Holds(w', p, x) ==> Holds(w, p, x);
  }

  lemma StillKeepsJobs(w: World, w': World)
    requires JobsOk(w) && Still(w, w') && SameJobs(w, w')
    ensures JobsOk(w')
  {
    forall id | id in w'.Jobs()
      ensures JobFine(w', id)
    {
      assert JobFine(w, id);
    }
  }

  lemma StillKeepsCore(w: World, w': World)
    requires Core(w) && Still(w, w') && Seated(w')
    ensures Core(w') && SameJobs(w, w')
  {
    StillSame(w, w');
    StillKeepsTokens(w, w');
    StillKeepsJobs(w, w');
  }
}
