/** What the protocol guarantees over every run. */
module ProtocolGuarantees {
  import opened Jobs
  import opened MemoryStorage
  import opened QueueManager
  import opened QueueSelection
  import opened Backoff
  import opened WorkerPool
  import opened PoolProtocol
  import opened ProtocolInvariant
  import opened ProtocolPreservation

  lemma InitialCore(pool: PoolConfig, now: int)
    ensures Core(Initial(pool, now))
  {
    assert forall p :: At(Initial(pool, now), p).None?;
  }

  lemma {:induction false} RunKeepsCore(w: World, acts: seq<Action>)
    requires Core(w) && Runnable(w, acts)
    ensures Core(Exec(w, acts))
    decreases |acts|
  {
    if acts != [] {
      var id := StepKeepsCore(w, acts[0]);
      RunKeepsCore(Apply(w, acts[0]), acts[1..]);
    }
  }

  lemma ReachableCore(w: World)
    requires Reachable(w)
    ensures Core(w)
  {
    var pool, now, acts :| Runnable(Initial(pool, now), acts) && Exec(Initial(pool, now), acts) == w;
    InitialCore(pool, now);
    RunKeepsCore(Initial(pool, now), acts);
  }

  // ---- ownership and loss ----

  predicate Busy(w: World, i: nat) {
    i < |w.slots| && (w.slots[i].Taken? || w.slots[i].Executing?)
  }

  lemma SlotsDiffer(w: World)
    requires SingleOwner(w)
    ensures forall i: nat, k: nat :: Busy(w, i) && Busy(w, k) && w.slots[i].job.id == w.slots[k].job.id ==> i == k
  {
    forall i: nat, k: nat | Busy(w, i) && Busy(w, k) && w.slots[i].job.id == w.slots[k].job.id
      ensures i == k
    {
      assert Holds(w, InSlot(i), w.slots[i].job.id) && Holds(w, InSlot(k), w.slots[i].job.id);
    }
  }

  /** In every reachable state a job is in at most one place, so no two workers hold it. */
  lemma OwnedOnce(w: World)
    requires Reachable(w)
    ensures SingleOwner(w)
    ensures forall i: nat, k: nat :: Busy(w, i) && Busy(w, k) && w.slots[i].job.id == w.slots[k].job.id ==> i == k
  {
    ReachableCore(w);
    SlotsDiffer(w);
  }

  /** No job is lost: one that is not terminal has a place, and waiting it is PENDING in its own
      queue; one that has no place is SUCCESS, FAILED or CANCELLED. */
  lemma NothingLost(w: World, id: string)
    requires Reachable(w) && id in w.Jobs()
    ensures !w.Jobs()[id].IsTerminal() ==> Placed(w, id)
    ensures !Placed(w, id) ==> w.Jobs()[id].status in {Success, Failed, Cancelled}
    ensures forall p :: Holds(w, p, id) && p.InQueue? ==>
      p.q == w.Jobs()[id].queue && w.Jobs()[id].status == Pending
  {
    ReachableCore(w);
    assert JobFine(w, id);
    forall p | Holds(w, p, id) && p.InQueue?
      ensures p.q == w.Jobs()[id].queue && w.Jobs()[id].status == Pending
    {
      assert TokenOk(w, p, At(w, p).value);
    }
  }

  // ---- finality ----

  /** A job without a place is never touched again. */
  lemma {:induction false} RestIsFinal(w: World, acts: seq<Action>, id: string)
    requires Core(w) && Runnable(w, acts)
    requires id in w.Jobs() && !Placed(w, id)
    ensures var w' := Exec(w, acts);
      && id in w'.Jobs() && w'.Jobs()[id] == w.Jobs()[id]
      && id in w.traces && id in w'.traces && w'.traces[id] == w.traces[id]
      && !Placed(w', id)
    decreases |acts|
  {
    assert JobFine(w, id);
    if acts != [] {
      var touched := StepKeepsCore(w, acts[0]);
      RestIsFinal(Apply(w, acts[0]), acts[1..], id);
    }
  }

  /** Once a worker records SUCCESS or FAILED, the record never changes and no further attempt
      starts, in any continuation. */
  lemma RecordedOutcomeIsFinal(w: World, a: Action, acts: seq<Action>)
    requires Reachable(w) && Enabled(w, a) && Runnable(Apply(w, a), acts)
    requires a.Succeed? || (a.Fail? && !w.slots[a.i].job.CanRetry())
    ensures var id := w.slots[a.i].job.id;
      var w1, w2 := Apply(w, a), Exec(Apply(w, a), acts);
      && id in w1.Jobs() && id in w2.Jobs() && id in w1.traces && id in w2.traces
      && w1.Jobs()[id].status == (if a.Succeed? then Success else Failed)
      && w2.Jobs()[id] == w1.Jobs()[id] && w2.traces[id] == w1.traces[id]
      && !Placed(w2, id)
  {
    ReachableCore(w);
    if a.Succeed? { SucceedKeepsCore(w, a.i); } else { GiveUpKeepsCore(w, a.i, a.msg); }
    RestIsFinal(Apply(w, a), acts, w.slots[a.i].job.id);
  }

  lemma CancelledAtOnce(w: World, id: string, q: string, k: nat)
    requires Core(w) && Holds(w, InQueue(q, k), id)
    ensures var w1 := Apply(w, Cancel(id));
      && Core(w1) && id in w1.Jobs() && w1.Jobs()[id].status == Cancelled && !Placed(w1, id)
      && id in w.traces && w1.traces == w.traces
  {
    assert TokenOk(w, InQueue(q, k), At(w, InQueue(q, k)).value);
    CancelEffect(w, id);
    EntryIsFirst(w, q, k, id);
    CancelWaiting(w, Apply(w, Cancel(id)), q, k, id);
  }

  /** A job cancelled while its entry waits in its queue stays CANCELLED and is never executed. */
  lemma CancelledWhileWaiting(w: World, id: string, q: string, k: nat, acts: seq<Action>)
    requires Reachable(w) && Holds(w, InQueue(q, k), id)
    requires Runnable(Apply(w, Cancel(id)), acts)
    ensures var w2 := Exec(Apply(w, Cancel(id)), acts);
      && id in w2.Jobs() && w2.Jobs()[id].status == Cancelled && !Placed(w2, id)
      && id in w.traces && id in w2.traces && w2.traces[id].starts == w.traces[id].starts
  {
    ReachableCore(w);
    CancelledAtOnce(w, id, q, k);
    RestIsFinal(Apply(w, Cancel(id)), acts, id);
  }

  // ---- attempts and their spacing ----

  function Max(a: int, b: int): int {
    if a > b then a else b
  }

  /** A job is executed at most MaxRetries - (retries it was submitted with) + 1 times. */
  lemma BoundedAttempts(w: World, id: string)
    requires Reachable(w) && id in w.Jobs()
    ensures id in w.traces
    ensures |w.traces[id].starts| <= Max(0, w.Jobs()[id].maxRetries - w.traces[id].base) + 1
  {
    ReachableCore(w);
    assert JobFine(w, id);
    if Placed(w, id) {
      var p :| Holds(w, p, id);
      assert TokenOk(w, p, At(w, p).value);
    }
  }

  /** The delays computed after the first n failures, added up. */
  function TotalDelay(t: Trace, n: nat): int
    requires n <= |t.failures|
  {
    if n == 0 then 0 else TotalDelay(t, n - 1) + Delay(t, n - 1)
  }

  lemma {:induction false} SpacedAddsUp(t: Trace, n: nat)
    requires Spaced(t) && 1 <= n < |t.starts|
    ensures t.starts[n] >= t.failures[0].at + TotalDelay(t, n)
  {
    if n > 1 {
      SpacedAddsUp(t, n - 1);
    }
  }

  /** The n-th retry starts no sooner than the first failure plus all the capped delays between. */
  lemma AttemptsSpaced(w: World, id: string, n: nat)
    requires Reachable(w) && id in w.Jobs()
    ensures id in w.traces
    ensures 1 <= n < |w.traces[id].starts| ==>
      var t := w.traces[id];
      n <= |t.failures| && t.starts[n] - t.failures[0].at >= TotalDelay(t, n)
    ensures forall k :: 0 <= k < |w.traces[id].failures| ==> w.traces[id].failures[k].config.Some?
  {
    ReachableCore(w);
    assert JobFine(w, id);
    if 1 <= n < |w.traces[id].starts| {
      SpacedAddsUp(w.traces[id], n);
    }
  }

  // ---- the channel ----

  /** The fetcher's send finds a free seat, and at most twice the concurrency is in flight. */
  lemma SendNeverBlocks(w: World)
    requires Reachable(w)
    ensures w.hand.Some? ==> Enabled(w, Send)
    ensures |w.ch| + (if w.hand.Some? then 1 else 0) <= w.pool.concurrency
    ensures |w.slots| == w.pool.concurrency
  {
    ReachableCore(w);
  }

  lemma LeftInChannel(w: World, p: Place, id: string)
    requires Holds(w, p, id) && !p.InQueue? && w.hand.None?
    requires p.InSlot? ==> p.i >= |w.slots| || w.slots[p.i].Exited?
    ensures exists j :: j in w.ch && j.id == id
  {
    assert w.ch[p.k] in w.ch;
  }

  /** After a full stop every unfinished job without a queue entry is one of the at most
      `concurrency` jobs left in the channel. */
  lemma StopStrandsChannelOnly(w: World, id: string)
    requires Reachable(w) && !w.fetching
    requires forall i: nat :: i < |w.slots| ==> w.slots[i].Exited?
    requires id in w.Jobs() && !w.Jobs()[id].IsTerminal()
    requires forall q, k :: !Holds(w, InQueue(q, k), id)
    ensures |w.ch| <= w.pool.concurrency && exists j :: j in w.ch && j.id == id
  {
    ReachableCore(w);
    var p := PlaceOf(w, id);
    LeftInChannel(w, p, id);
  }

  /** One round of the loop, as actions. */
  lemma FetchRound(w: World, draw: nat)
    requires Seated(w) && w.fetching && w.hand.None? && |w.ch| < w.pool.concurrency
    ensures var (m, r) := w.m.Dequeue(w.pool.queues, draw, w.now);
      if Enabled(w, Fetch(draw)) then
        Apply(w, Fetch(draw)) == w.(m := m, hand := if r.Fetched? then Some(r.job) else None)
      else m == w.m && !r.Fetched?
  {
    if Panics(w.m, w.pool.queues) {
      PanickedOutcome(w.m, w.pool.queues, draw, w.now);
    }
  }

  lemma ExecFirst(w: World, a: Action, rest: seq<Action>)
    requires Enabled(w, a) && Runnable(Apply(w, a), rest)
    ensures Runnable(w, [a] + rest) && Exec(w, [a] + rest) == Exec(Apply(w, a), rest)
  {
    assert ([a] + rest)[1..] == rest;
  }

  /** The readings of the clock do not run backwards. */
  ghost predicate Forward(nows: nat -> int) {
    forall i: nat, k: nat :: i <= k ==> nows(i) <= nows(k)
  }

  /** What a round leaves: the clock at its reading, the manager and the channel as given. */
  ghost predicate Ends(w: World, acts: seq<Action>, m: Mgr, ch: seq<Job>, last: int) {
    Runnable(w, acts) && Exec(w, acts) == w.(m := m, ch := ch, now := last)
  }

  lemma EndsAfter(w: World, a: Action, acts: seq<Action>, m: Mgr, ch: seq<Job>, last: int)
    requires Enabled(w, a) && Ends(Apply(w, a), acts, m, ch, last)
    requires Apply(w, a).(m := m, ch := ch, now := last) == w.(m := m, ch := ch, now := last)
    ensures Ends(w, [a] + acts, m, ch, last)
  {
    ExecFirst(w, a, acts);
  }

  lemma {:induction false} ExecLast(w: World, acts: seq<Action>, a: Action)
    requires Runnable(w, acts) && Enabled(Exec(w, acts), a)
    ensures Runnable(w, acts + [a]) && Exec(w, acts + [a]) == Apply(Exec(w, acts), a)
    decreases |acts|
  {
    if acts == [] {
      assert [] + [a] == [a] && [a][1..] == [];
    } else {
      ExecLast(Apply(w, acts[0]), acts[1..], a);
      assert (acts + [a])[1..] == acts[1..] + [a];
    }
  }

  lemma ReachableThen(w: World, a: Action)
    requires Reachable(w) && Enabled(w, a)
    ensures Reachable(Apply(w, a))
  {
    var pool, now, acts :| Runnable(Initial(pool, now), acts) && Exec(Initial(pool, now), acts) == w;
    ExecLast(Initial(pool, now), acts, a);
  }

  /** A round that fetched: given back on stop, or sent and followed by the rest of the loop. */
  lemma FetchedRound(w: World, draws: nat -> nat, stops: nat -> bool, nows: nat -> int, i: nat, loop: (Mgr, seq<Job>))
    returns (acts: seq<Action>, last: int)
    requires Reachable(w) && w.fetching && w.hand.Some? && |w.ch| < w.pool.concurrency && w.now == nows(i)
    requires (forall k :: stops(k) ==> w.stopped) && Forward(nows)
    requires loop == if stops(i) then (w.m.Requeue(w.hand.value, 0, nows(i)), w.ch)
                     else FetchLoop(w.m, w.ch + [w.hand.value], w.pool, draws, stops, nows, i + 1)
    ensures w.now <= last
    ensures Runnable(w, acts) && Exec(w, acts) == w.(m := loop.0, ch := loop.1, now := last, hand := None)
    decreases w.pool.concurrency - |w.ch|, 0
  {
    if stops(i) {
      acts, last := [GiveBack] + [], w.now;
      ExecFirst(w, GiveBack, []);
    } else {
      ReachableThen(w, Send);
      acts, last := FetchLoopIsRun(Apply(w, Send), draws, stops, nows, i + 1);
      ExecFirst(w, Send, acts);
      acts := [Send] + acts;
    }
  }

  /** The code's own fetch loop is a run of ticks, fetches and sends, closed by a give-back on stop. */
  lemma {:induction false} FetchLoopIsRun(w: World, draws: nat -> nat, stops: nat -> bool, nows: nat -> int, i: nat)
    returns (acts: seq<Action>, last: int)
    requires Reachable(w) && w.fetching && w.hand.None? && w.now <= nows(i)
    requires (forall k :: stops(k) ==> w.stopped) && Forward(nows)
    ensures w.now <= last
    ensures var (m, ch) := FetchLoop(w.m, w.ch, w.pool, draws, stops, nows, i);
      Ends(w, acts, m, ch, last)
    decreases w.pool.concurrency - |w.ch|, 3
  {
    acts, last := [], w.now;
    if |w.ch| < w.pool.concurrency {
      var tick := Tick(nows(i));
      ReachableThen(w, tick);
      acts, last := FetchRounds(Apply(w, tick), draws, stops, nows, i);
      ghost var loop := FetchLoop(w.m, w.ch, w.pool, draws, stops, nows, i);
      EndsAfter(w, tick, acts, loop.0, loop.1, last);
      acts := [tick] + acts;
    }
  }

  /** One round of the function FetchLoop, in terms of the world after its fetch. */
  lemma RoundUnfolds(w: World, draws: nat -> nat, stops: nat -> bool, nows: nat -> int, i: nat)
    requires Seated(w) && w.fetching && w.hand.None? && w.now == nows(i) && |w.ch| < w.pool.concurrency
    ensures var loop := FetchLoop(w.m, w.ch, w.pool, draws, stops, nows, i);
      if !Enabled(w, Fetch(draws(i))) then loop == (w.m, w.ch)
      else
        var w1 := Apply(w, Fetch(draws(i)));
        && w1 == w.(m := w1.m, hand := w1.hand)
        && loop == if w1.hand.None? then (w1.m, w1.ch)
                   else if stops(i) then (w1.m.Requeue(w1.hand.value, 0, nows(i)), w1.ch)
                   else FetchLoop(w1.m, w1.ch + [w1.hand.value], w1.pool, draws, stops, nows, i + 1)
  {
    FetchRound(w, draws(i));
  }

  lemma NothingFetched(w: World, draw: nat)
    requires Reachable(w) && Enabled(w, Fetch(draw)) && Apply(w, Fetch(draw)).hand.None?
    ensures Apply(w, Fetch(draw)) == w
  {
    ReachableCore(w);
    var q, k := FetchEffect(w, draw);
  }

  /** A fetch and the rest of the loop. */
  lemma FetchOn(w: World, w1: World, draw: nat, draws: nat -> nat, stops: nat -> bool, nows: nat -> int, i: nat,
                loop: (Mgr, seq<Job>))
    returns (acts: seq<Action>, last: int)
    requires Enabled(w, Fetch(draw)) && w1 == Apply(w, Fetch(draw)) && w.hand.None?
    requires w1 == w.(m := w1.m, hand := w1.hand)
    requires Reachable(w1) && w1.fetching && w1.hand.Some? && |w1.ch| < w1.pool.concurrency && w1.now == nows(i)
    requires (forall k :: stops(k) ==> w1.stopped) && Forward(nows)
    requires loop == if stops(i) then (w1.m.Requeue(w1.hand.value, 0, nows(i)), w1.ch)
                     else FetchLoop(w1.m, w1.ch + [w1.hand.value], w1.pool, draws, stops, nows, i + 1)
    ensures w.now <= last && Ends(w, acts, loop.0, loop.1, last)
    decreases w1.pool.concurrency - |w1.ch|, 1
  {
    acts, last := FetchedRound(w1, draws, stops, nows, i, loop);
    ExecFirst(w, Fetch(draw), acts);
    acts := [Fetch(draw)] + acts;
  }

  /** The loop from a round whose clock has been read. */
  lemma FetchRounds(w: World, draws: nat -> nat, stops: nat -> bool, nows: nat -> int, i: nat)
    returns (acts: seq<Action>, last: int)
    requires Reachable(w) && w.fetching && w.hand.None? && w.now == nows(i) && |w.ch| < w.pool.concurrency
    requires (forall k :: stops(k) ==> w.stopped) && Forward(nows)
    ensures w.now <= last
    ensures var (m, ch) := FetchLoop(w.m, w.ch, w.pool, draws, stops, nows, i);
      Ends(w, acts, m, ch, last)
    decreases w.pool.concurrency - |w.ch|, 2
  {
    assert Seated(w) by { ReachableCore(w); }
    RoundUnfolds(w, draws, stops, nows, i);
    acts, last := [], w.now;
    if Enabled(w, Fetch(draws(i))) {
      if Apply(w, Fetch(draws(i))).hand.None? {
        NothingFetched(w, draws(i));
      } else {
        ReachableThen(w, Fetch(draws(i)));
        acts, last := FetchOn(w, Apply(w, Fetch(draws(i))), draws(i), draws, stops, nows, i,
                              FetchLoop(w.m, w.ch, w.pool, draws, stops, nows, i));
      }
    }
  }

  /** There is nothing to fetch: no listed queue is a candidate or none serves, or the selection panics. */
  ghost predicate Dry(m: Mgr, queues: seq<string>, now: int) {
    !SomeCandidate(m, queues) || !SomeServes(m.store, queues, now) || Panics(m, queues)
  }

  lemma NothingMeansDry(w: World, draw: nat)
    requires Reachable(w) && w.fetching && w.hand.None? && |w.ch| < w.pool.concurrency
    requires !Enabled(w, Fetch(draw)) || Apply(w, Fetch(draw)).hand.None?
    ensures Dry(w.m, w.pool.queues, w.now)
  {
    if Enabled(w, Fetch(draw)) {
      ReachableCore(w);
      var q, k := FetchEffect(w, draw);
    }
  }

  /** The loop only added to the channel, and went on until the channel was full, until it was told to stop,
      or until nothing was to be fetched at the reading of the clock of the round it had come to. */
  ghost predicate Fills(pool: PoolConfig, before: seq<Job>, m: Mgr, ch: seq<Job>,
                        stops: nat -> bool, nows: nat -> int, i: nat) {
    && before <= ch
    && var last := i + |ch| - |before|;
       |ch| >= pool.concurrency || stops(last) || Dry(m, pool.queues, nows(last))
  }

  lemma {:induction false} FetchLoopFills(w: World, draws: nat -> nat, stops: nat -> bool, nows: nat -> int, i: nat)
    requires Reachable(w) && w.fetching && w.hand.None? && w.now <= nows(i) && Forward(nows)
    ensures var (m, ch) := FetchLoop(w.m, w.ch, w.pool, draws, stops, nows, i);
      Fills(w.pool, w.ch, m, ch, stops, nows, i)
    decreases w.pool.concurrency - |w.ch|, 3
  {
    if |w.ch| < w.pool.concurrency {
      ReachableThen(w, Tick(nows(i)));
      FetchRoundFills(Apply(w, Tick(nows(i))), draws, stops, nows, i);
    }
  }

  /** A round whose clock has been read. */
  lemma FetchRoundFills(w: World, draws: nat -> nat, stops: nat -> bool, nows: nat -> int, i: nat)
    requires Reachable(w) && w.fetching && w.hand.None? && w.now == nows(i) && Forward(nows)
    requires |w.ch| < w.pool.concurrency
    ensures var (m, ch) := FetchLoop(w.m, w.ch, w.pool, draws, stops, nows, i);
      Fills(w.pool, w.ch, m, ch, stops, nows, i)
    decreases w.pool.concurrency - |w.ch|, 2
  {
    assert Seated(w) by { ReachableCore(w); }
    RoundUnfolds(w, draws, stops, nows, i);
    if !Enabled(w, Fetch(draws(i))) {
      NothingMeansDry(w, draws(i));
    } else {
      FetchingFills(w, Apply(w, Fetch(draws(i))), draws(i), draws, stops, nows, i,
                    FetchLoop(w.m, w.ch, w.pool, draws, stops, nows, i));
    }
  }

  lemma FetchingFills(w: World, w1: World, draw: nat, draws: nat -> nat, stops: nat -> bool, nows: nat -> int, i: nat,
                      loop: (Mgr, seq<Job>))
    requires Reachable(w) && w.fetching && w.hand.None? && w.now == nows(i) && Forward(nows)
    requires Enabled(w, Fetch(draw)) && w1 == Apply(w, Fetch(draw)) && w1 == w.(m := w1.m, hand := w1.hand)
    requires loop == if w1.hand.None? then (w1.m, w1.ch)
                     else if stops(i) then (w1.m.Requeue(w1.hand.value, 0, nows(i)), w1.ch)
                     else FetchLoop(w1.m, w1.ch + [w1.hand.value], w1.pool, draws, stops, nows, i + 1)
    ensures Fills(w.pool, w.ch, loop.0, loop.1, stops, nows, i)
    decreases w.pool.concurrency - |w.ch|, 1
  {
    if w1.hand.None? {
      NothingMeansDry(w, draw);
      NothingFetched(w, draw);
    } else if !stops(i) {
      ReachableThen(w, Fetch(draw));
      FetchedFills(w1, draws, stops, nows, i, loop);
    }
  }

  lemma FetchedFills(w: World, draws: nat -> nat, stops: nat -> bool, nows: nat -> int, i: nat, loop: (Mgr, seq<Job>))
    requires Reachable(w) && w.fetching && w.hand.Some? && |w.ch| < w.pool.concurrency && w.now == nows(i)
    requires Forward(nows) && loop == FetchLoop(w.m, w.ch + [w.hand.value], w.pool, draws, stops, nows, i + 1)
    ensures Fills(w.pool, w.ch, loop.0, loop.1, stops, nows, i)
    decreases w.pool.concurrency - |w.ch|, 0
  {
    ReachableThen(w, Send);
    assert nows(i) <= nows(i + 1);
    FetchLoopFills(Apply(w, Send), draws, stops, nows, i + 1);
    FillsOn(w.pool, w.ch, w.hand.value, loop.0, loop.1, stops, nows, i);
  }

  lemma FillsOn(pool: PoolConfig, before: seq<Job>, j: Job, m: Mgr, ch: seq<Job>,
                stops: nat -> bool, nows: nat -> int, i: nat)
    requires Fills(pool, before + [j], m, ch, stops, nows, i + 1)
    ensures Fills(pool, before, m, ch, stops, nows, i)
  {
    assert i + 1 + |ch| - |before + [j]| == i + |ch| - |before|;
  }
}
