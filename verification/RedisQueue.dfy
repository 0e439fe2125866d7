/** The Redis backend's queue: a sorted set of job IDs whose score mixes priority and enqueue time.
    A sorted set is a map from member to score; scores are binary64, times nanoseconds. */
module RedisQueue {
  import opened FloatScore

  // ---- the score ----

  /** What one step of priority is worth in nanoseconds: ten seconds. */
  const PER_PRIORITY := 10_000_000_000

  function Score(priority: int, time: int): int {
    Float64(Float64(Float64(-priority) * PER_PRIORITY) + Float64(time))
  }

  /** The score without any rounding. */
  function ExactScore(priority: int, time: int): int {
    time - priority * 10_000_000_000
  }

  /** Within one priority an earlier job never has the larger score, for any integers at all. */
  lemma ScoreGrowsWithTime(priority: int, time: int, later: int)
    requires time <= later
    ensures Score(priority, time) <= Score(priority, later)
  {
    Float64Monotone(time, later);
    var weighted := Float64(Float64(-priority) * PER_PRIORITY);
    Float64Monotone(weighted + Float64(time), weighted + Float64(later));
  }

  /** At one time a higher priority never has the larger score. */
  lemma ScoreFallsWithPriority(priority: int, higher: int, time: int)
    requires priority <= higher
    ensures Score(higher, time) <= Score(priority, time)
  {
    var p, h := Float64(-priority), Float64(-higher);
    Float64Monotone(-higher, -priority);
    var v, w := Float64(h * PER_PRIORITY), Float64(p * PER_PRIORITY);
    Float64Monotone(h * PER_PRIORITY, p * PER_PRIORITY);
    Float64Monotone(v + Float64(time), w + Float64(time));
  }

  /** Twice the most that the four roundings of a score can add up to. */
  function TwiceSlack(priority: int, time: int): nat {
    var weight := Float64(-priority) * PER_PRIORITY;
    TwiceError(-priority) * PER_PRIORITY + TwiceError(weight) + TwiceError(time)
    + TwiceError(Float64(weight) + Float64(time))
  }

  lemma ScoreDrift(priority: int, time: int)
    ensures 2 * ExactScore(priority, time) - TwiceSlack(priority, time) <= 2 * Score(priority, time)
    ensures 2 * Score(priority, time) <= 2 * ExactScore(priority, time) + TwiceSlack(priority, time)
  {
    var weight := Float64(-priority) * PER_PRIORITY;
    Float64Within(-priority);
    Float64Within(weight);
    Float64Within(time);
    Float64Within(Float64(weight) + Float64(time));
  }

  /** Each of the four roundings shows: without that of the time this score would end in 208, */
  lemma TimeIsRounded()
    ensures Score(1, 2_305_843_009_213_694_209) == 2_305_842_999_213_694_464
  {
    RoundsDown(1, 1, 1, 0);
    RoundsDown(10_000_000_000, 1, 10_000_000_000, 0);
    RoundsUp(2_305_843_009_213_694_209, 512, 4_503_599_627_370_496, 257);
    RoundsDown(2_305_842_999_213_694_464, 256, 9_007_199_215_678_494, 0);
  }

  lemma TwoTo34()
    ensures Doubled(1, 34) == 17_179_869_184
  {
    assert Doubled(1, 12) == 4096;
    assert Doubled(1, 24) == 16_777_216;
  }

  lemma HugeSpacing(w: nat) returns (q: nat)
    requires w == 90_071_992_547_409_920_000_000_000
    ensures Ulp(w) == q == 17_179_869_184
  {
    TwoTo34();
    q := Doubled(1, 34);
    UlpIs(w, 5_242_880_000_000_000, 34);
  }

  lemma HugeWeight(w: nat)
    requires w == 90_071_992_547_409_920_000_000_000
    ensures Float64(0 - w) == 0 - w
  {
    var q := HugeSpacing(w);
    RoundsDown(w, q, 5_242_880_000_000_000, 0);
  }

  /** without that of the priority this one would be one spacing of 2^34 lower, */
  lemma PriorityIsRounded()
    ensures Score(9_007_199_254_740_993, 0) == -90_071_992_547_409_920_000_000_000
  {
    RoundsDown(9_007_199_254_740_993, 2, 4_503_599_627_370_496, 1);
    RoundsDown(0, 1, 0, 0);
    HugeWeight(90_071_992_547_409_920_000_000_000);
  }

  /** without that of their product this one would be 1024 lower, */
  lemma ProductIsRounded()
    ensures Score(922_337_205, 1_700_000_000_000_000_000) == -7_523_372_049_999_998_976
  {
    RoundsDown(922_337_205, 1, 922_337_205, 0);
    RoundsDown(9_223_372_050_000_000_000, 2048, 4_503_599_633_789_062, 1024);
    RoundsDown(1_700_000_000_000_000_000, 256, 6_640_625_000_000_000, 0);
    RoundsDown(7_523_372_049_999_998_976, 1024, 7_347_043_017_578_124, 0);
  }

  /** and without that of the sum this one would end in 256. */
  lemma SumIsRounded()
    ensures Score(-70_000_000, 1_700_000_000_000_000_256) == 2_400_000_000_000_000_000
  {
    RoundsDown(70_000_000, 1, 70_000_000, 0);
    RoundsDown(700_000_000_000_000_000, 128, 5_468_750_000_000_000, 0);
    RoundsDown(1_700_000_000_000_000_256, 256, 6_640_625_000_000_001, 0);
    RoundsDown(2_400_000_000_000_000_256, 512, 4_687_500_000_000_000, 256);
  }

  /** A job enqueued at `time` with `priority` could be taken before one of (other, since): ten seconds
      per priority step, and the roundings of both scores. */
  predicate MayOvertake(priority: int, time: int, other: int, since: int) {
    2 * (time - since)
    <= 2 * (priority - other) * 10_000_000_000 + TwiceSlack(priority, time) + TwiceSlack(other, since)
  }

  /** The order of scores is the order of exact scores, up to the roundings, for any integers. */
  lemma ScoreOrder(priority: int, time: int, other: int, since: int)
    ensures Score(priority, time) <= Score(other, since) ==> MayOvertake(priority, time, other, since)
    ensures !MayOvertake(other, since, priority, time) ==> Score(priority, time) < Score(other, since)
  {
    ScoreDrift(priority, time);
    ScoreDrift(other, since);
  }

  /** Clock readings that fit 64-bit nanoseconds, and priorities whose score does. */
  predicate InRange(priority: int, time: int) {
    -400_000_000 <= priority <= 400_000_000 && 0 <= time < 0x8000_0000_0000_0000
  }

  /** There the roundings of a score are at most 256 + 512 + 1024 ns, so those of two 3584 ns. */
  lemma SlackInRange(priority: int, time: int)
    requires InRange(priority, time)
    ensures TwiceSlack(priority, time) <= 3584
  {
    var weight := -priority * PER_PRIORITY;
    Float64Exact(-priority);
    ErrorBound(-priority, 1);
    ErrorBound(weight, 512);
    ErrorBound(time, 1024);
    Float64Error(weight, 512);
    Float64Error(time, 1024);
    ErrorBound(Float64(weight) + Float64(time), 2048);
  }

  // ---- the sorted set ----

  type Zset = map<string, int>

  /** Members of equal score are ordered by their bytes. */
  predicate LexLess(a: string, b: string) {
    if b == [] then false
    else if a == [] then true
    else if a[0] != b[0] then a[0] < b[0]
    else LexLess(a[1..], b[1..])
  }

  predicate Ahead(z: Zset, a: string, b: string)
    requires a in z && b in z
  {
    z[a] < z[b] || (z[a] == z[b] && LexLess(a, b))
  }

  predicate IsFirst(z: Zset, id: string) {
    id in z && forall o :: o in z && o != id ==> Ahead(z, id, o)
  }

  /** Equal for k bytes, and then `a` ends or has the smaller byte. */
  predicate SmallerAt(a: string, b: string, k: nat) {
    k <= |a| && k < |b| && a[..k] == b[..k] && (k == |a| || a[k] < b[k])
  }

  lemma {:induction false} LexLessIs(a: string, b: string)
    ensures LexLess(a, b) <==> exists k: nat :: SmallerAt(a, b, k)
  {
    if LexLess(a, b) {
      var k := FirstDifference(a, b);
    }
    forall k: nat | SmallerAt(a, b, k)
      ensures LexLess(a, b)
    {
      SmallerIsLess(a, b, k);
    }
  }

  lemma {:induction false} FirstDifference(a: string, b: string) returns (k: nat)
    requires LexLess(a, b)
    ensures SmallerAt(a, b, k)
  {
    k := 0;
    if a != [] && a[0] == b[0] {
      k := FirstDifference(a[1..], b[1..]);
      assert a[..k + 1] == [a[0]] + a[1..][..k] && b[..k + 1] == [b[0]] + b[1..][..k];
      k := k + 1;
    }
  }

  lemma {:induction false} SmallerIsLess(a: string, b: string, k: nat)
    requires SmallerAt(a, b, k)
    ensures LexLess(a, b)
  {
    if k > 0 {
      assert a[..k][0] == a[0] && b[..k][0] == b[0];
      assert a[1..][..k - 1] == a[..k][1..] && b[1..][..k - 1] == b[..k][1..];
      SmallerIsLess(a[1..], b[1..], k - 1);
    }
  }

  lemma {:induction false} LexTotal(a: string, b: string)
    ensures a != b ==> LexLess(a, b) || LexLess(b, a)
    ensures !(LexLess(a, b) && LexLess(b, a)) && !LexLess(a, a)
  {
    if a != [] && b != [] {
      LexTotal(a[1..], b[1..]);
      if a[0] == b[0] && a != b {
        assert a == [a[0]] + a[1..] && b == [b[0]] + b[1..];
      }
    }
    if a != [] {
      LexTotal(a[1..], a[1..]);
    }
  }

  lemma {:induction false} LexTransitive(a: string, b: string, c: string)
    requires LexLess(a, b) && LexLess(b, c)
    ensures LexLess(a, c)
  {
    if a != [] && b != [] && c != [] && a[0] == b[0] == c[0] {
      LexTransitive(a[1..], b[1..], c[1..]);
    }
  }

  /** A sorted set that is not empty has a first member. */
  lemma {:induction false} FirstExists(z: Zset) returns (id: string)
    requires z != map[]
    ensures IsFirst(z, id)
    decreases |z|
  {
    var x :| x in z;
    var rest := z - {x};
    assert z.Keys == rest.Keys + {x};
    if rest == map[] {
      id := x;
    } else {
      var f := FirstExists(rest);
      LexTotal(x, f);
      id := if Ahead(z, x, f) then x else f;
      forall o | o in z && o != id
        ensures Ahead(z, id, o)
      {
        if o in rest && o != f {
          assert Ahead(rest, f, o);
          if id == x && z[x] == z[f] == z[o] {
            LexTransitive(x, f, o);
          }
        }
      }
    }
  }

  lemma FirstUnique(z: Zset, a: string, b: string)
    requires IsFirst(z, a) && IsFirst(z, b)
    ensures a == b
  {
    LexTotal(a, b);
  }

  lemma SomeFirst(z: Zset)
    requires z != map[]
    ensures exists id :: IsFirst(z, id)
  {
    var id := FirstExists(z);
  }

  ghost function First(z: Zset): (id: string)
    requires z != map[]
    ensures IsFirst(z, id)
  {
    SomeFirst(z);
    var id :| IsFirst(z, id);
    id
  }

  // ---- runs over one queue ----

  datatype Event = Push(id: string, priority: int, time: int) | Pop | Drop(id: string)

  ghost function Step(z: Zset, e: Event): Zset {
    match e
    case Push(id, priority, time) => z[id := Score(priority, time)]
    case Pop => if z == map[] then z else z - {First(z)}
    case Drop(id) => z - {id}
  }

  ghost function After(events: seq<Event>, n: nat): Zset
    requires n <= |events|
  {
    if n == 0 then map[] else Step(After(events, n - 1), events[n - 1])
  }

  /** The last enqueue of `id` among the first n events, or -1. */
  function LastPush(events: seq<Event>, n: nat, id: string): (k: int)
    requires n <= |events|
    ensures -1 <= k < n
    ensures k >= 0 ==> events[k].Push? && events[k].id == id
  {
    if n == 0 then -1
    else if events[n - 1].Push? && events[n - 1].id == id then n - 1
    else LastPush(events, n - 1, id)
  }

  /** A member is in the set once, with the score of its last enqueue. */
  lemma {:induction false} StoredScore(events: seq<Event>, n: nat, id: string)
    requires n <= |events| && id in After(events, n)
    ensures var k := LastPush(events, n, id);
      k >= 0 && After(events, n)[id] == Score(events[k].priority, events[k].time)
  {
    var e := events[n - 1];
    if !(e.Push? && e.id == id) {
      StoredScore(events, n - 1, id);
    }
  }

  /** Whenever a pop takes b and leaves a behind, b was enqueued at most ten seconds per priority step
      (and the roundings of the scores) after a, which in range is 3584 ns of rounding.  Within one
      priority, and b not enqueued before a, only a tie of scores lets b go first, and then by the bytes
      of its ID. */
  lemma BoundedOvertaking(events: seq<Event>, n: nat, a: string)
    requires n < |events| && events[n].Pop? && a in After(events, n)
    requires a != First(After(events, n))
    ensures var b := First(After(events, n));
      var i, k := LastPush(events, n, a), LastPush(events, n, b);
      && i >= 0 && k >= 0
      && MayOvertake(events[k].priority, events[k].time, events[i].priority, events[i].time)
      && (InRange(events[k].priority, events[k].time) && InRange(events[i].priority, events[i].time) ==>
            events[k].time - events[i].time
              <= (events[k].priority - events[i].priority) * 10_000_000_000 + 3584)
      && (events[k].priority == events[i].priority && events[i].time <= events[k].time ==>
            Score(events[i].priority, events[i].time) == Score(events[k].priority, events[k].time)
            && LexLess(b, a))
  {
    var z := After(events, n);
    var b := First(z);
    StoredScore(events, n, a);
    StoredScore(events, n, b);
    var i, k := LastPush(events, n, a), LastPush(events, n, b);
    assert Ahead(z, b, a);
    ScoreOrder(events[k].priority, events[k].time, events[i].priority, events[i].time);
    if InRange(events[k].priority, events[k].time) && InRange(events[i].priority, events[i].time) {
      SlackInRange(events[k].priority, events[k].time);
      SlackInRange(events[i].priority, events[i].time);
    }
    if events[k].priority == events[i].priority && events[i].time <= events[k].time {
      ScoreGrowsWithTime(events[i].priority, events[i].time, events[k].time);
    }
  }

  // ---- no starvation ----

  /** Events from..n-1 that pop. */
  function Pops(events: seq<Event>, from: nat, n: nat): nat
    requires from <= n <= |events|
  {
    if from == n then 0 else Pops(events, from, n - 1) + if events[n - 1].Pop? then 1 else 0
  }

  /** Enqueues among events from..n-1 that could overtake a job of this priority and time. */
  function Overtakers(events: seq<Event>, from: nat, n: nat, priority: int, time: int): nat
    requires from <= n <= |events|
  {
    if from == n then 0
    else
      var e := events[n - 1];
      Overtakers(events, from, n - 1, priority, time)
      + if e.Push? && MayOvertake(e.priority, e.time, priority, time) then 1 else 0
  }

  /** The members that do not come after a job of this score. */
  ghost function UpTo(z: Zset, score: int): set<string> {
    set id | id in z && z[id] <= score
  }

  lemma SetMinus(s: set<string>, t: set<string>, x: string)
    requires s <= t - {x} && x in t
    ensures |s| <= |t| - 1
  {
    Subset(s, t - {x});
  }

  lemma {:induction false} Subset(s: set<string>, t: set<string>)
    requires s <= t
    ensures |s| <= |t|
    decreases s
  {
    if s != {} {
      var x :| x in s;
      Subset(s - {x}, t - {x});
    }
  }

  /** One event: a pop uses up one of them, and only an enqueue that may overtake adds one. */
  lemma UpToStep(z: Zset, e: Event, a: string, priority: int, time: int)
    requires a in z && z[a] == Score(priority, time)
    ensures |UpTo(Step(z, e), z[a])| + (if e.Pop? then 1 else 0)
         <= |UpTo(z, z[a])| + if e.Push? && MayOvertake(e.priority, e.time, priority, time) then 1 else 0
  {
    var s := z[a];
    match e
    case Push(id, p, t) =>
      ScoreOrder(p, t, priority, time);
      if MayOvertake(p, t, priority, time) {
        Subset(UpTo(Step(z, e), s), UpTo(z, s) + {id});
      } else {
        Subset(UpTo(Step(z, e), s), UpTo(z, s));
      }
    case Pop =>
      var b := First(z);
      assert b == a || Ahead(z, b, a);
      SetMinus(UpTo(Step(z, e), s), UpTo(z, s), b);
    case Drop(id) =>
      Subset(UpTo(Step(z, e), s), UpTo(z, s));
  }

  /** `a` waits, with the score of one enqueue, from event `from` to event `n`. */
  ghost predicate Waits(events: seq<Event>, from: nat, n: nat, a: string, score: int)
    requires from <= n <= |events|
  {
    forall m :: from <= m <= n ==> a in After(events, m) && After(events, m)[a] == score
  }

  lemma {:induction false} PopsAccounted(
      events: seq<Event>, from: nat, n: nat, a: string, priority: int, time: int)
    requires from <= n <= |events|
    requires Waits(events, from, n, a, Score(priority, time))
    ensures Pops(events, from, n) + |UpTo(After(events, n), Score(priority, time))|
         <= |UpTo(After(events, from), Score(priority, time))| + Overtakers(events, from, n, priority, time)
  {
    if from < n {
      PopsAccounted(events, from, n - 1, a, priority, time);
      UpToStep(After(events, n - 1), events[n - 1], a, priority, time);
    }
  }

  /** No starvation: while a job waits, the pops that pass it by are fewer than the jobs it found in
      the queue and the enqueues within its ten seconds per priority step. */
  lemma NoStarvation(events: seq<Event>, from: nat, n: nat, a: string, priority: int, time: int)
    requires from <= n <= |events|
    requires Waits(events, from, n, a, Score(priority, time))
    ensures Pops(events, from, n)
          < |After(events, from)| + Overtakers(events, from, n, priority, time)
  {
    var s := Score(priority, time);
    PopsAccounted(events, from, n, a, priority, time);
    assert a in UpTo(After(events, n), s);
    Subset({a}, UpTo(After(events, n), s));
    Subset(UpTo(After(events, from), s), After(events, from).Keys);
  }

  /** Strict priority does not hold, whatever the score's comment says: 101 seconds are enough for a
      low job to pass ahead of a high one. */
  lemma PriorityIsNotStrict(time: int)
    requires 0 <= time < 0x7000_0000_0000_0000
    ensures var events := [Push("low", 0, time), Push("high", 10, time + 101_000_000_000), Pop];
      IsFirst(After(events, 2), "low")
  {
    var events := [Push("low", 0, time), Push("high", 10, time + 101_000_000_000), Pop];
    SlackInRange(0, time);
    SlackInRange(10, time + 101_000_000_000);
    ScoreOrder(0, time, 10, time + 101_000_000_000);
    assert After(events, 0) == map[];
    assert After(events, 1) == map["low" := Score(0, time)];
    var z := After(events, 2);
    assert z == map["low" := Score(0, time)]["high" := Score(10, time + 101_000_000_000)];
    assert "low" in z && "high" in z && z["low"] < z["high"];
  }

  // ---- the store object ----

  datatype Error = InvalidValue | QueuePaused | EmptyQueue | JobNotFound

  datatype Outcome<+T> = Done(value: T) | Refused(error: Error)

  class RedisStore {
    var zsets: map<string, Zset>
    var paused: set<string>

    constructor ()
      ensures zsets == map[] && paused == {}
    {
      zsets, paused := map[], {};
    }

    /** A key that is missing is an empty set. */
    function Queue(name: string): Zset
      reads this
    {
      if name in zsets then zsets[name] else map[]
    }

    /** Nothing but the set `name` differs from before, which is now `z`. */
    twostate predicate OnlyQueue(name: string, z: Zset)
      reads this
    {
      && paused == old(paused)
      && Queue(name) == z
      && forall q :: q != name ==> Queue(q) == old(Queue(q))
    }

    method Enqueue(queue: string, id: string, priority: int, now: int) returns (r: Outcome<()>)
      modifies this
      ensures r == if queue == "" || id == "" then Refused(InvalidValue)
                   else if queue in paused then Refused(QueuePaused) else Done(())
      ensures OnlyQueue(queue, if r.Done? then Step(old(Queue(queue)), Push(id, priority, now))
                               else old(Queue(queue)))
    {
      if queue == "" || id == "" { return Refused(InvalidValue); }
      if queue in paused { return Refused(QueuePaused); }
      var score := Score(priority, now);
      zsets := zsets[queue := Queue(queue)[id := score]];
      return Done(());
    }

    /** The pop is one script: read the first member, remove it. */
    method Dequeue(queue: string, worker: string) returns (r: Outcome<string>)
      modifies this
      ensures queue == "" || worker == "" ==> r == Refused(InvalidValue)
      ensures queue != "" && worker != "" && queue in paused ==> r == Refused(QueuePaused)
      ensures queue != "" && worker != "" && queue !in paused ==>
        r == if old(Queue(queue)) == map[] then Refused(EmptyQueue) else Done(First(old(Queue(queue))))
      ensures OnlyQueue(queue, if r.Done? then Step(old(Queue(queue)), Pop) else old(Queue(queue)))
    {
      if queue == "" || worker == "" { return Refused(InvalidValue); }
      if queue in paused { return Refused(QueuePaused); }
      var z := Queue(queue);
      if z == map[] { return Refused(EmptyQueue); }
      SomeFirst(z);
      var id :| id in z && IsFirst(z, id);
      FirstUnique(z, id, First(z));
      zsets := zsets[queue := z - {id}];
      return Done(id);
    }

    method Requeue(queue: string, id: string, priority: int, now: int) returns (r: Outcome<()>)
      modifies this
      ensures r == if queue == "" || id == "" then Refused(InvalidValue)
                   else if queue in paused then Refused(QueuePaused) else Done(())
      ensures OnlyQueue(queue, if r.Done? then Step(old(Queue(queue)), Push(id, priority, now))
                               else old(Queue(queue)))
    {
      r := Enqueue(queue, id, priority, now);
    }

    /** A paused queue does not stop a removal. */
    method Remove(queue: string, id: string) returns (r: Outcome<()>)
      modifies this
      ensures r == if queue == "" || id == "" then Refused(InvalidValue)
                   else if id in old(Queue(queue)) then Done(()) else Refused(JobNotFound)
      ensures OnlyQueue(queue, if r.Done? then Step(old(Queue(queue)), Drop(id)) else old(Queue(queue)))
    {
      if queue == "" || id == "" { return Refused(InvalidValue); }
      var z := Queue(queue);
      if id !in z { return Refused(JobNotFound); }
      zsets := zsets[queue := z - {id}];
      return Done(());
    }

    method Peek(queue: string) returns (r: Outcome<string>)
      ensures r == if queue == "" then Refused(InvalidValue)
                   else if Queue(queue) == map[] then Refused(EmptyQueue) else Done(First(Queue(queue)))
    {
      if queue == "" { return Refused(InvalidValue); }
      var z := Queue(queue);
      if z == map[] { return Refused(EmptyQueue); }
      SomeFirst(z);
      var id :| id in z && IsFirst(z, id);
      FirstUnique(z, id, First(z));
      return Done(id);
    }

    method PauseQueue(queue: string) returns (r: Outcome<()>)
      modifies this
      ensures r == if queue == "" then Refused(InvalidValue) else Done(())
      ensures zsets == old(zsets) && paused == if r.Done? then old(paused) + {queue} else old(paused)
    {
      if queue == "" { return Refused(InvalidValue); }
      paused := paused + {queue};
      return Done(());
    }

    method ResumeQueue(queue: string) returns (r: Outcome<()>)
      modifies this
      ensures r == if queue == "" then Refused(InvalidValue) else Done(())
      ensures zsets == old(zsets) && paused == if r.Done? then old(paused) - {queue} else old(paused)
    {
      if queue == "" { return Refused(InvalidValue); }
      paused := paused - {queue};
      return Done(());
    }
  }
}
