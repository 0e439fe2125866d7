/** The token-bucket limiter, over real-valued tokens and seconds. */
module TokenBucket {
  datatype Bucket = Bucket(tokens: real, maxTokens: real, rate: real, last: real)
  {
    function Refill(now: real): Bucket {
      var t := tokens + (now - last) * rate;
      this.(tokens := if t > maxTokens then maxTokens else t, last := now)
    }

    function Allows(now: real): bool {
      Refill(now).tokens >= 1.0
    }

    function After(now: real): Bucket {
      var b := Refill(now);
      if b.tokens >= 1.0 then b.(tokens := b.tokens - 1.0) else b
    }
  }

  function Full(rate: real, burst: int, now: real): Bucket {
    Bucket(burst as real, burst as real, rate, now)
  }

  // ---- a history of calls ----

  /** The bucket after the first n calls. */
  function State(b: Bucket, times: seq<real>, n: nat): Bucket
    requires n <= |times|
  {
    if n == 0 then b else State(b, times, n - 1).After(times[n - 1])
  }

  /** The answer to call n. */
  function Answer(b: Bucket, times: seq<real>, n: nat): bool
    requires n < |times|
  {
    State(b, times, n).Allows(times[n])
  }

  /** Calls k..n-1 that were accepted. */
  function Accepted(b: Bucket, times: seq<real>, k: nat, n: nat): nat
    requires k <= n <= |times|
  {
    if k == n then 0
    else Accepted(b, times, k, n - 1) + if Answer(b, times, n - 1) then 1 else 0
  }

  ghost predicate Ordered(start: real, times: seq<real>) {
    && (forall i :: 0 <= i < |times| ==> start <= times[i])
    && (forall i, k :: 0 <= i <= k < |times| ==> times[i] <= times[k])
  }

  /** What the limits since call k leave for call n. */
  function Allowance(b: Bucket, times: seq<real>, k: nat, n: nat): real
    requires k <= n < |times|
  {
    b.maxTokens + b.rate * (times[n] - times[k]) - Accepted(b, times, k, n) as real
  }

  function Level(b: Bucket, times: seq<real>, n: nat): real
    requires n < |times|
  {
    State(b, times, n).Refill(times[n]).tokens
  }

  lemma {:induction false} StateParameters(b: Bucket, times: seq<real>, n: nat)
    requires n <= |times|
    ensures var s := State(b, times, n);
      s.maxTokens == b.maxTokens && s.rate == b.rate && s.last == if n == 0 then b.last else times[n - 1]
  {
    if n > 0 {
      StateParameters(b, times, n - 1);
    }
  }

  /** One more call: the level is the capped growth of what the last call left. */
  lemma LevelStep(b: Bucket, times: seq<real>, n: nat)
    requires n + 1 < |times|
    ensures var left := Level(b, times, n) - (if Answer(b, times, n) then 1.0 else 0.0);
      var grown := left + (times[n + 1] - times[n]) * b.rate;
      Level(b, times, n + 1) == if grown > b.maxTokens then b.maxTokens else grown
  {
    StateParameters(b, times, n);
    StateParameters(b, times, n + 1);
  }

  /** An allowance looks one call further. */
  lemma AllowanceStep(b: Bucket, times: seq<real>, k: nat, n: nat)
    requires k <= n && n + 1 < |times|
    ensures Allowance(b, times, k, n + 1)
         == Allowance(b, times, k, n) - (if Answer(b, times, n) then 1.0 else 0.0)
            + (times[n + 1] - times[n]) * b.rate
  {
    var r, x, y, z := b.rate, times[n + 1], times[n], times[k];
    assert r * (x - z) == r * (y - z) + (x - y) * r;
  }

  ghost predicate Under(b: Bucket, times: seq<real>, n: nat, level: real)
    requires n < |times|
  {
    forall k :: 0 <= k <= n ==> level <= Allowance(b, times, k, n)
  }

  /** The first call finds a full bucket, however long after the limit was set. */
  lemma FirstLevel(b: Bucket, times: seq<real>)
    requires b.tokens == b.maxTokens && b.rate >= 0.0 && |times| > 0 && b.last <= times[0]
    ensures Level(b, times, 0) == Allowance(b, times, 0, 0)
  {
    assert (times[0] - b.last) * b.rate >= 0.0;
  }

  /** The level is the least allowance over all earlier calls, call n itself included: below every
      one of them, and equal to one. */
  lemma {:induction false} LevelIsLeastAllowance(b: Bucket, times: seq<real>, n: nat) returns (least: nat)
    requires b.tokens == b.maxTokens && b.rate >= 0.0 && Ordered(b.last, times) && n < |times|
    ensures least <= n && Level(b, times, n) == Allowance(b, times, least, n)
    ensures Under(b, times, n, Level(b, times, n))
  {
    if n == 0 {
      least := 0;
      FirstLevel(b, times);
    } else {
      var m := LevelIsLeastAllowance(b, times, n - 1);
      least := NextLeast(b, times, n - 1, m);
    }
  }

  lemma NextLeast(b: Bucket, times: seq<real>, n: nat, m: nat) returns (least: nat)
    requires n + 1 < |times| && m <= n
    requires Level(b, times, n) == Allowance(b, times, m, n)
    requires Under(b, times, n, Level(b, times, n))
    ensures least <= n + 1 && Level(b, times, n + 1) == Allowance(b, times, least, n + 1)
    ensures Under(b, times, n + 1, Level(b, times, n + 1))
  {
    ghost var grown := Level(b, times, n) - (if Answer(b, times, n) then 1.0 else 0.0)
                       + (times[n + 1] - times[n]) * b.rate;
    ghost var level := Level(b, times, n + 1);
    assert level == if grown > b.maxTokens then b.maxTokens else grown by { LevelStep(b, times, n); }
    assert Allowance(b, times, m, n + 1) == grown by { AllowanceStep(b, times, m, n); }
    assert Allowance(b, times, n + 1, n + 1) == b.maxTokens by {
      assert b.rate * (times[n + 1] - times[n + 1]) == 0.0;
    }
    least := if grown > b.maxTokens then n + 1 else m;
    GrownUnder(b, times, n, grown);
  }

  /** What stays under every allowance for call n stays so, grown, for call n + 1. */
  lemma GrownUnder(b: Bucket, times: seq<real>, n: nat, grown: real)
    requires n + 1 < |times| && Under(b, times, n, Level(b, times, n))
    requires grown == Level(b, times, n) - (if Answer(b, times, n) then 1.0 else 0.0)
                      + (times[n + 1] - times[n]) * b.rate
    ensures Under(b, times, n + 1, if grown > b.maxTokens then b.maxTokens else grown)
  {
    var level := if grown > b.maxTokens then b.maxTokens else grown;
    var next := n + 1;
    forall k | 0 <= k <= next
      ensures level <= Allowance(b, times, k, next)
    {
      if k <= n {
        AllowanceStep(b, times, k, n);
        assert Level(b, times, n) <= Allowance(b, times, k, n);
      } else {
        assert b.rate * (times[next] - times[next]) == 0.0;
      }
    }
  }

  /** One call more than `accepted` fits in what a full bucket has given out after `elapsed` seconds. */
  predicate Room(accepted: nat, burst: real, rate: real, elapsed: real) {
    accepted as real + 1.0 <= burst + rate * elapsed
  }

  /** Call n and the accepted calls since call k fit in the bucket's bounds. */
  predicate Fits(b: Bucket, times: seq<real>, k: nat, n: nat)
    requires k <= n < |times|
  {
    Room(Accepted(b, times, k, n), b.maxTokens, b.rate, times[n] - times[k])
  }

  /** The limiter is exact: call n is accepted if and only if, for every earlier call k, call k
      being n itself included, the accepted calls since k and this one fit in
      burst + rate * (now - time of k). */
  lemma AllowIsExact(rate: real, burst: int, start: real, times: seq<real>, n: nat)
    requires rate >= 0.0 && Ordered(start, times) && n < |times|
    ensures var b := Full(rate, burst, start);
      Answer(b, times, n) <==> forall k :: 0 <= k <= n ==>
        Room(Accepted(b, times, k, n), burst as real, rate, times[n] - times[k])
  {
    ExactByFits(rate, burst, start, times, n);
    var b := Full(rate, burst, start);
    assert forall k :: 0 <= k <= n ==>
      (Fits(b, times, k, n) <==> Room(Accepted(b, times, k, n), burst as real, rate, times[n] - times[k]));
  }

  lemma ExactByFits(rate: real, burst: int, start: real, times: seq<real>, n: nat)
    requires rate >= 0.0 && Ordered(start, times) && n < |times|
    ensures var b := Full(rate, burst, start);
      Answer(b, times, n) <==> forall k :: 0 <= k <= n ==> Fits(b, times, k, n)
  {
    var b := Full(rate, burst, start);
    var least := LevelIsLeastAllowance(b, times, n);
    forall k | 0 <= k <= n
      ensures Fits(b, times, k, n) <==> Allowance(b, times, k, n) >= 1.0
    {
    }
    if Answer(b, times, n) {
      forall k | 0 <= k <= n
        ensures Fits(b, times, k, n)
      {
        assert Level(b, times, n) <= Allowance(b, times, k, n);
      }
    } else {
      assert !Fits(b, times, least, n);
    }
  }

  /** What the limit leaves for call n, counted from when it was set. */
  function SinceSet(b: Bucket, times: seq<real>, n: nat): real
    requires n < |times|
  {
    Remaining(Accepted(b, times, 0, n), b.maxTokens, b.rate, times[n] - b.last)
  }

  /** What a full bucket that never overflows holds after `elapsed` seconds and so many accepted calls. */
  function Remaining(accepted: nat, burst: real, rate: real, elapsed: real): real {
    burst + rate * elapsed - accepted as real
  }

  lemma SinceSetStep(b: Bucket, times: seq<real>, n: nat)
    requires n + 1 < |times|
    ensures SinceSet(b, times, n + 1)
         == SinceSet(b, times, n) - (if Answer(b, times, n) then 1.0 else 0.0) + (times[n + 1] - times[n]) * b.rate
  {
    var r, x, y, z := b.rate, times[n + 1], times[n], b.last;
    assert r * (x - z) == r * (y - z) + (x - y) * r;
  }

  lemma FirstDrained(b: Bucket, times: seq<real>)
    requires b.tokens == b.maxTokens && b.rate < 0.0 && |times| > 0 && b.last <= times[0]
    ensures Level(b, times, 0) == SinceSet(b, times, 0) && Level(b, times, 0) <= b.maxTokens
  {
    ghost var level, since, drained := Level(b, times, 0), SinceSet(b, times, 0), (times[0] - b.last) * b.rate;
    assert drained <= 0.0;
    assert level == if b.tokens + drained > b.maxTokens then b.maxTokens else b.tokens + drained;
    assert since == b.maxTokens + b.rate * (times[0] - b.last);
  }

  lemma NextDrained(b: Bucket, times: seq<real>, n: nat)
    requires b.rate < 0.0 && n + 1 < |times| && times[n] <= times[n + 1]
    requires Level(b, times, n) == SinceSet(b, times, n) && Level(b, times, n) <= b.maxTokens
    ensures Level(b, times, n + 1) == SinceSet(b, times, n + 1) && Level(b, times, n + 1) <= b.maxTokens
  {
    ghost var growth := (times[n + 1] - times[n]) * b.rate;
    assert growth <= 0.0;
    ghost var next, since := Level(b, times, n + 1), SinceSet(b, times, n + 1);
    ghost var left := Level(b, times, n) - (if Answer(b, times, n) then 1.0 else 0.0);
    assert next == if left + growth > b.maxTokens then b.maxTokens else left + growth by { LevelStep(b, times, n); }
    assert since == left + growth by { SinceSetStep(b, times, n); }
  }

  lemma {:induction false} DrainingLevel(b: Bucket, times: seq<real>, n: nat)
    requires b.tokens == b.maxTokens && b.rate < 0.0 && Ordered(b.last, times) && n < |times|
    ensures Level(b, times, n) == SinceSet(b, times, n) && Level(b, times, n) <= b.maxTokens
  {
    if n == 0 {
      FirstDrained(b, times);
    } else {
      DrainingLevel(b, times, n - 1);
      NextDrained(b, times, n - 1);
    }
  }

  lemma RoomLeft(accepted: nat, burst: real, rate: real, elapsed: real)
    ensures Remaining(accepted, burst, rate, elapsed) >= 1.0 <==> Room(accepted, burst, rate, elapsed)
  {
    var given := rate * elapsed;
    assert Room(accepted, burst, rate, elapsed) <==> accepted as real + 1.0 <= burst + given;
  }

  lemma RoomSinceSet(b: Bucket, times: seq<real>, n: nat)
    requires n < |times|
    ensures SinceSet(b, times, n) >= 1.0 <==> Room(Accepted(b, times, 0, n), b.maxTokens, b.rate, times[n] - b.last)
  {
    RoomLeft(Accepted(b, times, 0, n), b.maxTokens, b.rate, times[n] - b.last);
  }

  /** With a negative rate the bucket only drains: call n is accepted if and only if all accepted calls
      and this one fit in burst + rate * (time since the limit was set). */
  lemma DrainingIsExact(rate: real, burst: int, start: real, times: seq<real>, n: nat)
    requires rate < 0.0 && Ordered(start, times) && n < |times|
    ensures var b := Full(rate, burst, start);
      Answer(b, times, n) <==> Room(Accepted(b, times, 0, n), burst as real, rate, times[n] - start)
  {
    var b := Full(rate, burst, start);
    DrainingLevel(b, times, n);
    assert Answer(b, times, n) <==> SinceSet(b, times, n) >= 1.0;
    RoomSinceSet(b, times, n);
  }

  /** So in every window of calls that ends in an accepted one, the accepted calls keep within
      burst + rate * (time between first and last). */
  lemma WindowBound(rate: real, burst: int, start: real, times: seq<real>, k: nat, n: nat)
    requires rate >= 0.0 && Ordered(start, times) && k <= n < |times|
    requires Answer(Full(rate, burst, start), times, n)
    ensures Accepted(Full(rate, burst, start), times, k, n + 1) as real <= burst as real + rate * (times[n] - times[k])
  {
    var b := Full(rate, burst, start);
    AllowIsExact(rate, burst, start, times, n);
    assert Accepted(b, times, k, n + 1) == Accepted(b, times, k, n) + 1;
  }

  // ---- refused calls leave no trace ----

  /** Two capped refills are one. */
  lemma RefillsCompose(b: Bucket, t: real, u: real)
    requires b.last <= t <= u && b.tokens <= b.maxTokens
    ensures b.Refill(t).Refill(u) == b.Refill(u)
  {
    var r := b.rate;
    var d1, d2 := t - b.last, u - t;
    assert (u - b.last) * r == d1 * r + d2 * r;
    if r >= 0.0 {
      assert d1 * r >= 0.0 && d2 * r >= 0.0;
    } else {
      assert d1 * r <= 0.0 && d2 * r <= 0.0;
    }
  }

  /** A call that was refused changes no later answer: with it or without it, the bucket behaves
      alike from the next call on. */
  lemma RefusedIsTransparent(b: Bucket, t: real, u: real)
    requires b.last <= t <= u && b.tokens <= b.maxTokens
    requires !b.Allows(t)
    ensures b.After(t).Allows(u) == b.Allows(u) && b.After(t).After(u) == b.After(u)
  {
    RefillsCompose(b, t, u);
  }

  function Without(times: seq<real>, d: nat): seq<real>
    requires d < |times|
  {
    times[..d] + times[d + 1..]
  }

  lemma {:induction false} StatePrefix(b: Bucket, s: seq<real>, t: seq<real>, n: nat)
    requires n <= |s| && n <= |t| && s[..n] == t[..n]
    ensures State(b, s, n) == State(b, t, n)
  {
    if n > 0 {
      assert s[n - 1] == s[..n][n - 1] == t[..n][n - 1];
      assert s[..n - 1] == s[..n][..n - 1] && t[..n - 1] == t[..n][..n - 1];
      StatePrefix(b, s, t, n - 1);
    }
  }

  lemma {:induction false} TokensCapped(b: Bucket, times: seq<real>, n: nat)
    requires b.tokens <= b.maxTokens && n <= |times|
    ensures State(b, times, n).tokens <= b.maxTokens && State(b, times, n).maxTokens == b.maxTokens
  {
    if n > 0 {
      TokensCapped(b, times, n - 1);
    }
  }

  lemma StepAgainst(b: Bucket, times: seq<real>, d: nat)
    requires b.tokens <= b.maxTokens && Ordered(b.last, times) && d + 1 < |times|
    requires !Answer(b, times, d)
    ensures State(b, times, d + 2) == State(b, Without(times, d), d + 1)
    ensures Answer(b, times, d + 1) == Answer(b, Without(times, d), d)
  {
    var w := Without(times, d);
    assert w[..d] == times[..d] && w[d] == times[d + 1];
    StatePrefix(b, times, w, d);
    StateParameters(b, times, d);
    TokensCapped(b, times, d);
    RefusedIsTransparent(State(b, times, d), times[d], times[d + 1]);
  }

  /** Deleting a refused call from a history, or inserting one, changes no other answer. */
  lemma {:induction false} DeletingRefused(b: Bucket, times: seq<real>, d: nat, n: nat)
    requires b.tokens <= b.maxTokens && Ordered(b.last, times)
    requires d < n < |times| && !Answer(b, times, d)
    ensures Answer(b, Without(times, d), n - 1) == Answer(b, times, n)
    ensures State(b, Without(times, d), n) == State(b, times, n + 1)
  {
    if n == d + 1 {
      StepAgainst(b, times, d);
    } else {
      DeletingRefused(b, times, d, n - 1);
      assert Without(times, d)[n - 1] == times[n];
    }
  }

  // ---- waiting ----

  /** The times of consecutive polls lie at least 100 ms apart. */
  ghost predicate Ticking(clock: nat -> real) {
    forall k: nat :: clock(k + 1) >= clock(k) + 0.1
  }

  /** A bucket as the limiter keeps it, seen at a time not before its last refill. */
  predicate Waitable(b: Bucket, now: real) {
    b.last <= now && b.tokens <= b.maxTokens
  }

  lemma {:induction false} ClockGrows(clock: nat -> real, i: nat, k: nat)
    requires Ticking(clock)
    requires i <= k
    ensures clock(k) >= clock(i) + 0.1 * ((k - i) as real)
  {
    if i < k {
      ClockGrows(clock, i, k - 1);
      assert clock(k - 1 + 1) >= clock(k - 1) + 0.1;
    }
  }

  /** Every refused poll refilled the bucket and nothing more. */
  lemma PollSees(b: Bucket, clock: nat -> real, k: nat)
    requires Ticking(clock)
    requires Waitable(b, clock(0))
    requires forall i: nat :: i < k ==> !b.Allows(clock(i))
    ensures var now := if k == 0 then b else b.Refill(clock(k - 1));
      now.Allows(clock(k)) == b.Allows(clock(k)) && now.After(clock(k)) == b.After(clock(k))
  {
    if k > 0 {
      ClockGrows(clock, 0, k - 1);
      ClockGrows(clock, k - 1, k);
      RefusedIsTransparent(b, clock(k - 1), clock(k));
      assert b.After(clock(k - 1)) == b.Refill(clock(k - 1));
    }
  }

  /** n polls grow the bucket by the tokens it is short of. */
  predicate Covers(b: Bucket, n: nat) {
    b.rate > 0.0 && b.maxTokens >= 1.0 && n as real * (b.rate / 10.0) >= 1.0 - b.tokens
  }

  /** By such a poll a token is there. */
  lemma WaitEnds(b: Bucket, clock: nat -> real, n: nat)
    requires Ticking(clock)
    requires Waitable(b, clock(0)) && Covers(b, n)
    ensures b.Allows(clock(n))
  {
    ClockGrows(clock, 0, n);
    var d := clock(n) - b.last;
    assert d >= 0.1 * (n as real);
    assert d * b.rate >= 0.1 * (n as real) * b.rate;
    assert 0.1 * (n as real) * b.rate == n as real * (b.rate / 10.0);
  }

  /** A poll that is refused comes before every poll that is covered. */
  lemma ByThen(b: Bucket, clock: nat -> real, polls: nat)
    requires Ticking(clock) && Waitable(b, clock(0))
    requires forall k: nat :: k < polls ==> !b.Allows(clock(k))
    ensures forall n: nat :: Covers(b, n) ==> polls <= n && (b.Allows(clock(polls)) || polls < n)
  {
    forall n: nat | Covers(b, n)
      ensures polls <= n && (b.Allows(clock(polls)) || polls < n)
    {
      WaitEnds(b, clock, n);
    }
  }

  // ---- the limiter object ----

  class RateLimiter {
    var buckets: map<string, Bucket>

    constructor ()
      ensures buckets == map[]
    {
      buckets := map[];
    }

    method SetLimit(queue: string, rate: real, burst: int, now: real)
      modifies this
      ensures buckets == old(buckets)[queue := Full(rate, burst, now)]
    {
      buckets := buckets[queue := Bucket(burst as real, burst as real, rate, now)];
    }

    method Allow(queue: string, now: real) returns (ok: bool)
      modifies this
      ensures queue !in old(buckets) ==> ok && buckets == old(buckets)
      ensures queue in old(buckets) ==>
        ok == old(buckets)[queue].Allows(now)
        && buckets == old(buckets)[queue := old(buckets)[queue].After(now)]
    {
      if queue !in buckets { return true; }
      var tb := buckets[queue];
      ghost var refilled := tb.Refill(now);
      var elapsed := now - tb.last;
      tb := tb.(tokens := tb.tokens + elapsed * tb.rate);
      if tb.tokens > tb.maxTokens { tb := tb.(tokens := tb.maxTokens); }
      tb := tb.(last := now);
      assert tb == refilled;
      ok := false;
      if tb.tokens >= 1.0 {
        tb := tb.(tokens := tb.tokens - 1.0);
        ok := true;
      }
      buckets := buckets[queue := tb];
    }

    method GetTokens(queue: string) returns (tokens: real)
      ensures tokens == if queue in buckets then buckets[queue].tokens else -1.0
    {
      if queue !in buckets { return -1.0; }
      tokens := buckets[queue].tokens;
    }

    /** Polls every 100 ms; `clock(k)` is the time of poll k, `cancelAt` the poll after which the
        context is done.  Without a competing caller the wait succeeds at the first poll at which
        the initial bucket has grown to a token. */
    method Wait(queue: string, clock: nat -> real, cancelAt: nat) returns (ok: bool, polls: nat)
      requires Ticking(clock)
      requires queue in buckets ==> Waitable(buckets[queue], clock(0))
      modifies this
      ensures polls <= cancelAt
      ensures !ok ==> polls == cancelAt
      ensures queue in old(buckets) ==>
        forall k: nat :: k < polls ==> !old(buckets)[queue].Allows(clock(k))
      ensures queue in old(buckets) ==> ok == old(buckets)[queue].Allows(clock(polls))
      ensures queue !in old(buckets) ==> ok && polls == 0
      ensures queue in old(buckets) ==>
        forall n: nat :: n <= cancelAt && Covers(old(buckets)[queue], n) ==> ok && polls <= n
    {
      polls := 0;
      ghost var b0 := if queue in buckets then buckets[queue] else Full(0.0, 0, 0.0);
      while true
        invariant polls <= cancelAt
        invariant queue in buckets <==> queue in old(buckets)
        invariant queue !in buckets ==> polls == 0
        invariant queue in buckets ==>
          b0 == old(buckets)[queue]
          && (forall k: nat :: k < polls ==> !b0.Allows(clock(k)))
          && buckets[queue] == if polls == 0 then b0 else b0.Refill(clock(polls - 1))
        decreases cancelAt - polls
      {
        if queue in buckets {
          PollSees(b0, clock, polls);
        }
        var allowed := Allow(queue, clock(polls));
        if queue in old(buckets) {
          ByThen(b0, clock, polls);
        }
        if allowed { return true, polls; }
        if polls == cancelAt { return false, polls; }
        polls := polls + 1;
      }
    }
  }
}
