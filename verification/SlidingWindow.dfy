/** The sliding-window limiter; times and windows are in integer nanoseconds. */
module SlidingWindow {
  /** The times strictly after the cutoff, in order. */
  function After(s: seq<int>, cutoff: int): seq<int>
  {
    if s == [] then []
    else
      var rest, last := After(s[..|s| - 1], cutoff), s[|s| - 1];
      if last > cutoff then rest + [last] else rest
  }

  datatype Window = Window(limit: int, span: int, requests: seq<int>)
  {
    /** The log with the requests before the window of `now` dropped. */
    function Pruned(now: int): seq<int> {
      After(requests, now - span)
    }

    function Allows(now: int): bool {
      |Pruned(now)| < limit
    }

    function Called(now: int): Window {
      this.(requests := if Allows(now) then Pruned(now) + [now] else Pruned(now))
    }
  }

  // ---- a history of calls ----

  /** A limiter and, beside it, the whole history: every accepted time, none ever dropped. */
  datatype Run = Run(window: Window, history: seq<int>)
  {
    function Called(now: int): Run {
      Run(window.Called(now), if window.Allows(now) then history + [now] else history)
    }
  }

  /** The first n calls, from an empty log. */
  function Play(limit: int, span: int, times: seq<int>, n: nat): Run
    requires n <= |times|
  {
    if n == 0 then Run(Window(limit, span, []), []) else Play(limit, span, times, n - 1).Called(times[n - 1])
  }

  /** How many of the times lie in the interval (from, to]. */
  function CountIn(s: seq<int>, from: int, to: int): nat {
    if s == [] then 0
    else CountIn(s[..|s| - 1], from, to) + if from < s[|s| - 1] <= to then 1 else 0
  }

  ghost predicate Ordered(times: seq<int>) {
    forall i, k :: 0 <= i <= k < |times| ==> times[i] <= times[k]
  }

  lemma {:induction false} PlayParameters(limit: int, span: int, times: seq<int>, n: nat)
    requires n <= |times|
    ensures Play(limit, span, times, n).window.limit == limit && Play(limit, span, times, n).window.span == span
  {
    if n > 0 {
      PlayParameters(limit, span, times, n - 1);
    }
  }

  lemma AfterAppend(s: seq<int>, x: int, cutoff: int)
    ensures After(s + [x], cutoff) == if x > cutoff then After(s, cutoff) + [x] else After(s, cutoff)
  {
    assert (s + [x])[..|s|] == s;
  }

  lemma {:induction false} AfterAfter(s: seq<int>, early: int, late: int)
    requires early <= late
    ensures After(After(s, early), late) == After(s, late)
  {
    if s != [] {
      var rest, last := s[..|s| - 1], s[|s| - 1];
      AfterAfter(rest, early, late);
      AfterAppend(After(rest, early), last, late);
    }
  }

  /** The log and the whole history agree on everything after a cutoff. */
  ghost predicate Agree(r: Run, cutoff: int) {
    After(r.window.requests, cutoff) == After(r.history, cutoff)
  }

  /** One call keeps them in agreement after any cutoff from this call's on. */
  lemma CallAgrees(r: Run, now: int, cutoff: int)
    requires now - r.window.span <= cutoff && Agree(r, cutoff)
    ensures Agree(r.Called(now), cutoff)
  {
    var w := r.window;
    AfterAfter(w.requests, now - w.span, cutoff);
    AfterAppend(w.Pruned(now), now, cutoff);
    AfterAppend(r.history, now, cutoff);
  }

  /** In every run log and history agree after any cutoff from the last call's on. */
  lemma {:induction false} LogAgreesWithHistory(limit: int, span: int, times: seq<int>, n: nat, cutoff: int)
    requires Ordered(times) && n <= |times|
    requires n > 0 ==> times[n - 1] - span <= cutoff
    ensures Agree(Play(limit, span, times, n), cutoff)
  {
    if n > 0 {
      PlayParameters(limit, span, times, n - 1);
      LogAgreesWithHistory(limit, span, times, n - 1, cutoff);
      CallAgrees(Play(limit, span, times, n - 1), times[n - 1], cutoff);
    }
  }

  lemma AgreesAtCall(limit: int, span: int, times: seq<int>, n: nat)
    requires Ordered(times) && n < |times|
    ensures var r := Play(limit, span, times, n); Agree(r, times[n] - r.window.span)
  {
    PlayParameters(limit, span, times, n);
    LogAgreesWithHistory(limit, span, times, n, times[n] - span);
  }

  lemma AllowsByCount(r: Run, now: int)
    requires Agree(r, now - r.window.span)
    ensures r.window.Allows(now) <==> |After(r.history, now - r.window.span)| < r.window.limit
  {
  }

  /** Allow decides as if it had kept and counted the whole history. */
  lemma AllowCountsHistory(limit: int, span: int, times: seq<int>, n: nat)
    requires Ordered(times) && n < |times|
    ensures var r := Play(limit, span, times, n);
      r.window.Allows(times[n]) <==> |After(r.history, times[n] - span)| < limit
  {
    PlayParameters(limit, span, times, n);
    LogAgreesWithHistory(limit, span, times, n, times[n] - span);
    AllowsByCount(Play(limit, span, times, n), times[n]);
  }

  /** GetCount, at any time after the last call, is the count over the whole history. */
  lemma GetCountIsHistoryCount(limit: int, span: int, times: seq<int>, n: nat, now: int)
    requires Ordered(times) && n <= |times|
    requires n > 0 ==> times[n - 1] <= now
    ensures var r := Play(limit, span, times, n);
      |r.window.Pruned(now)| == |After(r.history, now - span)|
  {
    PlayParameters(limit, span, times, n);
    LogAgreesWithHistory(limit, span, times, n, now - span);
  }

  lemma {:induction false} PrunedIsAfter(s: seq<int>, cutoff: int)
    ensures forall i :: 0 <= i < |After(s, cutoff)| ==> After(s, cutoff)[i] > cutoff
  {
    if s != [] {
      PrunedIsAfter(s[..|s| - 1], cutoff);
    }
  }

  lemma {:induction false} AllAfter(s: seq<int>, cutoff: int)
    requires forall i :: 0 <= i < |s| ==> s[i] > cutoff
    ensures After(s, cutoff) == s
  {
    if s != [] {
      AllAfter(s[..|s| - 1], cutoff);
    }
  }

  /** The log is the history after the window of `now` begins. */
  ghost predicate LogIsWindow(r: Run, now: int) {
    r.window.requests == After(r.history, now - r.window.span)
  }

  lemma CalledIsAfter(w: Window, now: int)
    requires w.span > 0
    ensures forall i :: 0 <= i < |w.Called(now).requests| ==> w.Called(now).requests[i] > now - w.span
  {
    PrunedIsAfter(w.requests, now - w.span);
  }

  lemma CallLeavesWindow(r: Run, now: int)
    requires r.window.span > 0 && Agree(r, now - r.window.span)
    ensures LogIsWindow(r.Called(now), now)
  {
    var cutoff := now - r.window.span;
    CallAgrees(r, now, cutoff);
    CalledIsAfter(r.window, now);
    AllAfter(r.window.Called(now).requests, cutoff);
  }

  /** With a window of positive length the log is exactly the accepted calls after the last cutoff. */
  lemma LogIsPrunedHistory(limit: int, span: int, times: seq<int>, n: nat)
    requires Ordered(times) && span > 0 && n < |times|
    ensures LogIsWindow(Play(limit, span, times, n + 1), times[n])
  {
    LogAgreesWithHistory(limit, span, times, n, times[n] - span);
    PlayParameters(limit, span, times, n);
    CallLeavesWindow(Play(limit, span, times, n), times[n]);
  }

  lemma {:induction false} HistoryBounded(limit: int, span: int, times: seq<int>, n: nat, top: int)
    requires Ordered(times) && n <= |times|
    requires n > 0 ==> times[n - 1] <= top
    ensures Bounded(Play(limit, span, times, n).history, top)
  {
    if n > 0 {
      HistoryBounded(limit, span, times, n - 1, top);
    }
  }

  ghost predicate Bounded(s: seq<int>, top: int) {
    forall i :: 0 <= i < |s| ==> s[i] <= top
  }

  lemma {:induction false} NoneAfter(s: seq<int>, cutoff: int)
    requires Bounded(s, cutoff)
    ensures After(s, cutoff) == []
  {
    if s != [] {
      NoneAfter(s[..|s| - 1], cutoff);
    }
  }

  /** Without one the limiter never refuses, whatever the calls, unless the limit itself is zero. */
  lemma EmptyWindowNeverRefuses(limit: int, span: int, times: seq<int>, n: nat)
    requires Ordered(times) && span <= 0 && n < |times|
    ensures Play(limit, span, times, n).window.Allows(times[n]) <==> limit > 0
  {
    HistoryBounded(limit, span, times, n, times[n] - span);
    NoneAfter(Play(limit, span, times, n).history, times[n] - span);
    AllowCountsHistory(limit, span, times, n);
  }

  // ---- every window obeys the limit ----

  lemma CountAppend(s: seq<int>, x: int, from: int, to: int)
    ensures CountIn(s + [x], from, to) == CountIn(s, from, to) + if from < x <= to then 1 else 0
  {
    assert (s + [x])[..|s|] == s;
  }

  /** A count over an interval is at most the count after a cutoff not beyond its start, and equal to
      it when the interval starts at the cutoff and ends no earlier than the last time. */
  lemma {:induction false} CountAgainstAfter(s: seq<int>, cutoff: int, from: int, to: int)
    requires cutoff <= from
    ensures CountIn(s, from, to) <= |After(s, cutoff)|
    ensures cutoff == from && Bounded(s, to) ==> CountIn(s, from, to) == |After(s, cutoff)|
  {
    if s != [] {
      CountAgainstAfter(s[..|s| - 1], cutoff, from, to);
    }
  }

  ghost predicate Limited(r: Run, from: int) {
    CountIn(r.history, from, from + r.window.span) <= r.window.limit
  }

  /** A call that is accepted finds room in every window it falls into. */
  lemma CallKeepsLimit(r: Run, now: int, from: int)
    requires Agree(r, now - r.window.span) && Limited(r, from)
    ensures Limited(r.Called(now), from)
  {
    CountAppend(r.history, now, from, from + r.window.span);
    AllowsByCount(r, now);
    if now <= from + r.window.span {
      CountAgainstAfter(r.history, now - r.window.span, from, from + r.window.span);
    }
  }

  lemma {:induction false} RunsAreLimited(limit: nat, span: int, times: seq<int>, n: nat, from: int)
    requires Ordered(times) && n <= |times|
    ensures Limited(Play(limit, span, times, n), from)
  {
    if n > 0 {
      RunsAreLimited(limit, span, times, n - 1, from);
      AgreesAtCall(limit, span, times, n - 1);
      CallKeepsLimit(Play(limit, span, times, n - 1), times[n - 1], from);
    }
  }

  /** Every interval (from, from + span] of every run holds at most `limit` accepted calls. */
  lemma EveryWindowKeepsLimit(limit: nat, span: int, times: seq<int>, n: nat, from: int)
    requires Ordered(times) && n <= |times|
    ensures CountIn(Play(limit, span, times, n).history, from, from + span) <= limit
  {
    RunsAreLimited(limit, span, times, n, from);
    PlayParameters(limit, span, times, n);
  }

  lemma FullByCount(r: Run, now: int)
    requires var from := now - r.window.span; Agree(r, from) && Limited(r, from) && Bounded(r.history, now)
    ensures !r.window.Allows(now) <==> CountIn(r.history, now - r.window.span, now) == r.window.limit
  {
    AllowsByCount(r, now);
    CountAgainstAfter(r.history, now - r.window.span, now - r.window.span, now);
  }

  /** No call is refused needlessly: a refusal means that the window ending now is full. */
  lemma RefusedOnlyWhenFull(limit: nat, span: int, times: seq<int>, n: nat)
    requires Ordered(times) && n < |times|
    ensures var r := Play(limit, span, times, n);
      !r.window.Allows(times[n]) <==> CountIn(r.history, times[n] - span, times[n]) == limit
  {
    var r := Play(limit, span, times, n);
    PlayParameters(limit, span, times, n);
    AgreesAtCall(limit, span, times, n);
    HistoryBounded(limit, span, times, n, times[n]);
    RunsAreLimited(limit, span, times, n, times[n] - span);
    FullByCount(r, times[n]);
  }

  // ---- the limiter object ----

  class SlidingWindowRateLimiter {
    var windows: map<string, Window>

    constructor ()
      ensures windows == map[]
    {
      windows := map[];
    }

    /** A negative limit panics when the log is allocated; nothing is stored then. */
    method SetLimit(queue: string, limit: int, span: int) returns (panicked: bool)
      modifies this
      ensures panicked == (limit < 0)
      ensures windows == if panicked then old(windows) else old(windows)[queue := Window(limit, span, [])]
    {
      if limit < 0 { return true; }
      windows := windows[queue := Window(limit, span, [])];
      return false;
    }

    /** A queue without a limit always allows; otherwise this is one step of the window's history. */
    method Allow(queue: string, now: int) returns (ok: bool)
      modifies this
      ensures queue !in old(windows) ==> ok && windows == old(windows)
      ensures queue in old(windows) ==>
        ok == old(windows)[queue].Allows(now)
        && windows == old(windows)[queue := old(windows)[queue].Called(now)]
    {
      if queue !in windows { return true; }
      var w := windows[queue];
      var cutoff := now - w.span;
      var validRequests := [];
      for i := 0 to |w.requests|
        invariant windows == old(windows)
        invariant validRequests == After(w.requests[..i], cutoff)
      {
        AfterAppend(w.requests[..i], w.requests[i], cutoff);
        assert w.requests[..i + 1] == w.requests[..i] + [w.requests[i]];
        if w.requests[i] > cutoff {
          validRequests := validRequests + [w.requests[i]];
        }
      }
      assert w.requests[..|w.requests|] == w.requests;
      assert validRequests == w.Pruned(now);
      w := w.(requests := validRequests);
      ok := false;
      if |w.requests| < w.limit {
        w := w.(requests := w.requests + [now]);
        ok := true;
      }
      windows := windows[queue := w];
    }

    method GetCount(queue: string, now: int) returns (count: nat)
      ensures count == if queue in windows then |windows[queue].Pruned(now)| else 0
    {
      if queue !in windows { return 0; }
      var w := windows[queue];
      var cutoff := now - w.span;
      count := 0;
      for i := 0 to |w.requests|
        invariant count == |After(w.requests[..i], cutoff)|
      {
        AfterAppend(w.requests[..i], w.requests[i], cutoff);
        assert w.requests[..i + 1] == w.requests[..i] + [w.requests[i]];
        if w.requests[i] > cutoff {
          count := count + 1;
        }
      }
      assert w.requests[..|w.requests|] == w.requests;
    }
  }
}
