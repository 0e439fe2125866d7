/** What the manager's choice of a queue guarantees: exact proportionality of the weighted draw,
    and work conservation of a whole dequeue. */
module QueueSelection {
  import opened Jobs
  import opened MemoryStorage
  import opened QueueManager

  // ---- the weighted draw ----

  /** The index the draw r lands on, with the one-candidate shortcut of the code. */
  function Winner(top: seq<Candidate>, r: nat): nat {
    if |top| == 1 then 0 else PickFrom(top, r, 0)
  }

  ghost predicate NonNegativeWeights(cs: seq<Candidate>) {
    forall c :: c in cs ==> c.weight >= 0
  }

  lemma {:induction false} CumGrows(cs: seq<Candidate>, i: nat, j: nat)
    requires NonNegativeWeights(cs)
    requires i <= j <= |cs|
    ensures CumWeight(cs, i) <= CumWeight(cs, j)
  {
    if i < j {
      CumGrows(cs, i, j - 1);
      assert cs[..j][..j - 1] == cs[..j - 1];
      assert cs[..j][j - 1] in cs;
    }
  }

  lemma CumStep(cs: seq<Candidate>, i: nat)
    requires i < |cs|
    ensures CumWeight(cs, i + 1) == CumWeight(cs, i) + cs[i].weight
    ensures CumWeight(cs, 0) == 0 && CumWeight(cs, |cs|) == TotalWeight(cs)
  {
    assert cs[..i + 1][..i] == cs[..i];
    assert cs[..|cs|] == cs;
  }

  /** Whatever the weights, a positive total makes the loop return before the fallback line. */
  lemma FallbackUnreachable(top: seq<Candidate>, r: nat)
    requires r < TotalWeight(top)
    ensures PickFrom(top, r, 0) < |top|
  {
    assert top != [];
    CumStep(top, 0);
  }

  lemma WinnerIsInterval(top: seq<Candidate>, r: nat, i: nat)
    requires NonNegativeWeights(top)
    requires r < TotalWeight(top) && i < |top|
    ensures Winner(top, r) == i <==> CumWeight(top, i) <= r < CumWeight(top, i + 1)
  {
    CumStep(top, 0);
    CumStep(top, i);
    FallbackUnreachable(top, r);
    var k := PickFrom(top, r, 0);
    if k < i {
      CumGrows(top, k + 1, i);
    } else if i < k {
      assert r >= CumWeight(top, i + 1);
    } else if i > 0 {
      assert r >= CumWeight(top, i);
    }
  }

  function Interval(a: int, b: int): (s: set<int>)
    requires a <= b
    ensures |s| == b - a
    ensures forall r :: r in s <==> a <= r < b
    decreases b - a
  {
    if a == b then {} else Interval(a, b - 1) + {b - 1}
  }

  /** Candidate i wins exactly weight_i of the totalWeight equally likely draws. */
  lemma ExactlyProportional(top: seq<Candidate>, i: nat)
    requires NonNegativeWeights(top)
    requires i < |top|
    ensures |set r | 0 <= r < TotalWeight(top) && Winner(top, r) == i| == top[i].weight
  {
    var wins := set r | 0 <= r < TotalWeight(top) && Winner(top, r) == i;
    var a, b := CumWeight(top, i), CumWeight(top, i + 1);
    CumStep(top, i);
    CumGrows(top, 0, i);
    CumGrows(top, i, i + 1);
    CumGrows(top, i + 1, |top|);
    forall r: int
      ensures r in wins <==> r in Interval(a, b)
    {
      if 0 <= r < TotalWeight(top) {
        WinnerIsInterval(top, r, i);
      }
    }
    assert wins == Interval(a, b);
  }

  /** The draw is made among the highest-priority candidates and names the winner; without one
      candidate there, or a positive total of weights, it panics. */
  lemma ChoiceIsWinner(cs: seq<Candidate>, draw: nat)
    requires cs != []
    ensures var top := AtPriority(cs, MaxPriority(cs));
      if |top| == 1 || TotalWeight(top) > 0 then
        var i := if TotalWeight(top) > 0 then Winner(top, draw % TotalWeight(top)) else 0;
        i < |top| && Choose(cs, draw) == Chosen(top[i].name)
      else Choose(cs, draw) == Panic
    ensures forall c, d ::
      c in AtPriority(cs, MaxPriority(cs)) && d in cs ==> d.priority <= c.priority
  {
    var top := AtPriority(cs, MaxPriority(cs));
    if TotalWeight(top) > 0 {
      FallbackUnreachable(top, draw % TotalWeight(top));
    }
  }

  // ---- when the draw panics ----

  /** A candidate: registered, not paused, and with an entry, due or not. */
  predicate Eligible(m: Mgr, q: string) {
    && q in m.configs
    && !(q in m.store.paused && m.store.paused[q])
    && q in m.store.queues && m.store.queues[q] != []
  }

  /** The highest priority among the listed candidates, at least zero. */
  function HighPriority(m: Mgr, queues: seq<string>): (p: int)
    ensures p >= 0
  {
    if queues == [] then 0
    else
      var p, q := HighPriority(m, queues[..|queues| - 1]), queues[|queues| - 1];
      if Eligible(m, q) && m.configs[q].priority > p then m.configs[q].priority else p
  }

  predicate CandidateAt(m: Mgr, q: string, p: int) {
    Eligible(m, q) && m.configs[q].priority == p
  }

  /** How often candidates of priority p are listed. */
  function CountAt(m: Mgr, queues: seq<string>, p: int): nat {
    if queues == [] then 0
    else CountAt(m, queues[..|queues| - 1], p) + if CandidateAt(m, queues[|queues| - 1], p) then 1 else 0
  }

  /** And what they weigh together. */
  function WeightAt(m: Mgr, queues: seq<string>, p: int): int {
    if queues == [] then 0
    else
      var q := queues[|queues| - 1];
      WeightAt(m, queues[..|queues| - 1], p) + if CandidateAt(m, q, p) then m.configs[q].weight else 0
  }

  ghost predicate SomeCandidate(m: Mgr, queues: seq<string>) {
    exists q :: q in queues && Eligible(m, q)
  }

  /** Some listed queue is a candidate, and those of the highest priority are not exactly one and weigh
      nothing together. */
  ghost predicate Panics(m: Mgr, queues: seq<string>) {
    var p := HighPriority(m, queues);
    SomeCandidate(m, queues) && CountAt(m, queues, p) != 1 && WeightAt(m, queues, p) <= 0
  }

  lemma MaxAppend(cs: seq<Candidate>, c: Candidate)
    ensures MaxPriority(cs + [c]) == if c.priority > MaxPriority(cs) then c.priority else MaxPriority(cs)
  {
    assert (cs + [c])[..|cs|] == cs;
  }

  lemma TopAppend(cs: seq<Candidate>, c: Candidate, p: int)
    ensures AtPriority(cs + [c], p) == if c.priority == p then AtPriority(cs, p) + [c] else AtPriority(cs, p)
  {
    assert (cs + [c])[..|cs|] == cs;
  }

  lemma WeightAppend(cs: seq<Candidate>, c: Candidate)
    ensures TotalWeight(cs + [c]) == TotalWeight(cs) + c.weight
  {
    assert (cs + [c])[..|cs|] == cs;
  }

  lemma {:induction false} HighByQueue(m: Mgr, queues: seq<string>)
    ensures MaxPriority(m.Candidates(queues)) == HighPriority(m, queues)
  {
    if queues != [] {
      var before, q := queues[..|queues| - 1], queues[|queues| - 1];
      HighByQueue(m, before);
      if Eligible(m, q) {
        MaxAppend(m.Candidates(before), Candidate(q, m.configs[q].priority, m.configs[q].weight));
      } else {
        assert m.Candidates(before) + [] == m.Candidates(before);
      }
    }
  }

  lemma {:induction false} TopByQueue(m: Mgr, queues: seq<string>, p: int)
    ensures var top := AtPriority(m.Candidates(queues), p);
      |top| == CountAt(m, queues, p) && TotalWeight(top) == WeightAt(m, queues, p)
  {
    if queues != [] {
      var before, q := queues[..|queues| - 1], queues[|queues| - 1];
      TopByQueue(m, before, p);
      if Eligible(m, q) {
        var c := Candidate(q, m.configs[q].priority, m.configs[q].weight);
        TopAppend(m.Candidates(before), c, p);
        WeightAppend(AtPriority(m.Candidates(before), p), c);
      } else {
        assert m.Candidates(before) + [] == m.Candidates(before);
      }
    }
  }

  lemma SomeByQueue(m: Mgr, queues: seq<string>)
    ensures m.Candidates(queues) != [] <==> SomeCandidate(m, queues)
  {
    CandidateMembers(m, queues);
    HasMember(m.Candidates(queues));
  }

  lemma HasMember(cs: seq<Candidate>)
    ensures cs != [] ==> exists c :: c in cs
  {
    if cs != [] {
      assert cs[0] in cs;
    }
  }

  /** The random source is called with a non-positive bound, whatever the weights, if and only if that
      holds of the registered queues. */
  lemma PanicsIff(m: Mgr, queues: seq<string>, draw: nat)
    ensures m.SelectQueue(queues, draw) == Panic <==> Panics(m, queues)
  {
    HighByQueue(m, queues);
    TopByQueue(m, queues, HighPriority(m, queues));
    SomeByQueue(m, queues);
  }

  predicate Weighs(m: Mgr, queues: seq<string>) {
    forall q :: q in queues && Eligible(m, q) ==> m.configs[q].weight >= 0
  }

  /** A listed candidate that no listed candidate exceeds, and whose priority is not negative. */
  ghost predicate TopAt(m: Mgr, queues: seq<string>, i: nat) {
    i < |queues| && CandidateAt(m, queues[i], HighPriority(m, queues))
  }

  lemma {:induction false} HighIsHighest(m: Mgr, queues: seq<string>)
    ensures forall q :: q in queues && Eligible(m, q) ==> m.configs[q].priority <= HighPriority(m, queues)
    ensures HighPriority(m, queues) == 0 || exists q :: q in queues && CandidateAt(m, q, HighPriority(m, queues))
  {
    if queues != [] {
      HighIsHighest(m, queues[..|queues| - 1]);
      assert queues[|queues| - 1] in queues;
    }
  }

  lemma {:induction false} CountIsPositions(m: Mgr, queues: seq<string>, p: int)
    ensures CountAt(m, queues, p) >= 1 <==> exists i :: 0 <= i < |queues| && CandidateAt(m, queues[i], p)
    ensures CountAt(m, queues, p) >= 2 <==>
      exists i, k :: 0 <= i < k < |queues| && CandidateAt(m, queues[i], p) && CandidateAt(m, queues[k], p)
  {
    if queues != [] {
      var n := |queues| - 1;
      CountIsPositions(m, queues[..n], p);
      assert forall i :: 0 <= i < n ==> queues[..n][i] == queues[i];
      if CandidateAt(m, queues[n], p) && (exists i :: 0 <= i < n && CandidateAt(m, queues[i], p)) {
        var i :| 0 <= i < n && CandidateAt(m, queues[i], p);
        assert CandidateAt(m, queues[..n][i], p);
      }
    }
  }

  lemma {:induction false} WeightIsZero(m: Mgr, queues: seq<string>, p: int)
    requires Weighs(m, queues)
    ensures WeightAt(m, queues, p) >= 0
    ensures WeightAt(m, queues, p) == 0 <==>
      forall i :: 0 <= i < |queues| && CandidateAt(m, queues[i], p) ==> m.configs[queues[i]].weight == 0
  {
    if queues != [] {
      var n := |queues| - 1;
      WeightIsZero(m, queues[..n], p);
      assert forall i :: 0 <= i < n ==> queues[..n][i] == queues[i];
      assert queues[n] in queues;
    }
  }

  /** With weights that are not negative: the draw panics if and only if some listed queue is a
      candidate and either all candidates have a negative priority, or the highest priority is listed
      at least twice and every candidate there weighs nothing. */
  lemma WeightlessPanicsIff(m: Mgr, queues: seq<string>)
    requires Weighs(m, queues)
    ensures Panics(m, queues) <==>
      SomeCandidate(m, queues)
      && ((forall q :: q in queues && Eligible(m, q) ==> m.configs[q].priority < 0)
          || ((exists i: nat, k: nat :: i < k && TopAt(m, queues, i) && TopAt(m, queues, k))
              && (forall i: nat :: TopAt(m, queues, i) ==> m.configs[queues[i]].weight == 0)))
  {
    var p := HighPriority(m, queues);
    HighIsHighest(m, queues);
    CountIsPositions(m, queues, p);
    WeightIsZero(m, queues, p);
    assert (exists i: nat, k: nat :: i < k && TopAt(m, queues, i) && TopAt(m, queues, k)) <==> CountAt(m, queues, p) >= 2 by {
      if i, k :| 0 <= i < k < |queues| && CandidateAt(m, queues[i], p) && CandidateAt(m, queues[k], p) {
        assert TopAt(m, queues, i) && TopAt(m, queues, k);
      }
    }
    NegativeIff(m, queues, p);
    WeightlessIff(m, queues, p);
  }

  lemma NegativeIff(m: Mgr, queues: seq<string>, p: int)
    requires p == HighPriority(m, queues)
    ensures CountAt(m, queues, p) == 0 <==>
      forall q :: q in queues && Eligible(m, q) ==> m.configs[q].priority < 0
  {
    HighIsHighest(m, queues);
    CountIsPositions(m, queues, p);
    if q :| q in queues && Eligible(m, q) && m.configs[q].priority >= 0 {
      var r :| r in queues && CandidateAt(m, r, p);
      var i :| 0 <= i < |queues| && queues[i] == r;
      assert CandidateAt(m, queues[i], p);
    } else {
      assert forall i :: 0 <= i < |queues| ==> queues[i] in queues;
    }
  }

  lemma WeightlessIff(m: Mgr, queues: seq<string>, p: int)
    requires p == HighPriority(m, queues)
    ensures (forall i: nat :: TopAt(m, queues, i) ==> m.configs[queues[i]].weight == 0)
       <==> (forall i :: 0 <= i < |queues| && CandidateAt(m, queues[i], p) ==> m.configs[queues[i]].weight == 0)
  {
    assert forall i: nat :: TopAt(m, queues, i) <==> i < |queues| && CandidateAt(m, queues[i], p);
  }

  // ---- a whole dequeue ----

  lemma {:induction false} CandidateMembers(m: Mgr, queues: seq<string>)
    ensures forall c :: c in m.Candidates(queues) ==>
      c.name in queues && Eligible(m, c.name)
      && c == Candidate(c.name, m.configs[c.name].priority, m.configs[c.name].weight)
    ensures forall q :: q in queues && Eligible(m, q) ==>
      Candidate(q, m.configs[q].priority, m.configs[q].weight) in m.Candidates(queues)
  {
    if queues != [] {
      CandidateMembers(m, queues[..|queues| - 1]);
    }
  }

  /** The fallback takes the best entry of the first other queue that can serve, if any; if none can, its
      error is that of the last other queue. */
  lemma {:induction false} TryOthersServes(
      s: Store, queues: seq<string>, skip: string, now: int, last: Result<string>)
    returns (i: nat)
    requires last.Err?
    ensures var (s', r) := TryOthers(s, queues, skip, now, last);
      if r.Ok? then
        && i < |queues| && queues[i] != skip && s.CanServe(queues[i], now) && (s', r) == s.Dequeue(queues[i], now)
        && forall k :: 0 <= k < i && queues[k] != skip ==> !s.CanServe(queues[k], now)
      else
        && s' == s && (forall p :: p in queues && p != skip ==> !s.CanServe(p, now))
        && r == if OnlyDrawn(queues, skip) then last else Err(LastError(s, queues, skip))
    decreases |queues|
  {
    i := 0;
    if queues != [] {
      if OnlyDrawn(queues[1..], skip) { LastErrorHead(s, queues, skip); } else { LastErrorTail(s, queues, skip); }
      assert OnlyDrawn(queues, skip) <==> queues[0] == skip && OnlyDrawn(queues[1..], skip);
      if queues[0] == skip {
        i := TryOthersServes(s, queues[1..], skip, now, last);
        i := i + 1;
      } else {
        var (s', r) := s.Dequeue(queues[0], now);
        if r.Err? {
          i := TryOthersServes(s, queues[1..], skip, now, r);
          i := i + 1;
        }
      }
    }
  }

  /** What the last listed queue other than `drawn` answers when it does not serve. */
  function LastError(s: Store, queues: seq<string>, drawn: string): Error {
    if queues == [] then QueueEmpty
    else
      var last := queues[|queues| - 1];
      if last == drawn then LastError(s, queues[..|queues| - 1], drawn)
      else if last in s.paused && s.paused[last] then QueuePaused else QueueEmpty
  }

  ghost predicate OnlyDrawn(queues: seq<string>, drawn: string) {
    forall i :: 0 <= i < |queues| ==> queues[i] == drawn
  }

  lemma {:induction false} LastErrorTail(s: Store, queues: seq<string>, drawn: string)
    requires queues != [] && !OnlyDrawn(queues[1..], drawn)
    ensures LastError(s, queues, drawn) == LastError(s, queues[1..], drawn)
    decreases |queues|
  {
    var n := |queues| - 1;
    assert queues[1..][n - 1] == queues[n];
    if queues[n] == drawn {
      assert queues[1..][..n - 1] == queues[..n][1..];
      assert queues[1..] == queues[..n][1..] + [drawn];
      LastErrorTail(s, queues[..n], drawn);
    }
  }

  lemma {:induction false} LastErrorHead(s: Store, queues: seq<string>, drawn: string)
    requires queues != [] && OnlyDrawn(queues[1..], drawn)
    ensures LastError(s, queues, drawn) ==
      if queues[0] != drawn && queues[0] in s.paused && s.paused[queues[0]] then QueuePaused else QueueEmpty
    decreases |queues|
  {
    var n := |queues| - 1;
    if n > 0 {
      assert queues[n] == queues[1..][n - 1] && queues[..n][1..] == queues[1..][..n - 1];
      LastErrorHead(s, queues[..n], drawn);
    }
  }

  /** Not paused, and with an entry that is due. */
  ghost predicate Serves(s: Store, q: string, now: int) {
    && !(q in s.paused && s.paused[q])
    && q in s.queues && exists k :: 0 <= k < |s.queues[q]| && s.queues[q][k].timestamp <= now
  }

  ghost predicate SomeServes(s: Store, queues: seq<string>, now: int) {
    exists q :: q in queues && Serves(s, q, now)
  }

  lemma ServesIff(s: Store, q: string, now: int)
    ensures Serves(s, q, now) <==> s.CanServe(q, now)
  {
    if q in s.queues {
      assert HasDue(s.queues[q], now) <==> exists k :: 0 <= k < |s.queues[q]| && Due(s.queues[q][k], now);
    }
  }

  /** The queue that serves: the drawn one if it can, else the first listed one that can. */
  ghost predicate Serving(s: Store, queues: seq<string>, drawn: string, now: int, q: string) {
    && Serves(s, q, now)
    && (q == drawn || (!Serves(s, drawn, now) && FirstServing(s, queues, now, q)))
  }

  ghost predicate FirstServing(s: Store, queues: seq<string>, now: int, q: string) {
    exists i :: 0 <= i < |queues| && queues[i] == q && forall k :: 0 <= k < i ==> !Serves(s, queues[k], now)
  }

  /** An entry of queue q was taken: the best due one, and nothing else moved. */
  ghost predicate Took(m: Mgr, m': Mgr, r: Fetch, q: string, now: int) {
    && Serves(m.store, q, now)
    && exists b: nat :: TookAt(m, m', r, q, now, b)
  }

  ghost predicate TookAt(m: Mgr, m': Mgr, r: Fetch, q: string, now: int, b: nat) {
    && q in m.store.queues && b < |m.store.queues[q]|
    && IsPick(m.store.queues[q], now, |m.store.queues[q]|, b)
    && m' == m.(store := m.store.(queues := m.store.queues[q := m.store.queues[q][..b] + m.store.queues[q][b + 1..]]))
    && var id := m.store.queues[q][b].jobId;
       r == if id in m.store.jobs then Fetched(m.store.jobs[id]) else NotFetched(JobNotFound)
  }

  /** A queue that serves takes its pick. */
  lemma TakesPick(m: Mgr, q: string, now: int)
    requires m.store.CanServe(q, now)
    ensures var (s, r) := m.store.Dequeue(q, now);
      r.Ok? && Took(m, m.(store := s), s.Deliver(r), q, now)
  {
    ServesIff(m.store, q, now);
    var (s, r) := m.store.Dequeue(q, now);
    assert TookAt(m, m.(store := s), s.Deliver(r), q, now, BestIndex(m.store.Entries(q), now));
  }

  /** A listed candidate that none exceeds in priority. */
  ghost predicate TopQueue(m: Mgr, queues: seq<string>, q: string) {
    && q in queues && Eligible(m, q)
    && forall p :: p in queues && Eligible(m, p) ==> m.configs[p].priority <= m.configs[q].priority
  }

  lemma SelectionIsTop(m: Mgr, queues: seq<string>, draw: nat)
    requires m.SelectQueue(queues, draw) != Panic
    ensures m.SelectQueue(queues, draw).Nothing? ==> !SomeCandidate(m, queues)
    ensures m.SelectQueue(queues, draw).Chosen? ==> TopQueue(m, queues, m.SelectQueue(queues, draw).name)
  {
    var cs := m.Candidates(queues);
    CandidateMembers(m, queues);
    if cs != [] {
      var top := AtPriority(cs, MaxPriority(cs));
      var i := if |top| == 1 then 0 else PickFrom(top, draw % TotalWeight(top), 0);
      if |top| != 1 {
        FallbackUnreachable(top, draw % TotalWeight(top));
      }
      assert top[i] in top;
    }
  }

  /** What a dequeue does once a queue is drawn. */
  ghost predicate Drawn(m: Mgr, queues: seq<string>, drawn: string, now: int, m': Mgr, r: Fetch, q: string) {
    if SomeServes(m.store, queues, now)
    then q in queues && Serving(m.store, queues, drawn, now, q) && Took(m, m', r, q, now)
    else m' == m && r == NotFetched(LastError(m.store, queues, drawn))
  }

  lemma DrawnServes(m: Mgr, queues: seq<string>, draw: nat, now: int)
    requires m.SelectQueue(queues, draw).Chosen?
    requires var sel := m.SelectQueue(queues, draw).name;
      sel != "" && sel in queues && m.store.CanServe(sel, now)
    ensures var sel := m.SelectQueue(queues, draw).name;
      var (m', r) := m.Dequeue(queues, draw, now);
      Drawn(m, queues, sel, now, m', r, sel)
  {
    var sel := m.SelectQueue(queues, draw).name;
    TakesPick(m, sel, now);
    ServesIff(m.store, sel, now);
  }

  lemma DrawnFallsBack(m: Mgr, queues: seq<string>, draw: nat, now: int)
    requires m.SelectQueue(queues, draw).Chosen?
    requires var sel := m.SelectQueue(queues, draw).name;
      sel != "" && sel in queues && Eligible(m, sel) && !m.store.CanServe(sel, now)
    ensures var sel := m.SelectQueue(queues, draw).name;
      var (s, r) := TryOthers(m.store, queues, sel, now, Err(QueueEmpty));
      m.Dequeue(queues, draw, now) == (m.(store := s), s.Deliver(r))
  {
    var sel := m.SelectQueue(queues, draw).name;
    assert m.store.Dequeue(sel, now) == (m.store, Err(QueueEmpty));
  }

  lemma OthersServe(m: Mgr, queues: seq<string>, drawn: string, now: int) returns (q: string)
    requires drawn in queues && !m.store.CanServe(drawn, now)
    ensures var (s, r) := TryOthers(m.store, queues, drawn, now, Err(QueueEmpty));
      Drawn(m, queues, drawn, now, m.(store := s), s.Deliver(r), q)
  {
    forall p
      ensures Serves(m.store, p, now) <==> m.store.CanServe(p, now)
    {
      ServesIff(m.store, p, now);
    }
    var i := TryOthersServes(m.store, queues, drawn, now, Err(QueueEmpty));
    var (s, r) := TryOthers(m.store, queues, drawn, now, Err(QueueEmpty));
    q := "";
    if r.Ok? {
      q := queues[i];
      TakesPick(m, q, now);
    } else if OnlyDrawn(queues, drawn) {
      AllDrawn(m.store, queues, drawn);
    }
  }

  lemma {:induction false} AllDrawn(s: Store, queues: seq<string>, drawn: string)
    requires OnlyDrawn(queues, drawn)
    ensures LastError(s, queues, drawn) == QueueEmpty
  {
    if queues != [] {
      AllDrawn(s, queues[..|queues| - 1], drawn);
    }
  }

  /** Once a candidate is drawn, the dequeue takes an entry exactly when a listed queue can serve: of the
      drawn queue, or of the first that can. */
  lemma DrawnOutcome(m: Mgr, queues: seq<string>, draw: nat, now: int) returns (q: string)
    requires m.SelectQueue(queues, draw).Chosen?
    requires var sel := m.SelectQueue(queues, draw).name;
      sel != "" && sel in queues && Eligible(m, sel)
    ensures var (m', r) := m.Dequeue(queues, draw, now);
      Drawn(m, queues, m.SelectQueue(queues, draw).name, now, m', r, q)
  {
    var sel := m.SelectQueue(queues, draw).name;
    if m.store.CanServe(sel, now) {
      q := sel;
      DrawnServes(m, queues, draw, now);
    } else {
      DrawnFallsBack(m, queues, draw, now);
      q := OthersServe(m, queues, sel, now);
    }
  }

  lemma PanickedOutcome(m: Mgr, queues: seq<string>, draw: nat, now: int)
    requires Panics(m, queues)
    ensures m.Dequeue(queues, draw, now) == (m, Panicked)
  {
    PanicsIff(m, queues, draw);
  }

  /** Every way a dequeue can end.  It panics as PanicsIff says; with no candidate it reports an empty
      queue; otherwise a candidate of the highest priority is drawn, and unless it has no name, which
      counts as none, Drawn says the rest. */
  lemma DequeueOutcome(m: Mgr, queues: seq<string>, draw: nat, now: int) returns (q: string)
    ensures var (m', r) := m.Dequeue(queues, draw, now);
      if Panics(m, queues) then m' == m && r == Panicked
      else if !SomeCandidate(m, queues)
      then m' == m && r == NotFetched(if queues == [] then NoQueuesSpecified else QueueEmpty)
      else
        && m.SelectQueue(queues, draw).Chosen?
        && var drawn := m.SelectQueue(queues, draw).name;
           TopQueue(m, queues, drawn)
           && if drawn == "" then m' == m && r == NotFetched(QueueEmpty) else Drawn(m, queues, drawn, now, m', r, q)
  {
    q := "";
    if Panics(m, queues) {
      PanickedOutcome(m, queues, draw, now);
    } else {
      PanicsIff(m, queues, draw);
      SelectionIsTop(m, queues, draw);
      if m.SelectQueue(queues, draw).Chosen? && m.SelectQueue(queues, draw).name != "" {
        q := DrawnOutcome(m, queues, draw, now);
      }
    }
  }

  /** A lone candidate whose priority is not negative is drawn, whatever it weighs. */
  lemma LoneCandidateIsDrawn(m: Mgr, q: string, draw: nat)
    requires Eligible(m, q) && m.configs[q].priority >= 0
    ensures m.SelectQueue([q], draw) == Chosen(q)
  {
    assert [q][..0] == [];
    var c := Candidate(q, m.configs[q].priority, m.configs[q].weight);
    assert m.Candidates([q]) == [c];
    assert [c][..0] == [];
    assert AtPriority([c], c.priority) == [c];
  }

  /** Registered with a positive weight and a priority that is not negative. */
  ghost predicate SoundQueues(m: Mgr, queues: seq<string>) {
    forall p :: p in queues ==>
      p in m.configs && m.configs[p].weight >= 1 && m.configs[p].priority >= 0
  }

  lemma SoundNeverPanics(m: Mgr, queues: seq<string>)
    requires SoundQueues(m, queues)
    ensures !Panics(m, queues)
  {
    WeightlessPanicsIff(m, queues);
    if SomeCandidate(m, queues) {
      var q :| q in queues && Eligible(m, q);
      assert m.configs[q].priority >= 0;
      assert forall i: nat :: TopAt(m, queues, i) ==> queues[i] in queues;
    }
  }

  /** With every listed queue registered and sound, a dequeue takes an entry if and only if some
      listed, unpaused queue holds a due one. */
  lemma WorkConserving(m: Mgr, queues: seq<string>, draw: nat, now: int) returns (q: string)
    requires "" !in m.configs && SoundQueues(m, queues)
    ensures !Panics(m, queues)
    ensures var (m', r) := m.Dequeue(queues, draw, now);
      if SomeServes(m.store, queues, now)
      then q in queues && Took(m, m', r, q, now)
      else m' == m && r.NotFetched?
  {
    SoundNeverPanics(m, queues);
    forall p | p in queues && Serves(m.store, p, now)
      ensures Eligible(m, p)
    {
      ServesIff(m.store, p, now);
    }
    q := DequeueOutcome(m, queues, draw, now);
  }
}
