/** The queue manager: registration, routing, weighted choice of a queue, requeue and cancel. */
module QueueManager {
  import opened Jobs
  import opened MemoryStorage

  /** Fills the unset fields of a registration. */
  function WithDefaults(c: QueueConfig): QueueConfig {
    c.(maxRetries := if c.maxRetries == 0 then 3 else c.maxRetries,
       strategy := if c.strategy.Unset? then Exponential else c.strategy,
       retryDelay := if c.retryDelay == 0 then 60 else c.retryDelay,
       maxRetryDelay := if c.maxRetryDelay == 0 then 3600 else c.maxRetryDelay,
       weight := if c.weight == 0 then 1 else c.weight)
  }

  function DefaultConfig(name: string): QueueConfig {
    QueueConfig(name, 3, Exponential, 60, 3600, PRIORITY_NORMAL, 1, "")
  }

  datatype Candidate = Candidate(name: string, priority: int, weight: int)

  /** Panic is rand.Intn called with a non-positive bound. */
  datatype Selection = Chosen(name: string) | Nothing | Panic

  function MaxPriority(cs: seq<Candidate>): (p: int)
    ensures p >= 0
    ensures forall c :: c in cs ==> c.priority <= p
    ensures p == 0 || exists c :: c in cs && c.priority == p
  {
    if |cs| == 0 then PRIORITY_LOW
    else
      var c := cs[|cs| - 1];
      var p := MaxPriority(cs[..|cs| - 1]);
      if c.priority > p then assert c in cs; c.priority else p
  }

  function AtPriority(cs: seq<Candidate>, p: int): (top: seq<Candidate>)
    ensures forall c :: c in top <==> c in cs && c.priority == p
  {
    if |cs| == 0 then []
    else
      var c := cs[|cs| - 1];
      AtPriority(cs[..|cs| - 1], p) + (if c.priority == p then [c] else [])
  }

  function TotalWeight(cs: seq<Candidate>): int {
    if |cs| == 0 then 0 else TotalWeight(cs[..|cs| - 1]) + cs[|cs| - 1].weight
  }

  function CumWeight(cs: seq<Candidate>, n: nat): int
    requires n <= |cs|
  {
    TotalWeight(cs[..n])
  }

  /** The first index from `i` on whose cumulative weight exceeds r, or the length. */
  function PickFrom(cs: seq<Candidate>, r: int, i: nat): (k: nat)
    requires i <= |cs|
    ensures i <= k <= |cs|
    ensures k < |cs| ==> r < CumWeight(cs, k + 1)
    ensures forall l :: i < l <= k ==> r >= CumWeight(cs, l)
    decreases |cs| - i
  {
    if i == |cs| || r < CumWeight(cs, i + 1) then i else PickFrom(cs, r, i + 1)
  }

  function Choose(cs: seq<Candidate>, draw: nat): Selection {
    if |cs| == 0 then Nothing
    else
      var top := AtPriority(cs, MaxPriority(cs));
      if |top| == 1 then Chosen(top[0].name)
      else if TotalWeight(top) <= 0 then Panic
      else
        var i := PickFrom(top, draw % TotalWeight(top), 0);
        Chosen(top[if i < |top| then i else 0].name)
  }

  /** Tries the other queues in order; `last` is the outcome so far. */
  function TryOthers(s: Store, queues: seq<string>, skip: string, now: int, last: Result<string>)
    : (Store, Result<string>)
  {
    if |queues| == 0 then (s, last)
    else if queues[0] == skip then TryOthers(s, queues[1..], skip, now, last)
    else
      var (s', r) := s.Dequeue(queues[0], now);
      if r.Ok? then (s', r) else TryOthers(s, queues[1..], skip, now, r)
  }

  datatype Mgr = Mgr(store: Store, configs: map<string, QueueConfig>)
  {
    /** The manager's own table first, the storage's second. */
    function Lookup(name: string): Option<QueueConfig> {
      if name in configs then Some(configs[name])
      else if name in store.configs then Some(store.configs[name])
      else None
    }

    /** A lookup that reaches the storage is remembered. */
    function Cached(name: string): Mgr {
      if name in configs || name !in store.configs then this
      else this.(configs := configs[name := store.configs[name]])
    }

    function Save(c: QueueConfig): Mgr {
      Mgr(store.(configs := store.configs[c.name := c]), configs[c.name := c])
    }

    function RegisterQueue(c: QueueConfig): Mgr {
      if c.name == "" then this else Save(WithDefaults(c))
    }

    function UpdateQueueConfig(c: QueueConfig): Mgr {
      if c.name == "" || c.name !in configs then this else Save(c)
    }

    /** The queue's registration, made on the spot when there is none. */
    function Ensured(name: string): (Mgr, QueueConfig) {
      match Lookup(name)
      case Some(c) => (Cached(name), c)
      case None => (RegisterQueue(DefaultConfig(name)), DefaultConfig(name))
    }

    function Enqueue(j0: Job, now: int): (Mgr, Result<()>) {
      var j := if j0.queue == "" then j0.(queue := "default") else j0;
      var (m, c) := Ensured(j.queue);
      var j := if j.maxRetries == 0 then j.(maxRetries := c.maxRetries) else j;
      if j.id in store.jobs then (m, Err(JobAlreadyExists))
      else
        var due := if j.scheduledAt > now then j.scheduledAt else now;
        var s := m.store.CreateJob(j).Enqueue(j.queue, j.id, j.priority, due);
        (m.(store := s.(created := s.created + 1)), Ok(()))
    }

    predicate IsCandidate(q: string) {
      q in configs && !store.IsPaused(q) && |store.Entries(q)| > 0
    }

    function Candidates(queues: seq<string>): seq<Candidate> {
      if |queues| == 0 then []
      else
        var q := queues[|queues| - 1];
        Candidates(queues[..|queues| - 1])
        + (if IsCandidate(q) then [Candidate(q, configs[q].priority, configs[q].weight)] else [])
    }

    function SelectQueue(queues: seq<string>, draw: nat): Selection {
      Choose(Candidates(queues), draw)
    }

    /** `draw` stands for the random source: the number drawn below n is `draw % n`. */
    function Dequeue(queues: seq<string>, draw: nat, now: int): (Mgr, Fetch) {
      if |queues| == 0 then (this, NotFetched(NoQueuesSpecified))
      else match SelectQueue(queues, draw)
        case Panic => (this, Panicked)
        case Nothing => (this, NotFetched(QueueEmpty))
        case Chosen(name) =>
          if name == "" then (this, NotFetched(QueueEmpty))
          else
            var (s, r) := store.Dequeue(name, now);
            var (s, r) := if r == Err(QueueEmpty) then TryOthers(s, queues, name, now, r) else (s, r);
            (this.(store := s), s.Deliver(r))
    }

    /** Writes the caller's copy of the job back before the entry is appended. */
    function Requeue(j: Job, delay: int, now: int): Mgr {
      if j.id !in store.jobs then this
      else this.(store := store.UpdateJob(j).Enqueue(j.queue, j.id, j.priority, now + delay))
    }

    function CancelJob(id: string, now: int): (Mgr, Result<()>) {
      if id !in store.jobs then (this, Err(JobNotFound))
      else
        var j := store.jobs[id];
        if j.IsTerminal() then (this, Err(AlreadyTerminal))
        else
          var s := store.UpdateStatus(id, Cancelled, now);
          (this.(store := if j.status == Pending then s.Remove(j.queue, id) else s), Ok(()))
    }
  }

  class Manager {
    const store: MemoryStore
    var configs: map<string, QueueConfig>

    ghost function State(): Mgr
      reads this, store
    {
      Mgr(store.State(), configs)
    }

    constructor (store: MemoryStore)
      ensures this.store == store
      ensures State() == Mgr(store.State(), store.queueConfigs)
    {
      this.store := store;
      configs := store.queueConfigs;
    }

    method RegisterQueue(c: QueueConfig) returns (r: Result<()>)
      modifies this, store
      ensures State() == old(State()).RegisterQueue(c)
      ensures r == if c.name == "" then Err(NameRequired) else Ok(())
    {
      if c.name == "" { return Err(NameRequired); }
      var config := c;
      if config.maxRetries == 0 { config := config.(maxRetries := 3); }
      if config.strategy.Unset? { config := config.(strategy := Exponential); }
      if config.retryDelay == 0 { config := config.(retryDelay := 60); }
      if config.maxRetryDelay == 0 { config := config.(maxRetryDelay := 3600); }
      if config.weight == 0 { config := config.(weight := 1); }
      store.SaveQueueConfig(config);
      configs := configs[config.name := config];
      r := Ok(());
    }

    method GetQueueConfig(name: string) returns (r: Result<QueueConfig>)
      modifies this
      ensures State() == old(State()).Cached(name)
      ensures var found := old(State()).Lookup(name);
        r == if found.Some? then Ok(found.value) else Err(ConfigNotFound)
    {
      if name !in configs {
        r := store.GetQueueConfig(name);
        if r.Err? { return; }
        configs := configs[name := r.value];
        return;
      }
      r := Ok(configs[name]);
    }

    method UpdateQueueConfig(c: QueueConfig) returns (r: Result<()>)
      modifies this, store
      ensures State() == old(State()).UpdateQueueConfig(c)
      ensures r.Ok? <==> c.name != "" && c.name in old(configs)
    {
      if c.name == "" { return Err(NameRequired); }
      if c.name !in configs { return Err(ConfigNotFound); }
      store.SaveQueueConfig(c);
      configs := configs[c.name := c];
      r := Ok(());
    }

    method Enqueue(j0: Job, now: int) returns (r: Result<()>)
      modifies this, store
      ensures (State(), r) == old(State()).Enqueue(j0, now)
    {
      var j := if j0.queue == "" then j0.(queue := "default") else j0;
      var config: QueueConfig;
      var found := GetQueueConfig(j.queue);
      if found.Err? {
        config := DefaultConfig(j.queue);
        var registered := RegisterQueue(config);
        if registered.Err? { return registered; }
      } else {
        config := found.value;
      }
      if j.maxRetries == 0 { j := j.(maxRetries := config.maxRetries); }
      r := store.CreateJob(j);
      if r.Err? { return; }
      var delay := 0;
      if j.scheduledAt > now { delay := j.scheduledAt - now; }
      r := store.Enqueue(j.queue, j.id, j.priority, delay, now);
      store.RecordJobCreated();
    }

    /** First pass of selectQueue: the registered, unpaused, non-empty queues. */
    method GatherCandidates(queues: seq<string>) returns (cs: seq<Candidate>)
      ensures cs == State().Candidates(queues)
    {
      cs := [];
      for i := 0 to |queues|
        invariant cs == State().Candidates(queues[..i])
      {
        assert queues[..i + 1][..i] == queues[..i];
        var q := queues[i];
        if q !in configs { continue; }
        var paused := store.IsQueuePaused(q);
        if paused { continue; }
        var length := store.Length(q);
        if length == 0 { continue; }
        cs := cs + [Candidate(q, configs[q].priority, configs[q].weight)];
      }
      assert queues[..|queues|] == queues;
    }

    /** Second and third pass: the candidates of the highest priority. */
    static method FilterTop(cs: seq<Candidate>) returns (top: seq<Candidate>)
      ensures top == AtPriority(cs, MaxPriority(cs))
    {
      var maxPriority := FindMaxPriority(cs);
      top := [];
      for i := 0 to |cs|
        invariant top == AtPriority(cs[..i], maxPriority)
      {
        assert cs[..i + 1][..i] == cs[..i];
        if cs[i].priority == maxPriority { top := top + [cs[i]]; }
      }
      assert cs[..|cs|] == cs;
    }

    static method FindMaxPriority(cs: seq<Candidate>) returns (maxPriority: int)
      ensures maxPriority == MaxPriority(cs)
    {
      maxPriority := PRIORITY_LOW;
      for i := 0 to |cs|
        invariant maxPriority == MaxPriority(cs[..i])
      {
        assert cs[..i + 1][..i] == cs[..i];
        if cs[i].priority > maxPriority { maxPriority := cs[i].priority; }
      }
      assert cs[..|cs|] == cs;
    }

    /** Fourth and fifth pass: the weighted draw. */
    static method DrawWeighted(top: seq<Candidate>, draw: nat) returns (r: Selection)
      requires |top| != 1
      ensures TotalWeight(top) <= 0 ==> r == Panic
      ensures TotalWeight(top) > 0 ==>
        var i := PickFrom(top, draw % TotalWeight(top), 0);
        r == Chosen(top[if i < |top| then i else 0].name)
    {
      assert top[..|top|] == top;
      var totalWeight := 0;
      for i := 0 to |top|
        invariant totalWeight == TotalWeight(top[..i])
      {
        assert top[..i + 1][..i] == top[..i];
        totalWeight := totalWeight + top[i].weight;
      }
      if totalWeight <= 0 { return Panic; }
      var pick := draw % totalWeight;
      var cumWeight := 0;
      for i := 0 to |top|
        invariant cumWeight == TotalWeight(top[..i])
        invariant PickFrom(top, pick, 0) == PickFrom(top, pick, i)
      {
        assert top[..i + 1][..i] == top[..i];
        cumWeight := cumWeight + top[i].weight;
        if pick < cumWeight { return Chosen(top[i].name); }
      }
      r := Chosen(top[0].name);
    }

    method SelectQueue(queues: seq<string>, draw: nat) returns (r: Selection)
      ensures r == State().SelectQueue(queues, draw)
    {
      var cs := GatherCandidates(queues);
      if |cs| == 0 { return Nothing; }
      var top := FilterTop(cs);
      if |top| == 1 { return Chosen(top[0].name); }
      r := DrawWeighted(top, draw);
    }

    method Dequeue(queues: seq<string>, draw: nat, now: int) returns (r: Fetch)
      modifies store
      ensures (State(), r) == old(State()).Dequeue(queues, draw, now)
    {
      if |queues| == 0 { return NotFetched(NoQueuesSpecified); }
      var selection := SelectQueue(queues, draw);
      match selection {
        case Panic => return Panicked;
        case Nothing => return NotFetched(QueueEmpty);
        case Chosen(selected) =>
          if selected == "" { return NotFetched(QueueEmpty); }
          ghost var before := store.State();
          var id := store.Dequeue(selected, now);
          if id == Err(QueueEmpty) {
            id := DequeueOther(queues, selected, now);
          }
          if id.Err? { return NotFetched(id.error); }
          var j := store.GetJob(id.value);
          if j.Err? { return NotFetched(j.error); }
          r := Fetched(j.value);
      }
    }

    /** The fallback scan of Dequeue. */
    method DequeueOther(queues: seq<string>, selected: string, now: int) returns (r: Result<string>)
      modifies store
      ensures configs == old(configs)
      ensures (store.State(), r)
           == TryOthers(old(store.State()), queues, selected, now, Err(QueueEmpty))
    {
      r := Err(QueueEmpty);
      ghost var before := store.State();
      assert queues[0..] == queues;
      for i := 0 to |queues|
        invariant store.State() == before
        invariant TryOthers(before, queues, selected, now, Err(QueueEmpty))
               == TryOthers(before, queues[i..], selected, now, r)
      {
        assert queues[i..][1..] == queues[i + 1..];
        if queues[i] == selected { continue; }
        r := store.Dequeue(queues[i], now);
        if r.Ok? { return; }
      }
    }

    method Requeue(j: Job, delay: int, now: int) returns (r: Result<()>)
      modifies store
      ensures State() == old(State()).Requeue(j, delay, now)
      ensures r == if j.id in old(store.jobs) then Ok(()) else Err(JobNotFound)
    {
      r := store.UpdateJob(j);
      if r.Err? { return; }
      r := store.Enqueue(j.queue, j.id, j.priority, delay, now);
    }

    method CancelJob(id: string, now: int) returns (r: Result<()>)
      modifies store
      ensures (State(), r) == old(State()).CancelJob(id, now)
    {
      var j := store.GetJob(id);
      if j.Err? { return Err(j.error); }
      if j.value.IsTerminal() { return Err(AlreadyTerminal); }
      r := store.UpdateStatus(id, Cancelled, now);
      if j.value.status == Pending {
        var removed := store.Remove(j.value.queue, id);
      }
    }
  }
}
