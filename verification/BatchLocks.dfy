/** The batch processor under its read-write lock.  The look-up of a flush takes the lock for reading and
    gives it back at once; a registration and the look-up of an AddJob take it for writing; Stop holds it
    for reading over its whole loop, while each processBatch it calls takes it again.  A writer that has
    asked for the lock keeps new readers out, so such a Stop can come to wait for itself. */
module BatchLocks {
  import opened Jobs
  import opened Orders
  import opened Batching

  /** What a writer is going to do. */
  datatype Request = ToRegister(jobType: string) | ToAdd(jobType: string, job: Job)

  datatype Visited = Visited(jobType: string, g: nat)

  /** While Stop holds the lock: the types it has not looked up, and the batch it is about to take. */
  datatype Stopping = NotYet | Holding(todo: set<string>, at: Option<Visited>) | Over

  /** `pending` is the writer that has asked and waits; others queue behind it unseen. */
  datatype Proc = Proc(lanes: map<string, Lane>, pending: Option<Request>, stop: Stopping)
  {
    function Of(name: string): Lane {
      if name in lanes then lanes[name] else NEW_LANE
    }

    predicate StopIsAt(name: string, g: nat) {
      stop.Holding? && stop.at == Some(Visited(name, g))
    }
  }

  const NEW_PROC := Proc(map[], None, NotYet)

  datatype Action =
    | Ask(r: Request)                                // a writer asks for the lock
    | Grant                                          // and gets it
    | Adds(name: string, g: nat, job: Job, at: int)  // AddJob under the batch's lock
    | Fires(name: string, timer: nat)
    | Finds(name: string)                            // a spawned flush looks the batch up
    | Takes(name: string, g: nat)                    // and takes what it holds
    | StopBegins
    | StopFinds(name: string)
    | StopTakes
    | StopEnds

  predicate Can(p: Proc, a: Action) {
    match a
    case Ask(_) => p.pending.None?
    case Grant => p.pending.Some? && !p.stop.Holding?
    case Adds(name, g, j, at) => Enabled(p.Of(name), Append(g, j, at))
    case Fires(name, timer) => Enabled(p.Of(name), Fire(timer))
    case Finds(name) => Enabled(p.Of(name), Start) && p.pending.None?
    case Takes(name, g) => Enabled(p.Of(name), Take(g)) && !(p.StopIsAt(name, g) && p.Of(name).batches[g].flushing == 1)
    case StopBegins => p.stop.NotYet? && p.pending.None?
    case StopFinds(name) => p.stop.Holding? && p.stop.at.None? && name in p.stop.todo && p.pending.None?
    case StopTakes =>
      p.stop.Holding? && p.stop.at.Some? && Enabled(p.Of(p.stop.at.value.jobType), Take(p.stop.at.value.g))
    case StopEnds => p.stop.Holding? && p.stop.at.None? && p.stop.todo == {}
  }

  /** An action's part in the lane of a type. */
  datatype Part = Part(name: string, e: Event)

  function PartOf(p: Proc, a: Action): Option<Part>
    requires Can(p, a)
  {
    match a
    case Grant =>
      (match p.pending.value
       case ToRegister(name) => Some(Part(name, Register))
       case ToAdd(name, j) => if name in p.lanes then Some(Part(name, LookUp(j))) else None)
    case Adds(name, g, j, at) => Some(Part(name, Append(g, j, at)))
    case Fires(name, timer) => Some(Part(name, Fire(timer)))
    case Finds(name) => Some(Part(name, Start))
    case Takes(name, g) => Some(Part(name, Take(g)))
    case StopFinds(name) => Some(Part(name, Visit))
    case StopTakes => Some(Part(p.stop.at.value.jobType, Take(p.stop.at.value.g)))
    case _ => None
  }

  function Lanes(cfg: Config, p: Proc, a: Action): map<string, Lane>
    requires Can(p, a)
  {
    var part := PartOf(p, a);
    if part.None? then p.lanes
    else p.lanes[part.value.name := Step(cfg, p.Of(part.value.name), part.value.e)]
  }

  function LastOf(l: Lane, name: string): Option<Visited> {
    if l.batches == [] then None else Some(Visited(name, |l.batches| - 1))
  }

  function Next(cfg: Config, p: Proc, a: Action): Proc
    requires Can(p, a)
  {
    var p1 := p.(lanes := Lanes(cfg, p, a));
    match a
    case Ask(r) => p1.(pending := Some(r))
    case Grant => p1.(pending := None)
    case StopBegins => p1.(stop := Holding(p.lanes.Keys, None))
    case StopFinds(name) => p1.(stop := Holding(p.stop.todo - {name}, LastOf(p.Of(name), name)))
    case StopTakes => p1.(stop := Holding(p.stop.todo, None))
    case StopEnds => p1.(stop := Over)
    case _ => p1
  }

  predicate Goes(cfg: Config, p: Proc, actions: seq<Action>)
    decreases |actions|, 0
  {
    actions == []
    || (Goes(cfg, p, actions[..|actions| - 1])
        && Can(Then(cfg, p, actions[..|actions| - 1]), actions[|actions| - 1]))
  }

  function Then(cfg: Config, p: Proc, actions: seq<Action>): Proc
    requires Goes(cfg, p, actions)
    decreases |actions|, 1
  {
    if actions == [] then p
    else Next(cfg, Then(cfg, p, actions[..|actions| - 1]), actions[|actions| - 1])
  }

  lemma ThenOne(cfg: Config, p: Proc, actions: seq<Action>, a: Action)
    requires Goes(cfg, p, actions) && Can(Then(cfg, p, actions), a)
    ensures Goes(cfg, p, actions + [a])
    ensures Then(cfg, p, actions + [a]) == Next(cfg, Then(cfg, p, actions), a)
  {
    assert (actions + [a])[..|actions|] == actions;
  }

  // ---- each lane is a lane ----

  /** What a run of the processor is to one type. */
  function LaneRun(cfg: Config, actions: seq<Action>, name: string): seq<Event>
    requires Goes(cfg, NEW_PROC, actions)
  {
    if actions == [] then []
    else
      var before := actions[..|actions| - 1];
      var part := PartOf(Then(cfg, NEW_PROC, before), actions[|actions| - 1]);
      LaneRun(cfg, before, name) + if part.Some? && part.value.name == name then [part.value.e] else []
  }

  lemma PartEnabled(p: Proc, a: Action)
    requires Can(p, a) && PartOf(p, a).Some?
    ensures Enabled(p.Of(PartOf(p, a).value.name), PartOf(p, a).value.e)
  {
  }

  /** In every run of the processor each type goes through a run of its lane, so what holds of every run
      of a lane holds of every type under the lock. */
  lemma {:induction false} EachLaneRuns(cfg: Config, actions: seq<Action>, name: string)
    requires Goes(cfg, NEW_PROC, actions)
    ensures Runs(cfg, NEW_LANE, LaneRun(cfg, actions, name))
    ensures After(cfg, NEW_LANE, LaneRun(cfg, actions, name)) == Then(cfg, NEW_PROC, actions).Of(name)
  {
    if actions != [] {
      var before, a := actions[..|actions| - 1], actions[|actions| - 1];
      EachLaneRuns(cfg, before, name);
      var p := Then(cfg, NEW_PROC, before);
      var part := PartOf(p, a);
      if part.Some? && part.value.name == name {
        PartEnabled(p, a);
        AfterThen(cfg, NEW_LANE, LaneRun(cfg, before, name), part.value.e);
      } else {
        assert LaneRun(cfg, actions, name) == LaneRun(cfg, before, name);
      }
    }
  }

  // ---- what every state keeps ----

  /** Registered types have a batch; Stop visits registered types and counts among the flushes that
      refer to the batch it is at. */
  ghost predicate Sane(p: Proc) {
    && (forall name :: name in p.lanes ==> p.lanes[name].batches != [])
    && (p.stop.Holding? ==>
          && p.stop.todo <= p.lanes.Keys
          && (p.stop.at.Some? ==> Enabled(p.Of(p.stop.at.value.jobType), Take(p.stop.at.value.g))))
  }

  /** Only a take lowers the number of flushes that refer to a batch, and by one. */
  lemma FlushingAfter(cfg: Config, l: Lane, e: Event, g: nat)
    requires Enabled(l, e) && g < |l.batches|
    ensures var l' := Step(cfg, l, e);
      g < |l'.batches| && l'.batches[g].flushing
        >= l.batches[g].flushing - (if e == Take(g) then 1 else 0)
  {
  }

  lemma StepNonEmpty(cfg: Config, l: Lane, e: Event)
    requires Enabled(l, e) && (l.batches != [] || e.Register?)
    ensures Step(cfg, l, e).batches != []
  {
  }

  lemma LanesStayRegistered(cfg: Config, p: Proc, a: Action)
    requires Can(p, a) && Sane(p)
    ensures p.lanes.Keys <= Lanes(cfg, p, a).Keys
    ensures forall name :: name in Lanes(cfg, p, a) ==> Lanes(cfg, p, a)[name].batches != []
  {
    var part := PartOf(p, a);
    if part.Some? {
      PartEnabled(p, a);
      StepNonEmpty(cfg, p.Of(part.value.name), part.value.e);
    }
  }

  lemma StopKeepsToken(cfg: Config, p: Proc, a: Action)
    requires Can(p, a) && Sane(p) && p.stop.Holding? && p.stop.at.Some? && !a.StopTakes?
    ensures var at := p.stop.at.value;
      Enabled(Next(cfg, p, a).Of(at.jobType), Take(at.g)) && Next(cfg, p, a).stop == p.stop
  {
    var part, at := PartOf(p, a), p.stop.at.value;
    if part.Some? && part.value.name == at.jobType {
      PartEnabled(p, a);
      FlushingAfter(cfg, p.Of(at.jobType), part.value.e, at.g);
    }
  }

  lemma StopFindsToken(cfg: Config, p: Proc, name: string)
    requires Can(p, StopFinds(name)) && Sane(p)
    ensures Sane(Next(cfg, p, StopFinds(name)))
  {
    LanesStayRegistered(cfg, p, StopFinds(name));
  }

  lemma NextSane(cfg: Config, p: Proc, a: Action)
    requires Can(p, a) && Sane(p)
    ensures Sane(Next(cfg, p, a))
  {
    if a.StopFinds? {
      StopFindsToken(cfg, p, a.name);
    } else {
      LanesStayRegistered(cfg, p, a);
      if p.stop.Holding? && p.stop.at.Some? && !a.StopTakes? {
        StopKeepsToken(cfg, p, a);
      }
    }
  }

  lemma {:induction false} AlwaysSane(cfg: Config, p: Proc, actions: seq<Action>)
    requires Sane(p) && Goes(cfg, p, actions)
    ensures Sane(Then(cfg, p, actions))
  {
    if actions != [] {
      AlwaysSane(cfg, p, actions[..|actions| - 1]);
      NextSane(cfg, Then(cfg, p, actions[..|actions| - 1]), actions[|actions| - 1]);
    }
  }

  // ---- Stop waiting for itself ----

  /** Stop holds the lock and has look-ups left, and a writer waits. */
  predicate Stuck(p: Proc) {
    p.stop.Holding? && p.stop.todo != {} && p.pending.Some?
  }

  /** A writer asked for the lock between Stop's taking it and its last look-up. */
  predicate AskedInTime(cfg: Config, actions: seq<Action>)
    requires Goes(cfg, NEW_PROC, actions)
  {
    actions != []
    && var before, a := actions[..|actions| - 1], actions[|actions| - 1];
       var p := Then(cfg, NEW_PROC, before);
       AskedInTime(cfg, before) || (a.Ask? && p.stop.Holding? && p.stop.todo != {})
  }

  lemma StuckStays(cfg: Config, p: Proc, a: Action)
    requires Can(p, a) && (Stuck(p) || !(a.Ask? && p.stop.Holding? && p.stop.todo != {}))
    ensures Stuck(Next(cfg, p, a)) <==> Stuck(p)
  {
  }

  /** In every run, Stop waits for itself if and only if a writer asked for the lock before its last
      look-up. */
  lemma {:induction false} StopStuckIff(cfg: Config, actions: seq<Action>)
    requires Goes(cfg, NEW_PROC, actions)
    ensures Stuck(Then(cfg, NEW_PROC, actions)) <==> AskedInTime(cfg, actions)
  {
    if actions != [] {
      var before, a := actions[..|actions| - 1], actions[|actions| - 1];
      StopStuckIff(cfg, before);
      var p := Then(cfg, NEW_PROC, before);
      if !Stuck(p) && a.Ask? && p.stop.Holding? && p.stop.todo != {} {
        assert Stuck(Next(cfg, p, a));
      } else {
        StuckStays(cfg, p, a);
      }
    }
  }

  /** No look-up, of a flush, an AddJob or a registration, is made between the two. */
  ghost predicate NothingFound(p: Proc, p': Proc) {
    p'.lanes.Keys == p.lanes.Keys && forall name :: name in p.lanes ==> NoneFound(p.lanes[name], p'.lanes[name])
  }

  ghost predicate NoneFound(l: Lane, l': Lane) {
    && |l'.batches| == |l.batches| && l'.spawned >= l.spawned
    && forall g :: 0 <= g < |l.batches| ==>
         l'.batches[g].flushing <= l.batches[g].flushing && l'.batches[g].adding <= l.batches[g].adding
  }

  lemma StepFindsNone(cfg: Config, l: Lane, e: Event)
    requires Enabled(l, e) && (e.Append? || e.Fire? || e.Take?)
    ensures NoneFound(l, Step(cfg, l, e))
  {
  }

  lemma StuckFindsNothing(cfg: Config, p: Proc, a: Action)
    requires Can(p, a) && Stuck(p)
    ensures NothingFound(p, Next(cfg, p, a))
  {
    var part := PartOf(p, a);
    if part.Some? {
      PartEnabled(p, a);
      StepFindsNone(cfg, p.Of(part.value.name), part.value.e);
    }
  }

  /** And then, in every continuation, Stop does not return, no writer gets the lock and no batch is
      looked up again. */
  lemma {:induction false} StuckForever(cfg: Config, p: Proc, actions: seq<Action>)
    requires Stuck(p) && Goes(cfg, p, actions)
    ensures Stuck(Then(cfg, p, actions)) && NothingFound(p, Then(cfg, p, actions))
  {
    if actions != [] {
      var before := actions[..|actions| - 1];
      StuckForever(cfg, p, before);
      StuckStays(cfg, Then(cfg, p, before), actions[|actions| - 1]);
      StuckFindsNothing(cfg, Then(cfg, p, before), actions[|actions| - 1]);
    }
  }

  // ---- Stop returning ----

  /** What goes on by itself: timers, flushes, a waiting writer, a Stop under way. */
  predicate Internal(a: Action) {
    !a.Ask? && !a.Adds? && !a.StopBegins?
  }

  ghost predicate GoesAlone(cfg: Config, p: Proc, actions: seq<Action>) {
    Goes(cfg, p, actions) && forall a :: a in actions ==> Internal(a)
  }

  lemma AloneThen(cfg: Config, p: Proc, actions: seq<Action>, a: Action)
    requires GoesAlone(cfg, p, actions) && Can(Then(cfg, p, actions), a) && Internal(a)
    ensures GoesAlone(cfg, p, actions + [a])
    ensures Then(cfg, p, actions + [a]) == Next(cfg, Then(cfg, p, actions), a)
  {
    ThenOne(cfg, p, actions, a);
  }

  ghost predicate CanReturn(cfg: Config, p: Proc) {
    exists actions :: GoesAlone(cfg, p, actions) && Then(cfg, p, actions).stop.Over?
  }

  /** From where `done` leads, Stop takes what it is at, visits what is left, and returns. */
  lemma {:induction false} GoesOn(cfg: Config, p: Proc, done: seq<Action>)
    requires GoesAlone(cfg, p, done)
    requires var q := Then(cfg, p, done); Sane(q) && q.stop.Holding? && !Stuck(q)
    ensures CanReturn(cfg, p)
    decreases |Then(cfg, p, done).stop.todo|, if Then(cfg, p, done).stop.at.Some? then 1 else 0
  {
    var q := Then(cfg, p, done);
    var a := if q.stop.at.Some? then StopTakes
             else if q.stop.todo == {} then StopEnds
             else var name :| name in q.stop.todo; StopFinds(name);
    AloneThen(cfg, p, done, a);
    if a == StopEnds {
      assert Then(cfg, p, done + [a]).stop.Over?;
    } else {
      NextSane(cfg, q, a);
      GoesOn(cfg, p, done + [a]);
    }
  }

  /** A Stop under way can return if and only if it is not stuck. */
  lemma ReturnsIff(cfg: Config, history: seq<Action>)
    requires Goes(cfg, NEW_PROC, history) && Then(cfg, NEW_PROC, history).stop.Holding?
    ensures CanReturn(cfg, Then(cfg, NEW_PROC, history)) <==> !Stuck(Then(cfg, NEW_PROC, history))
  {
    var p := Then(cfg, NEW_PROC, history);
    if Stuck(p) {
      forall actions | Goes(cfg, p, actions)
        ensures !Then(cfg, p, actions).stop.Over?
      {
        StuckForever(cfg, p, actions);
      }
    } else {
      AlwaysSane(cfg, NEW_PROC, history);
      GoesOn(cfg, p, []);
    }
  }

  // ---- which buffers are lost ----

  ghost predicate HasTaken(p: Proc, p': Proc, name: string, g: nat)
    requires g < |p.Of(name).batches|
  {
    g < |p'.Of(name).batches| && |p'.Of(name).batches[g].taken| > |p.Of(name).batches[g].taken|
  }

  /** Some continuation, in which nothing new is asked, hands the batch's buffer to its processor. */
  ghost predicate WillTake(cfg: Config, p: Proc, name: string, g: nat)
    requires g < |p.Of(name).batches|
  {
    exists actions :: GoesAlone(cfg, p, actions) && HasTaken(p, Then(cfg, p, actions), name, g)
  }

  /** No started flush refers to the batch, and it is replaced, or about to be by the writer whose turn
      is next, or Stop is stuck. */
  predicate Doomed(p: Proc, name: string, g: nat)
    requires g < |p.Of(name).batches|
  {
    p.Of(name).batches[g].flushing == 0
    && (g < |p.Of(name).batches| - 1 || p.pending == Some(ToRegister(name)) || Stuck(p))
  }

  lemma UnfoundStep(cfg: Config, l: Lane, e: Event, g: nat)
    requires Enabled(l, e) && g < |l.batches| && l.batches[g].flushing == 0
    requires e.Start? || e.Visit? ==> g < |l.batches| - 1
    ensures var l' := Step(cfg, l, e);
      && |l'.batches| == |l.batches| + (if e.Register? then 1 else 0)
      && l'.batches[g].flushing == 0 && l'.batches[g].taken == l.batches[g].taken
  {
  }

  lemma DoomedStep(cfg: Config, p: Proc, name: string, g: nat, a: Action)
    requires Can(p, a) && Sane(p) && g < |p.Of(name).batches| && Doomed(p, name, g)
    ensures var p' := Next(cfg, p, a);
      g < |p'.Of(name).batches| && Doomed(p', name, g)
      && p'.Of(name).batches[g].taken == p.Of(name).batches[g].taken
  {
    var part := PartOf(p, a);
    if part.Some? && part.value.name == name {
      PartEnabled(p, a);
      UnfoundStep(cfg, p.Of(name), part.value.e, g);
    }
  }

  /** From a doomed batch nothing is taken in any continuation, whatever is asked. */
  lemma {:induction false} DoomedForever(cfg: Config, p: Proc, name: string, g: nat, actions: seq<Action>)
    requires Sane(p) && g < |p.Of(name).batches| && Doomed(p, name, g) && Goes(cfg, p, actions)
    ensures var p' := Then(cfg, p, actions);
      g < |p'.Of(name).batches| && Doomed(p', name, g)
      && p'.Of(name).batches[g].taken == p.Of(name).batches[g].taken
  {
    if actions != [] {
      var before := actions[..|actions| - 1];
      DoomedForever(cfg, p, name, g, before);
      AlwaysSane(cfg, p, before);
      DoomedStep(cfg, Then(cfg, p, before), name, g, actions[|actions| - 1]);
    }
  }

  lemma TakenBy(cfg: Config, p: Proc, done: seq<Action>, name: string, g: nat)
    requires g < |p.Of(name).batches| && GoesAlone(cfg, p, done) && Sane(Then(cfg, p, done))
    requires var l := Then(cfg, p, done).Of(name);
      && g < |l.batches| && l.batches[g].flushing > 0 && l.batches[g].buffer != []
      && l.batches[g].taken == p.Of(name).batches[g].taken
    ensures WillTake(cfg, p, name, g)
  {
    var q := Then(cfg, p, done);
    var a := if q.StopIsAt(name, g) then StopTakes else Takes(name, g);
    AloneThen(cfg, p, done, a);
    assert HasTaken(p, Then(cfg, p, done + [a]), name, g);
  }

  /** The registered batch of the type waits, untaken since p, for a flush that is spawned or whose timer
      is armed. */
  ghost predicate Expects(cfg: Config, p: Proc, q: Proc, name: string, g: nat)
    requires g < |p.Of(name).batches|
  {
    var l := q.Of(name);
    && Sane(q) && g == |l.batches| - 1
    && l.batches[g].buffer != [] && l.batches[g].taken == p.Of(name).batches[g].taken && l.batches[g].flushing == 0
    && (l.spawned > 0 || TimerCovers(cfg, l, l.batches[g]))
  }

  lemma FoundThenTaken(cfg: Config, p: Proc, done: seq<Action>, name: string, g: nat)
    requires g < |p.Of(name).batches| && GoesAlone(cfg, p, done)
    requires var q := Then(cfg, p, done);
      Expects(cfg, p, q, name, g) && q.pending.None? && q.Of(name).spawned > 0
    ensures WillTake(cfg, p, name, g)
  {
    AloneThen(cfg, p, done, Finds(name));
    NextSane(cfg, Then(cfg, p, done), Finds(name));
    TakenBy(cfg, p, done + [Finds(name)], name, g);
  }

  /** No writer waits. */
  lemma FreeThenTaken(cfg: Config, p: Proc, done: seq<Action>, name: string, g: nat)
    requires g < |p.Of(name).batches| && GoesAlone(cfg, p, done)
    requires Expects(cfg, p, Then(cfg, p, done), name, g) && Then(cfg, p, done).pending.None?
    ensures WillTake(cfg, p, name, g)
  {
    var l := Then(cfg, p, done).Of(name);
    if l.spawned > 0 {
      FoundThenTaken(cfg, p, done, name, g);
    } else {
      var a := Fires(name, l.batches[g].current.value);
      AloneThen(cfg, p, done, a);
      NextSane(cfg, Then(cfg, p, done), a);
      FoundThenTaken(cfg, p, done + [a], name, g);
    }
  }

  /** A writer waits, and Stop does not hold the lock. */
  lemma GrantedThenTaken(cfg: Config, p: Proc, done: seq<Action>, name: string, g: nat)
    requires g < |p.Of(name).batches| && GoesAlone(cfg, p, done)
    requires var q := Then(cfg, p, done);
      && Expects(cfg, p, q, name, g) && q.pending.Some? && q.pending != Some(ToRegister(name))
      && !q.stop.Holding?
    ensures WillTake(cfg, p, name, g)
  {
    AloneThen(cfg, p, done, Grant);
    NextSane(cfg, Then(cfg, p, done), Grant);
    FreeThenTaken(cfg, p, done + [Grant], name, g);
  }

  /** Stop has made its last look-up. */
  lemma EndedThenTaken(cfg: Config, p: Proc, done: seq<Action>, name: string, g: nat)
    requires g < |p.Of(name).batches| && GoesAlone(cfg, p, done)
    requires var q := Then(cfg, p, done);
      && Expects(cfg, p, q, name, g) && q.pending.Some? && q.pending != Some(ToRegister(name))
      && q.stop.Holding? && q.stop.todo == {}
    ensures WillTake(cfg, p, name, g)
    decreases if Then(cfg, p, done).stop.at.Some? then 1 else 0
  {
    var q := Then(cfg, p, done);
    if q.stop.at.Some? {
      AloneThen(cfg, p, done, StopTakes);
      NextSane(cfg, q, StopTakes);
      EndedThenTaken(cfg, p, done + [StopTakes], name, g);
    } else {
      AloneThen(cfg, p, done, StopEnds);
      NextSane(cfg, q, StopEnds);
      GrantedThenTaken(cfg, p, done + [StopEnds], name, g);
    }
  }

  /** In every reachable state a buffered job will yet be taken if and only if its batch is not doomed:
      a started flush refers to it, or it is the registered one, the writer whose turn is next does not
      replace it, and Stop is not stuck. */
  lemma LostIff(cfg: Config, history: seq<Action>, name: string, g: nat)
    requires Goes(cfg, NEW_PROC, history) && g < |Then(cfg, NEW_PROC, history).Of(name).batches|
    requires Then(cfg, NEW_PROC, history).Of(name).batches[g].buffer != []
    ensures var p := Then(cfg, NEW_PROC, history); WillTake(cfg, p, name, g) <==> !Doomed(p, name, g)
  {
    var p := Then(cfg, NEW_PROC, history);
    AlwaysSane(cfg, NEW_PROC, history);
    if Doomed(p, name, g) {
      forall actions | Goes(cfg, p, actions)
        ensures !HasTaken(p, Then(cfg, p, actions), name, g)
      {
        DoomedForever(cfg, p, name, g, actions);
      }
    } else if p.Of(name).batches[g].flushing > 0 {
      TakenBy(cfg, p, [], name, g);
    } else {
      EachLaneRuns(cfg, history, name);
      AlwaysCovered(cfg, LaneRun(cfg, history, name));
      assert Expects(cfg, p, p, name, g);
      if p.pending.None? { FreeThenTaken(cfg, p, [], name, g); }
      else if p.stop.Holding? { EndedThenTaken(cfg, p, [], name, g); }
      else { GrantedThenTaken(cfg, p, [], name, g); }
    }
  }

  /** Stop visiting one type, uninterrupted. */
  lemma VisitIsStopped(cfg: Config, p: Proc, name: string, q: Proc)
    requires Sane(p) && Can(p, StopFinds(name)) && q == Next(cfg, p, StopFinds(name))
    ensures Can(q, StopTakes)
    ensures Next(cfg, q, StopTakes) == p.(lanes := p.lanes[name := Stopped(cfg, p.lanes[name])],
                                          stop := Holding(p.stop.todo - {name}, None))
  {
    var l := p.lanes[name];
    assert Step(cfg, l, Visit).batches[|l.batches| - 1].flushing > 0;
  }

  lemma {:induction false} VisitsAll(cfg: Config, p: Proc, order: seq<string>, done: set<string>)
    returns (actions: seq<Action>)
    requires Sane(p) && p.stop.NotYet? && p.pending.None? && IsOrder(order, done) && done <= p.lanes.Keys
    ensures GoesOrderly(cfg, p, actions, done)
    decreases |order|
  {
    if order == [] {
      actions := [StopBegins];
      ThenOne(cfg, p, [], StopBegins);
      assert [] + [StopBegins] == [StopBegins];
      assert done == {} && p.lanes.Keys - done == p.lanes.Keys;
    } else {
      var name, rest := order[|order| - 1], order[..|order| - 1];
      OrderLast(order, done);
      var before := VisitsAll(cfg, p, rest, done - {name});
      actions := VisitsOne(cfg, p, before, done - {name}, name);
      assert done - {name} + {name} == done;
    }
  }

  /** Stop has visited the types of `done`. */
  ghost predicate GoesOrderly(cfg: Config, p: Proc, actions: seq<Action>, done: set<string>) {
    Goes(cfg, p, actions)
    && var q := Then(cfg, p, actions);
       && q == p.(lanes := q.lanes, stop := Holding(p.lanes.Keys - done, None))
       && Emptied(cfg, p.lanes, q.lanes, p.lanes.Keys - done)
  }

  lemma VisitsOne(cfg: Config, p: Proc, before: seq<Action>, done: set<string>, name: string)
    returns (actions: seq<Action>)
    requires Sane(p) && p.pending.None? && name in p.lanes && name !in done
    requires GoesOrderly(cfg, p, before, done)
    ensures GoesOrderly(cfg, p, actions, done + {name})
  {
    var q := Then(cfg, p, before);
    AlwaysSane(cfg, p, before);
    ThenOne(cfg, p, before, StopFinds(name));
    VisitIsStopped(cfg, q, name, Next(cfg, q, StopFinds(name)));
    ThenOne(cfg, p, before + [StopFinds(name)], StopTakes);
    actions := before + [StopFinds(name)] + [StopTakes];
    EmptiedThen(cfg, p.lanes, q.lanes, p.lanes.Keys - done, name);
    assert p.lanes.Keys - (done + {name}) == p.lanes.Keys - done - {name};
  }

  /** A Stop that nothing interrupts is such a run, in whatever order it visits the types: it returns,
      and has taken what every registered batch held. */
  lemma StopIsRun(cfg: Config, p: Proc, order: seq<string>) returns (actions: seq<Action>)
    requires Sane(p) && p.stop.NotYet? && p.pending.None? && IsOrder(order, p.lanes.Keys)
    ensures Goes(cfg, p, actions)
    ensures var q := Then(cfg, p, actions);
      q == p.(lanes := q.lanes, stop := Over) && Emptied(cfg, p.lanes, q.lanes, {})
  {
    var before := VisitsAll(cfg, p, order, p.lanes.Keys);
    ThenOne(cfg, p, before, StopEnds);
    actions := before + [StopEnds];
  }

  lemma Reach(cfg: Config, actions: seq<Action>, p: Proc, a: Action) returns (actions': seq<Action>, p': Proc)
    requires Goes(cfg, NEW_PROC, actions) && p == Then(cfg, NEW_PROC, actions) && Can(p, a)
    ensures Goes(cfg, NEW_PROC, actions') && p' == Then(cfg, NEW_PROC, actions') && p' == Next(cfg, p, a)
  {
    ThenOne(cfg, NEW_PROC, actions, a);
    actions', p' := actions + [a], Next(cfg, p, a);
  }

  lemma ReachBuffered(cfg: Config, j: Job, at: int) returns (actions: seq<Action>, p: Proc)
    ensures Goes(cfg, NEW_PROC, actions) && p == Then(cfg, NEW_PROC, actions)
    ensures p.pending.None? && p.stop.NotYet? && p.lanes.Keys == {"t"}
    ensures p.lanes["t"].batches != [] && p.lanes["t"].batches[0].buffer == [Item(j, at)]
    ensures |p.lanes["t"].batches| == 1 && p.lanes["t"].batches[0].flushing == 0
  {
    actions, p := [], NEW_PROC;
    actions, p := Reach(cfg, actions, p, Ask(ToRegister("t")));
    actions, p := Reach(cfg, actions, p, Grant);
    assert p.lanes == map["t" := Step(cfg, NEW_LANE, Register)];
    actions, p := Reach(cfg, actions, p, Ask(ToAdd("t", j)));
    actions, p := Reach(cfg, actions, p, Grant);
    actions, p := Reach(cfg, actions, p, Adds("t", 0, j, at));
  }

  /** A run in which Stop waits for itself, and a buffer whose batch nobody replaced is lost. */
  lemma StuckIsReachable(cfg: Config, j: Job, at: int) returns (actions: seq<Action>, p: Proc)
    ensures Goes(cfg, NEW_PROC, actions) && p == Then(cfg, NEW_PROC, actions) && Stuck(p)
    ensures |p.Of("t").batches| == 1 && p.Of("t").batches[0].buffer == [Item(j, at)] && !WillTake(cfg, p, "t", 0)
  {
    actions, p := ReachBuffered(cfg, j, at);
    actions, p := Reach(cfg, actions, p, StopBegins);
    actions, p := Reach(cfg, actions, p, Ask(ToAdd("t", j)));
    assert "t" in p.stop.todo;
    LostIff(cfg, actions, "t", 0);
  }
}
