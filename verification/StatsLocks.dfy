/** The memory backend's read-write lock when the statistics of all queues are asked for: the outer call
    holds it for reading while it reads it again for each queue.  A writer that has asked keeps new
    readers out, so the two can come to wait for each other. */
module StatsLocks {
  /** `todo` gives, for each caller that holds the lock, the queues it has yet to read; `pending` says
      that a writer has asked and waits; `served` counts the calls that got the lock and gave it back. */
  datatype Lock = Lock(todo: map<nat, set<string>>, pending: bool, served: nat)

  const FREE := Lock(map[], false, 0)

  datatype Action =
    | Ask                                 // a writing call asks for the lock
    | Write                               // gets it and gives it back
    | Read                                // a reading call gets it and gives it back
    | Hold(t: nat, queues: set<string>)   // GetQueueStatsAll takes it
    | ReadQueue(t: nat, q: string)        // takes and gives it back for one queue
    | Release(t: nat)                     // gives it back

  predicate Can(l: Lock, a: Action) {
    match a
    case Ask => !l.pending
    case Write => l.pending && l.todo == map[]
    case Read => !l.pending
    case Hold(t, _) => !l.pending && t !in l.todo
    case ReadQueue(t, q) => !l.pending && t in l.todo && q in l.todo[t]
    case Release(t) => t in l.todo && l.todo[t] == {}
  }

  function Next(l: Lock, a: Action): Lock
    requires Can(l, a)
  {
    match a
    case Ask => l.(pending := true)
    case Write => l.(pending := false, served := l.served + 1)
    case Read => l.(served := l.served + 1)
    case Hold(t, queues) => l.(todo := l.todo[t := queues])
    case ReadQueue(t, q) => l.(todo := l.todo[t := l.todo[t] - {q}])
    case Release(t) => l.(todo := l.todo - {t}, served := l.served + 1)
  }

  predicate Goes(l: Lock, actions: seq<Action>)
    decreases |actions|, 0
  {
    actions == []
    || (Goes(l, actions[..|actions| - 1]) && Can(Then(l, actions[..|actions| - 1]), actions[|actions| - 1]))
  }

  function Then(l: Lock, actions: seq<Action>): Lock
    requires Goes(l, actions)
    decreases |actions|, 1
  {
    if actions == [] then l else Next(Then(l, actions[..|actions| - 1]), actions[|actions| - 1])
  }

  lemma ThenOne(l: Lock, actions: seq<Action>, a: Action)
    requires Goes(l, actions) && Can(Then(l, actions), a)
    ensures Goes(l, actions + [a]) && Then(l, actions + [a]) == Next(Then(l, actions), a)
  {
    assert (actions + [a])[..|actions|] == actions;
  }

  /** Some caller that holds the lock has queues left to read. */
  ghost predicate Reading(l: Lock) {
    exists t :: t in l.todo && l.todo[t] != {}
  }

  ghost predicate Stuck(l: Lock) {
    l.pending && Reading(l)
  }

  /** A writer asked while such a caller was reading. */
  ghost predicate AskedInTime(actions: seq<Action>)
    requires Goes(FREE, actions)
  {
    actions != []
    && var before, a := actions[..|actions| - 1], actions[|actions| - 1];
       AskedInTime(before) || (a.Ask? && Reading(Then(FREE, before)))
  }

  lemma StuckStays(l: Lock, a: Action)
    requires Can(l, a) && (Stuck(l) || !(a.Ask? && Reading(l)))
    ensures Stuck(Next(l, a)) <==> Stuck(l)
  {
    if Stuck(l) {
      var t :| t in l.todo && l.todo[t] != {};
      assert t in Next(l, a).todo && Next(l, a).todo[t] != {};
    }
  }

  /** In every run the lock is stuck if and only if a write was asked for while a caller of
      GetQueueStatsAll had queues left to read. */
  lemma {:induction false} StuckIff(actions: seq<Action>)
    requires Goes(FREE, actions)
    ensures Stuck(Then(FREE, actions)) <==> AskedInTime(actions)
  {
    if actions != [] {
      var before, a := actions[..|actions| - 1], actions[|actions| - 1];
      StuckIff(before);
      var l := Then(FREE, before);
      if !Stuck(l) && a.Ask? && Reading(l) {
        var t :| t in l.todo && l.todo[t] != {};
        assert t in Next(l, a).todo;
      } else {
        StuckStays(l, a);
      }
    }
  }

  /** And then no call of the store is served again, in any continuation, but for the callers of
      GetQueueStatsAll that have nothing left to read. */
  lemma {:induction false} StuckForever(l: Lock, actions: seq<Action>)
    requires Stuck(l) && Goes(l, actions)
    ensures Stuck(Then(l, actions)) && Then(l, actions).todo.Keys <= l.todo.Keys
    ensures Then(l, actions).served + |Then(l, actions).todo| == l.served + |l.todo|
    ensures forall t :: t in Then(l, actions).todo ==> Then(l, actions).todo[t] == l.todo[t]
  {
    if actions != [] {
      var before, a := actions[..|actions| - 1], actions[|actions| - 1];
      StuckForever(l, before);
      StuckStays(Then(l, before), a);
      StuckReleases(Then(l, before), a);
    }
  }

  lemma StuckReleases(l: Lock, a: Action)
    requires Stuck(l) && Can(l, a)
    ensures a.Release? && Next(l, a).served + |Next(l, a).todo| == l.served + |l.todo|
  {
    var t :| t in l.todo && l.todo[t] != {};
    assert l.todo != map[];
    if a.Release? {
      assert l.todo.Keys == (l.todo - {a.t}).Keys + {a.t};
    }
  }

  /** One caller and one write suffice. */
  lemma StuckIsReachable(q: string) returns (actions: seq<Action>)
    ensures Goes(FREE, actions) && Stuck(Then(FREE, actions))
  {
    ThenOne(FREE, [], Hold(0, {q}));
    actions := [] + [Hold(0, {q})];
    assert 0 in Then(FREE, actions).todo && q in Then(FREE, actions).todo[0];
    ThenOne(FREE, actions, Ask);
    actions := actions + [Ask];
    assert 0 in Then(FREE, actions).todo;
  }
}
