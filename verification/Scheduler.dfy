/** Recurring schedules: next-run times and the loop that enqueues the jobs that are due. */
module Scheduler {
  import opened Calendar
  import opened Jobs
  import opened MemoryStorage
  import opened Orders
  import opened QueueManager
  import ProtocolPreservation

  datatype Schedule = Schedule(
    id: string, jobType: string, queue: string,
    cronExpr: string, interval: int,
    nextRun: int, lastRun: Option<int>,
    enabled: bool, maxRuns: int, runCount: int)

  // ---- next-run times ----

  function Truncate(t: nat, unit: nat): nat
    requires unit > 0
  {
    t - t % unit
  }

  datatype Keyword = Minutely | Hourly | Daily | Weekly | Monthly

  /** Any other expression is refused. */
  function ParseKeyword(expr: string): Option<Keyword> {
    if expr == "@minutely" then Some(Minutely)
    else if expr == "@hourly" then Some(Hourly)
    else if expr == "@daily" then Some(Daily)
    else if expr == "@weekly" then Some(Weekly)
    else if expr == "@monthly" then Some(Monthly)
    else None
  }

  function NextCron(k: Keyword, from: nat): nat {
    match k
    case Minutely => Truncate(from + MINUTE, MINUTE)
    case Hourly => Truncate(from + HOUR, HOUR)
    case Daily => Midnight(DayOf(from) + 1)
    case Weekly => Midnight(DayOf(from) + 7)
    case Monthly => Midnight(MonthStart(MonthOf(MonthLater(DayOf(from)))))
  }

  /** The period a time lies in: its minute, hour, day or month; the day for the weekly keyword. */
  function Period(k: Keyword, t: nat): nat {
    match k
    case Minutely => t / MINUTE
    case Hourly => t / HOUR
    case Monthly => MonthOf(DayOf(t))
    case _ => DayOf(t)
  }

  /** How many periods the next run lies ahead. */
  function PeriodsAhead(k: Keyword, from: nat): (n: nat)
    ensures n >= 1
  {
    match k
    case Weekly => 7
    case Monthly => if DayOfMonth(DayOf(from)) <= DaysIn(MonthOf(DayOf(from)) + 1) then 1 else 2
    case _ => 1
  }

  lemma NextMinute(t: nat)
    ensures Truncate(t + MINUTE, MINUTE) == (t / MINUTE + 1) * MINUTE
  {
    assert (t + MINUTE) / MINUTE == t / MINUTE + 1;
  }

  lemma NextHour(t: nat)
    ensures Truncate(t + HOUR, HOUR) == (t / HOUR + 1) * HOUR
  {
    assert (t + HOUR) / HOUR == t / HOUR + 1;
  }

  lemma BeforeMidnight(from: nat, day: nat)
    requires DayOf(from) < day
    ensures from < Midnight(day) && DayOf(Midnight(day)) == day && DayOf(Midnight(day) - 1) == day - 1
  {
  }

  /** The midnight that begins a later month. */
  lemma MonthMidnight(from: nat, m: nat, start: nat)
    requires m > MonthOf(DayOf(from)) && start == MonthStart(m)
    ensures from < Midnight(start)
    ensures MonthOf(DayOf(Midnight(start))) == m && MonthOf(DayOf(Midnight(start) - 1)) < m
  {
    LaterMonth(DayOf(from), m);
    BeforeMidnight(from, start);
    MonthBegins(m, start);
  }

  lemma NextMonthly(from: nat)
    ensures from < NextCron(Monthly, from)
    ensures MonthOf(DayOf(NextCron(Monthly, from))) == MonthOf(DayOf(from)) + PeriodsAhead(Monthly, from)
    ensures MonthOf(DayOf(NextCron(Monthly, from) - 1)) < MonthOf(DayOf(NextCron(Monthly, from)))
  {
    MonthLaterSkips(DayOf(from));
    var m := MonthOf(MonthLater(DayOf(from)));
    MonthMidnight(from, m, MonthStart(m));
  }

  /** The next run is the very start of the period that many periods ahead: one, seven days for the
      weekly keyword, and for the monthly one two instead of one exactly when the day of the month
      does not exist in the next month. */
  lemma NextRunPeriod(k: Keyword, from: nat)
    ensures var next := NextCron(k, from);
      && from < next
      && Period(k, next) == Period(k, from) + PeriodsAhead(k, from)
      && Period(k, next - 1) < Period(k, next)
  {
    match k
    case Minutely => NextMinute(from);
    case Hourly => NextHour(from);
    case Monthly => NextMonthly(from);
    case _ =>
  }

  /** Later times lie in later periods or the same one. */
  lemma PeriodsOrdered(k: Keyword, t: nat, u: nat)
    requires t <= u
    ensures Period(k, t) <= Period(k, u)
  {
    if k.Monthly? {
      MonthsOrdered(DayOf(t), DayOf(u));
    }
  }

  // ---- one schedule ----

  /** The next run after one at `now`; None for an expression that does not parse. */
  function NextFrom(s: Schedule, now: nat): Option<int> {
    if s.interval > 0 then Some(now + s.interval)
    else match ParseKeyword(s.cronExpr)
      case Some(k) => Some(NextCron(k, now))
      case None => None
  }

  /** The first of a month, at midnight: of the next one, or of the one after if the next has no such day. */
  ghost predicate MonthlyRun(now: nat, next: int) {
    exists month: nat :: MonthlyFrom(now / 86_400_000_000_000, month, next)
  }

  predicate MonthlyFrom(day: nat, month: nat, next: int) {
    && FirstDay(month) <= day < FirstDay(month + 1)
    && var ahead := if day - FirstDay(month) < FirstDay(month + 2) - FirstDay(month + 1) then 1 else 2;
       next == 86_400_000_000_000 * FirstDay(month + ahead)
  }

  /** The next run after one at `now`, by the plan: the interval on, or by the keyword the start of the
      next minute, hour or day, of the day seven days on, or of a month. */
  lemma NextRunIs(s: Schedule, now: nat)
    ensures s.interval > 0 ==> NextFrom(s, now) == Some(now + s.interval)
    ensures s.interval <= 0 && s.cronExpr == "@minutely" ==>
      NextFrom(s, now) == Some((now / 60_000_000_000 + 1) * 60_000_000_000)
    ensures s.interval <= 0 && s.cronExpr == "@hourly" ==>
      NextFrom(s, now) == Some((now / 3_600_000_000_000 + 1) * 3_600_000_000_000)
    ensures s.interval <= 0 && s.cronExpr == "@daily" ==>
      NextFrom(s, now) == Some((now / 86_400_000_000_000 + 1) * 86_400_000_000_000)
    ensures s.interval <= 0 && s.cronExpr == "@weekly" ==>
      NextFrom(s, now) == Some((now / 86_400_000_000_000 + 7) * 86_400_000_000_000)
    ensures s.interval <= 0 && s.cronExpr == "@monthly" ==>
      NextFrom(s, now).Some? && MonthlyRun(now, NextFrom(s, now).value)
    ensures s.interval <= 0 && s.cronExpr !in {"@minutely", "@hourly", "@daily", "@weekly", "@monthly"} ==>
      NextFrom(s, now) == None
  {
    NextMinute(now);
    NextHour(now);
    if s.interval <= 0 && s.cronExpr == "@monthly" {
      NextMonthIs(now);
    }
  }

  lemma NextMonthIs(now: nat)
    ensures MonthlyRun(now, NextCron(Monthly, now))
  {
    var month, ahead := MonthAhead(now);
    MonthlyByStarts(now / 86_400_000_000_000, month, ahead, NextCron(Monthly, now));
    assert MonthlyFrom(now / 86_400_000_000_000, month, NextCron(Monthly, now));
  }

  /** The month of a time, and how many months ahead the next run is. */
  lemma MonthAhead(now: nat) returns (month: nat, ahead: nat)
    ensures var day := now / 86_400_000_000_000;
      && MonthStart(month) <= day < MonthStart(month + 1)
      && ahead == (if day - MonthStart(month) < MonthStart(month + 2) - MonthStart(month + 1) then 1 else 2)
      && NextCron(Monthly, now) == 86_400_000_000_000 * MonthStart(month + ahead)
  {
    month := MonthOf(DayOf(now));
    ahead := if DayOfMonth(DayOf(now)) <= DaysIn(month + 1) then 1 else 2;
    MonthLaterSkips(DayOf(now));
  }

  lemma MonthlyByStarts(day: nat, month: nat, ahead: nat, next: int)
    requires MonthStart(month) <= day < MonthStart(month + 1)
    requires ahead == if day - MonthStart(month) < MonthStart(month + 2) - MonthStart(month + 1) then 1 else 2
    requires next == 86_400_000_000_000 * MonthStart(month + ahead)
    ensures MonthlyFrom(day, month, next)
  {
    MonthStartIs(month);
    MonthStartIs(month + 1);
    MonthStartIs(month + 2);
  }

  /** In a leap year: a schedule that runs on 5 or on 20 March 2024 runs again on 1 April. */
  lemma MarchOfALeapYear(now: nat)
    requires now / 86_400_000_000_000 == 738_949 || now / 86_400_000_000_000 == 738_964
    ensures NextCron(Monthly, now) == 738_976 * 86_400_000_000_000
  {
    var march := SpringOf2024();
    MonthUnique(DayOf(now), march);
    var month, ahead := MonthAhead(now);
    MonthUnique(DayOf(now), month);
  }

  lemma LeapsTo2024(year: nat)
    requires year == 2023
    ensures LeapDays(year + 1) == 491
  {
  }

  lemma SpringOf2024() returns (march: nat)
    ensures MonthStart(march) == 738_945 && MonthStart(march + 1) == 738_976 && MonthStart(march + 2) == 739_006
  {
    var year: nat :| 2022 < year < 2024;
    march := 12 * year + 2;
    MonthOfYear(year, 2, march);
    MonthOfYear(year, 3, march + 1);
    MonthOfYear(year, 4, march + 2);
    LeapsTo2024(year);
  }

  predicate Exhausted(s: Schedule) {
    s.maxRuns > 0 && s.runCount >= s.maxRuns
  }

  predicate Due(s: Schedule, now: nat) {
    s.enabled && s.nextRun <= now
  }

  predicate Ready(s: Schedule, now: nat) {
    Due(s, now) && !Exhausted(s)
  }

  function Ran(s0: Schedule, now: nat): Schedule {
    var s := s0.(lastRun := Some(now), runCount := s0.runCount + 1);
    if s.interval <= 0 && s.cronExpr == "" then s
    else match NextFrom(s, now)
      case Some(t) => s.(nextRun := t)
      case None => s.(enabled := false)
  }

  /** One pass over a schedule; `stored` says whether its job, if it was due, could be enqueued. */
  function Ticked(s: Schedule, now: nat, stored: bool): Schedule {
    if !Due(s, now) then s
    else if Exhausted(s) then s.(enabled := false)
    else if stored then Ran(s, now) else s
  }

  /** A pass runs a schedule, if its job can be enqueued, exactly when it is enabled, its time has come
      and its runs are not used up; then the run is counted and dated and the next planned.  A schedule
      whose time has come and whose runs are used up is switched off.  Nothing else changes. */
  lemma TickIs(s: Schedule, now: nat, stored: bool)
    ensures var t := Step(s, Tick(now, stored));
      var due, spent := s.enabled && s.nextRun <= now, s.maxRuns > 0 && s.runCount >= s.maxRuns;
      if due && spent then t == s.(enabled := false)
      else if due && stored then
        var next := NextFrom(s, now);
        t == s.(lastRun := Some(now), runCount := s.runCount + 1,
                nextRun := if next.Some? then next.value else s.nextRun,
                enabled := next.Some? || s.cronExpr == "")
      else t == s
  {
  }

  // ---- a schedule's life ----

  datatype Event = Tick(now: nat, stored: bool) | Enable | Disable

  function Step(s: Schedule, e: Event): Schedule {
    match e
    case Tick(now, stored) => Ticked(s, now, stored)
    case Enable => s.(enabled := true)
    case Disable => s.(enabled := false)
  }

  function After(s: Schedule, events: seq<Event>): Schedule {
    if events == [] then s else Step(After(s, events[..|events| - 1]), events[|events| - 1])
  }

  predicate RunsAt(s: Schedule, e: Event) {
    e.Tick? && e.stored && Ready(s, e.now)
  }

  /** When the schedule enqueued a job. */
  function RunTimes(s: Schedule, events: seq<Event>): seq<nat> {
    if events == [] then []
    else
      var before, e := events[..|events| - 1], events[|events| - 1];
      RunTimes(s, before) + if RunsAt(After(s, before), e) then [e.now] else []
  }

  lemma {:induction false} PlanIsFixed(s: Schedule, events: seq<Event>)
    ensures var t := After(s, events);
      t.interval == s.interval && t.cronExpr == s.cronExpr && t.maxRuns == s.maxRuns
  {
    if events != [] {
      PlanIsFixed(s, events[..|events| - 1]);
    }
  }

  /** The jobs enqueued by a schedule are exactly the growth of its run count, and a positive MaxRuns
      that was not exceeded at the start never is, however often the schedule is switched on again. */
  lemma {:induction false} RunsCounted(s: Schedule, events: seq<Event>)
    ensures After(s, events).runCount == s.runCount + |RunTimes(s, events)|
    ensures s.maxRuns > 0 && s.runCount <= s.maxRuns ==> After(s, events).runCount <= s.maxRuns
  {
    if events != [] {
      RunsCounted(s, events[..|events| - 1]);
      PlanIsFixed(s, events[..|events| - 1]);
    }
  }

  predicate Planned(s: Schedule) {
    s.interval > 0 || ParseKeyword(s.cronExpr).Some?
  }

  lemma StepKeepsPlan(s: Schedule, e: Event)
    requires Planned(s)
    ensures Step(s, e).nextRun == if RunsAt(s, e) then NextFrom(s, e.now).value else s.nextRun
  {
  }

  lemma SamePlan(s: Schedule, t: Schedule, now: nat)
    requires s.interval == t.interval && s.cronExpr == t.cronExpr
    ensures NextFrom(s, now) == NextFrom(t, now)
  {
  }

  /** The next run is always the one planned by the last. */
  lemma {:induction false} NextIsPlanned(s: Schedule, events: seq<Event>)
    requires Planned(s)
    ensures var r := RunTimes(s, events);
      After(s, events).nextRun == if r == [] then s.nextRun else NextFrom(s, r[|r| - 1]).value
  {
    if events != [] {
      var before, e := events[..|events| - 1], events[|events| - 1];
      NextIsPlanned(s, before);
      PlanIsFixed(s, before);
      StepKeepsPlan(After(s, before), e);
      if e.Tick? {
        SamePlan(s, After(s, before), e.now);
      }
    }
  }

  /** The last run is the one dated. */
  lemma {:induction false} LastRunIsDated(s: Schedule, events: seq<Event>)
    ensures var r := RunTimes(s, events);
      After(s, events).lastRun == if r == [] then s.lastRun else Some(r[|r| - 1])
  {
    if events != [] {
      var before, e := events[..|events| - 1], events[|events| - 1];
      LastRunIsDated(s, before);
      if e.Tick? {
        TickIs(After(s, before), e.now, e.stored);
      }
    }
  }

  /** No run comes before the one planned by the run before it, the first not before the first plan. */
  lemma {:induction false} RunsKeepPlan(s: Schedule, events: seq<Event>, i: nat)
    requires Planned(s) && i < |RunTimes(s, events)|
    ensures var r := RunTimes(s, events);
      if i == 0 then s.nextRun <= r[0] else NextFrom(s, r[i - 1]).value <= r[i]
  {
    var before := events[..|events| - 1];
    if i < |RunTimes(s, before)| {
      RunsKeepPlan(s, before, i);
    } else {
      NextIsPlanned(s, before);
    }
  }

  /** Runs of an interval schedule lie at least an interval apart, each. */
  lemma {:induction false} IntervalSpacing(s: Schedule, events: seq<Event>, i: nat, k: nat)
    requires s.interval > 0 && i <= k < |RunTimes(s, events)|
    ensures RunTimes(s, events)[k] >= RunTimes(s, events)[i] + (k - i) * s.interval
  {
    if i < k {
      IntervalSpacing(s, events, i, k - 1);
      RunsKeepPlan(s, events, k);
      assert (k - i) * s.interval == (k - 1 - i) * s.interval + s.interval;
    }
  }

  /** No two runs of a cron schedule fall in the same minute, hour, day or month, and weekly runs lie
      seven days apart. */
  lemma {:induction false} CronSpacing(s: Schedule, events: seq<Event>, k: Keyword, i: nat, j: nat)
    requires s.interval <= 0 && ParseKeyword(s.cronExpr) == Some(k) && i <= j < |RunTimes(s, events)|
    ensures var r := RunTimes(s, events);
      Period(k, r[j]) >= Period(k, r[i]) + (j - i) * if k.Weekly? then 7 else 1
  {
    if i < j {
      var r := RunTimes(s, events);
      CronSpacing(s, events, k, i, j - 1);
      RunsKeepPlan(s, events, j);
      NextRunPeriod(k, r[j - 1]);
      PeriodsOrdered(k, NextCron(k, r[j - 1]), r[j]);
    }
  }

  // ---- the scheduler ----

  datatype State = State(mgr: Mgr, schedules: map<string, Schedule>)

  function JobFor(s: Schedule, jobId: string, now: int): Job {
    Job(jobId, s.queue, PRIORITY_NORMAL, Pending, 0, 0, now, "", 0, None, None)
  }

  /** One turn of the loop; `uuid` names the job a schedule would create. */
  function RunOne(st: State, id: string, uuid: string -> string, now: nat): State
    requires id in st.schedules
  {
    var s := st.schedules[id];
    if Ready(s, now) then
      var (m, r) := st.mgr.Enqueue(JobFor(s, uuid(id), now), now);
      State(m, st.schedules[id := Ticked(s, now, r.Ok?)])
    else st.(schedules := st.schedules[id := Ticked(s, now, false)])
  }

  /** The job of a run: a new one, PENDING with the normal priority 5, due at once at the end of the
      schedule's queue, "default" if it names none, with the retries of that queue, three if it has no
      configuration. */
  lemma RunEnqueues(st: State, id: string, uuid: string -> string, now: nat)
    requires ProtocolPreservation.Named(st.mgr) && id in st.schedules && uuid(id) !in st.mgr.store.jobs
    requires var s := st.schedules[id];
      s.enabled && s.nextRun <= now && (s.maxRuns <= 0 || s.runCount < s.maxRuns)
    ensures var s, after := st.schedules[id], RunOne(st, id, uuid, now);
      var q, jobId := if s.queue == "" then "default" else s.queue, uuid(id);
      var retries := if st.mgr.Lookup(q).Some? then st.mgr.Lookup(q).value.maxRetries else 3;
      && after.mgr.store.jobs ==
           st.mgr.store.jobs[jobId := Job(jobId, q, 5, Pending, retries, 0, now, "", 0, None, None)]
      && after.mgr.store.queues ==
           st.mgr.store.queues[q := st.mgr.store.Entries(q) + [Entry(jobId, 5, now)]]
      && after.schedules == st.schedules[id := after.schedules[id]]
      && after.schedules[id].runCount == s.runCount + 1
  {
    var j, due := ProtocolPreservation.EnqueueEffect(st.mgr, JobFor(st.schedules[id], uuid(id), now), now);
  }

  function RunAll(st: State, order: seq<string>, uuid: string -> string, now: nat): (r: State)
    requires Listed(order, st.schedules.Keys)
    ensures r.schedules.Keys == st.schedules.Keys
  {
    if order == [] then st
    else
      assert order[|order| - 1] in st.schedules;
      RunOne(RunAll(st, order[..|order| - 1], uuid, now), order[|order| - 1], uuid, now)
  }

  lemma RunAllThen(st: State, order: seq<string>, id: string, uuid: string -> string, now: nat)
    requires Listed(order, st.schedules.Keys) && id in st.schedules
    ensures Listed(order + [id], st.schedules.Keys)
    ensures RunAll(st, order + [id], uuid, now) == RunOne(RunAll(st, order, uuid, now), id, uuid, now)
  {
    assert (order + [id])[..|order|] == order;
  }

  /** In whatever order a pass visits the schedules, each one visited makes one step of its life and
      every other one stays as it was. */
  lemma {:induction false} PassTicksEachOnce(
      st: State, order: seq<string>, uuid: string -> string, now: nat, id: string)
    requires Listed(order, st.schedules.Keys) && Distinct(order) && id in st.schedules
    ensures var s, after := st.schedules[id], RunAll(st, order, uuid, now).schedules[id];
      if id in order then exists stored :: after == Step(s, Tick(now, stored)) else after == s
  {
    if order != [] {
      var before, last := order[..|order| - 1], order[|order| - 1];
      PassTicksEachOnce(st, before, uuid, now, id);
      assert order == before + [last];
      if id == last {
        var mid := RunAll(st, before, uuid, now);
        var (m, r) := mid.mgr.Enqueue(JobFor(mid.schedules[id], uuid(id), now), now);
        var stored := Ready(mid.schedules[id], now) && r.Ok?;
        assert RunAll(st, order, uuid, now).schedules[id] == Step(st.schedules[id], Tick(now, stored));
      }
    }
  }

  /** The runs counted by all the schedules of an order together. */
  function TotalRuns(schedules: map<string, Schedule>, order: seq<string>): int
    requires Listed(order, schedules.Keys)
  {
    if order == [] then 0
    else TotalRuns(schedules, order[..|order| - 1]) + schedules[order[|order| - 1]].runCount
  }

  lemma {:induction false} TotalRunsFrame(a: map<string, Schedule>, id: string, s: Schedule, order: seq<string>)
    requires Listed(order, a.Keys) && id !in order
    ensures TotalRuns(a[id := s], order) == TotalRuns(a, order)
  {
    if order != [] {
      TotalRunsFrame(a, id, s, order[..|order| - 1]);
    }
  }

  lemma RunOneCounts(st: State, id: string, uuid: string -> string, now: nat)
    requires id in st.schedules
    ensures var after := RunOne(st, id, uuid, now);
      && after.schedules == st.schedules[id := after.schedules[id]]
      && after.mgr.store.created - st.mgr.store.created
           == after.schedules[id].runCount - st.schedules[id].runCount
  {
    var s := st.schedules[id];
    EnqueueCounts(st.mgr, JobFor(s, uuid(id), now), now);
  }

  lemma RegistrationCountsNothing(m: Mgr, name: string)
    ensures m.Ensured(name).0.store == m.store.(configs := m.Ensured(name).0.store.configs)
  {
  }

  lemma EnqueueCounts(m: Mgr, j: Job, now: int)
    ensures var (after, r) := m.Enqueue(j, now);
      after.store.created == m.store.created + if r.Ok? then 1 else 0
  {
    RegistrationCountsNothing(m, if j.queue == "" then "default" else j.queue);
  }

  /** A pass creates exactly as many jobs as the run counts grow by. */
  lemma {:induction false} PassCountsJobs(st: State, order: seq<string>, uuid: string -> string, now: nat)
    requires Listed(order, st.schedules.Keys) && Distinct(order)
    ensures var after := RunAll(st, order, uuid, now);
      after.mgr.store.created - st.mgr.store.created
        == TotalRuns(after.schedules, order) - TotalRuns(st.schedules, order)
  {
    if order != [] {
      var before, last := order[..|order| - 1], order[|order| - 1];
      PassCountsJobs(st, before, uuid, now);
      var mid := RunAll(st, before, uuid, now);
      RunOneCounts(mid, last, uuid, now);
      PassTicksEachOnce(st, before, uuid, now, last);
      TotalRunsFrame(mid.schedules, last, RunOne(mid, last, uuid, now).schedules[last], before);
    }
  }

  datatype AddResult = Added(id: string) | JobTypeRequired | InvalidCron | IntervalOrCronRequired

  /** A schedule as AddSchedule stores it runs at a pass, its job stored, exactly when its first time has come
      and its runs are not used up. */
  lemma AddedRunsFirst(s: Schedule, added: nat, now: nat)
    requires Planned(s)
    ensures var first := NextFrom(s, added).value;
      RunTimes(s.(nextRun := first, enabled := true), [Tick(now, true)]) ==
        if first <= now && (s.maxRuns <= 0 || s.runCount < s.maxRuns) then [now] else []
  {
    var t := s.(nextRun := NextFrom(s, added).value, enabled := true);
    var events := [Tick(now, true)];
    assert events[..0] == [];
    assert RunTimes(t, []) == [];
  }

  class Scheduler {
    const manager: Manager
    var schedules: map<string, Schedule>

    ghost function Now(): State
      reads this, manager, manager.store
    {
      State(manager.State(), schedules)
    }

    constructor (manager: Manager)
      ensures this.manager == manager && schedules == map[]
    {
      this.manager, schedules := manager, map[];
    }

    method AddSchedule(s0: Schedule, uuid: string, now: nat) returns (r: AddResult)
      modifies this
      ensures r.JobTypeRequired? <==> s0.jobType == ""
      ensures r.IntervalOrCronRequired? <==> s0.jobType != "" && s0.interval <= 0 && s0.cronExpr == ""
      ensures r.InvalidCron? <==>
        s0.jobType != "" && s0.interval <= 0
        && s0.cronExpr !in {"", "@minutely", "@hourly", "@daily", "@weekly", "@monthly"}
      ensures r.Added? ==> r.id == if s0.id == "" then uuid else s0.id
      ensures r.Added? ==> Planned(s0)
      ensures schedules == if r.Added?
        then old(schedules)[r.id := s0.(id := r.id, queue := if s0.queue == "" then "default" else s0.queue,
                                        nextRun := NextFrom(s0, now).value, enabled := true)]
        else old(schedules)
    {
      var s := s0;
      if s.id == "" { s := s.(id := uuid); }
      if s.jobType == "" { return JobTypeRequired; }
      if s.queue == "" { s := s.(queue := "default"); }
      if s.interval > 0 {
        s := s.(nextRun := now + s.interval);
      } else if s.cronExpr != "" {
        var k := ParseKeyword(s.cronExpr);
        if k.None? { return InvalidCron; }
        s := s.(nextRun := NextCron(k.value, now));
      } else {
        return IntervalOrCronRequired;
      }
      s := s.(enabled := true);
      schedules := schedules[s.id := s];
      return Added(s.id);
    }

    method RemoveSchedule(id: string) returns (ok: bool)
      modifies this
      ensures ok == (id in old(schedules)) && schedules == old(schedules) - {id}
    {
      if id !in schedules {
        assert schedules - {id} == schedules;
        return false;
      }
      schedules := schedules - {id};
      return true;
    }

    method SetEnabled(id: string, value: bool) returns (ok: bool)
      modifies this
      ensures ok == (id in old(schedules))
      ensures schedules == if ok then old(schedules)[id := old(schedules)[id].(enabled := value)] else old(schedules)
      ensures ok ==> schedules[id] == Step(old(schedules)[id], if value then Enable else Disable)
    {
      if id !in schedules { return false; }
      schedules := schedules[id := schedules[id].(enabled := value)];
      return true;
    }

    /** The loop visits the map in some order, each schedule once. */
    method ProcessDueSchedules(uuid: string -> string, now: nat) returns (ghost order: seq<string>)
      modifies this, manager, manager.store
      ensures IsOrder(order, old(schedules).Keys)
      ensures Listed(order, old(schedules).Keys) && Now() == RunAll(old(Now()), order, uuid, now)
    {
      order := [];
      ghost var keys := schedules.Keys;
      var todo := schedules.Keys;
      assert Now() == RunAll(old(Now()), order, uuid, now);
      while todo != {}
        invariant schedules.Keys == keys && todo <= keys && IsOrder(order, keys - todo)
        invariant Listed(order, keys) && Now() == RunAll(old(Now()), order, uuid, now)
        decreases todo
      {
        var id :| id in todo;
        OrderThen(order, keys - todo, id);
        assert keys - (todo - {id}) == keys - todo + {id};
        todo := todo - {id};
        RunAllThen(old(Now()), order, id, uuid, now);
        ProcessOne(id, uuid, now);
        order := order + [id];
      }
    }

    method ProcessOne(id: string, uuid: string -> string, now: nat)
      requires id in schedules
      modifies this, manager, manager.store
      ensures Now() == RunOne(old(Now()), id, uuid, now)
    {
      var s := schedules[id];
      if !s.enabled || now < s.nextRun {
        assert schedules[id := s] == schedules;
        return;
      }
      if s.maxRuns > 0 && s.runCount >= s.maxRuns {
        schedules := schedules[id := s.(enabled := false)];
        return;
      }
      var enqueued := manager.Enqueue(JobFor(s, uuid(id), now), now);
      if enqueued.Err? {
        assert schedules[id := s] == schedules;
        return;
      }
      s := Advance(s, now);
      schedules := schedules[id := s];
    }

    /** The bookkeeping after a job was enqueued. */
    static method Advance(s0: Schedule, now: nat) returns (s: Schedule)
      ensures s == Ran(s0, now)
    {
      s := s0.(lastRun := Some(now), runCount := s0.runCount + 1);
      if s.interval > 0 {
        s := s.(nextRun := now + s.interval);
      } else if s.cronExpr != "" {
        var k := ParseKeyword(s.cronExpr);
        if k.None? {
          s := s.(enabled := false);
        } else {
          s := s.(nextRun := NextCron(k.value, now));
        }
      }
    }
  }
}
