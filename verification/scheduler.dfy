/** The single-threaded periodic scheduler of `src/scheduler.cpp`.

    An iteration is two atomic steps, because the task runs with the mutex released: `Tick` reads
    the clock and takes the front task (or sorts and sleeps), `Finish` puts the task back. `Add` may
    come between any two steps. */
module Scheduler {
  import opened Wrappers

  /** A task is known by its identity; a periodic task answers `Run` with itself. */
  datatype Task = Task(id: nat, period: nat)

  datatype Entry = Entry(nextRun: int, task: Task)

  datatype Running = Running(start: nat, task: Task)

  datatype State = State(tasks: seq<Entry>, running: Option<Running>)

  datatype Event = Tick(now: nat) | Finish | Add(task: Task)

  // The epoch of the steady clock: a new task is due at once.
  const EPOCH := 0

  // ----- std::stable_sort by NextRun -----

  function Insert(e: Entry, s: seq<Entry>): seq<Entry> {
    if s == [] || e.nextRun <= s[0].nextRun then [e] + s else [s[0]] + Insert(e, s[1..])
  }

  function StableSort(s: seq<Entry>): seq<Entry> {
    if s == [] then [] else Insert(s[0], StableSort(s[1..]))
  }

  ghost predicate AllAtLeast(t: int, s: seq<Entry>) {
    forall x | x in s :: t <= x.nextRun
  }

  ghost predicate Sorted(s: seq<Entry>) {
    s != [] ==> AllAtLeast(s[0].nextRun, s[1..]) && Sorted(s[1..])
  }

  /** Some `a` stands somewhere in front of some `b`. */
  ghost predicate Before(s: seq<Entry>, a: Entry, b: Entry) {
    s != [] && ((s[0] == a && b in s[1..]) || Before(s[1..], a, b))
  }

  lemma {:induction false} InsertPermutes(e: Entry, s: seq<Entry>)
    ensures multiset(Insert(e, s)) == multiset{e} + multiset(s)
    ensures forall x :: x in Insert(e, s) <==> x == e || x in s
  {
    if s == [] || e.nextRun <= s[0].nextRun {
    } else {
      InsertPermutes(e, s[1..]);
      assert s == [s[0]] + s[1..];
    }
  }

  lemma {:induction false} InsertKeepsOrder(e: Entry, s: seq<Entry>)
    requires Sorted(s)
    ensures Sorted(Insert(e, s))
  {
    if s == [] {
    } else if e.nextRun <= s[0].nextRun {
      assert ([e] + s)[1..] == s;
    } else {
      InsertKeepsOrder(e, s[1..]);
      InsertPermutes(e, s[1..]);
      assert ([s[0]] + Insert(e, s[1..]))[1..] == Insert(e, s[1..]);
    }
  }

  lemma {:induction false} InsertIsStable(e: Entry, s: seq<Entry>, a: Entry, b: Entry)
    requires Sorted(s) && Before(Insert(e, s), a, b)
    ensures Before(s, a, b) || (a == e && b in s && e.nextRun <= b.nextRun) ||
            (b == e && a in s && a.nextRun < e.nextRun)
  {
    if s == [] || e.nextRun <= s[0].nextRun {
      assert ([e] + s)[1..] == s;
    } else {
      var t := Insert(e, s[1..]);
      assert ([s[0]] + t)[1..] == t;
      InsertPermutes(e, s[1..]);
      if Before(t, a, b) {
        InsertIsStable(e, s[1..], a, b);
      }
    }
  }

  /** The promises of std::stable_sort: sorted, a permutation, ... */
  lemma {:induction false} StableSortSorts(s: seq<Entry>)
    ensures Sorted(StableSort(s))
    ensures multiset(StableSort(s)) == multiset(s)
    ensures forall x :: x in StableSort(s) <==> x in s
  {
    if s == [] {
    } else {
      StableSortSorts(s[1..]);
      InsertKeepsOrder(s[0], StableSort(s[1..]));
      InsertPermutes(s[0], StableSort(s[1..]));
      assert s == [s[0]] + s[1..];
    }
  }

  /** ... and an entry overtakes another one only when it is strictly earlier. */
  lemma {:induction false} StableSortIsStable(s: seq<Entry>, a: Entry, b: Entry)
    requires Before(StableSort(s), a, b)
    ensures a.nextRun < b.nextRun || (a.nextRun == b.nextRun && Before(s, a, b))
  {
    if s == [] {
    } else {
      var r := StableSort(s[1..]);
      StableSortSorts(s[1..]);
      InsertIsStable(s[0], r, a, b);
      if Before(r, a, b) {
        StableSortIsStable(s[1..], a, b);
      }
    }
  }

  // ----- the scheduler as a step system -----

  function PeriodicRun(t: Task): seq<Task> {
    [t]
  }

  function Requeued(now: nat, res: seq<Task>): seq<Entry> {
    seq(|res|, i requires 0 <= i < |res| => Entry(now + res[i].period, res[i]))
  }

  ghost predicate Enabled(s: State, e: Event, now: nat) {
    match e
    case Tick(t) => s.running.None? && now <= t
    case Finish => s.running.Some?
    case Add(_) => true
  }

  /** The task that `e` starts, if any. */
  function Started(s: State, e: Event): Option<Task> {
    if e.Tick? && s.tasks != [] && s.tasks[0].nextRun <= e.now then Some(s.tasks[0].task) else None
  }

  function Step(s: State, e: Event): State {
    match e
    case Tick(now) =>
      if s.tasks == [] then s
      else if s.tasks[0].nextRun <= now then State(s.tasks[1..], Some(Running(now, s.tasks[0].task)))
      else State(StableSort(s.tasks), None)
    case Finish =>
      if s.running.None? then s
      else State(s.tasks + Requeued(s.running.value.start, PeriodicRun(s.running.value.task)), None)
    case Add(task) => State([Entry(EPOCH, task)] + s.tasks, s.running)
  }

  function Run(s: State, es: seq<Event>): State
    decreases es
  {
    if es == [] then s else Run(Step(s, es[0]), es[1..])
  }

  function ClockAfter(e: Event, now: nat): nat {
    if e.Tick? then e.now else now
  }

  /** Every step is possible where it stands, and the clock readings never decrease from `now` on. */
  ghost predicate ValidRun(s: State, es: seq<Event>, now: nat)
    decreases es
  {
    es != [] ==> Enabled(s, es[0], now) && ValidRun(Step(s, es[0]), es[1..], ClockAfter(es[0], now))
  }

  function StartTimes(s: State, es: seq<Event>, x: Task): seq<nat>
    decreases es
  {
    if es == [] then []
    else (if Started(s, es[0]) == Some(x) then [es[0].now] else []) + StartTimes(Step(s, es[0]), es[1..], x)
  }

  function Ticks(es: seq<Event>): nat {
    if es == [] then 0 else (if es[0].Tick? then 1 else 0) + Ticks(es[1..])
  }

  function Added(es: seq<Event>): seq<Task> {
    if es == [] then [] else (if es[0].Add? then [es[0].task] else []) + Added(es[1..])
  }

  // ----- conservation -----

  ghost function Waiting(s: seq<Entry>): multiset<Task> {
    if s == [] then multiset{} else multiset{s[0].task} + Waiting(s[1..])
  }

  ghost function AllTasks(s: State): multiset<Task> {
    Waiting(s.tasks) + (if s.running.Some? then multiset{s.running.value.task} else multiset{})
  }

  lemma {:induction false} WaitingConcat(a: seq<Entry>, b: seq<Entry>)
    ensures Waiting(a + b) == Waiting(a) + Waiting(b)
  {
    if a == [] {
      assert a + b == b;
    } else {
      assert (a + b)[1..] == a[1..] + b;
      WaitingConcat(a[1..], b);
    }
  }

  lemma {:induction false} InsertKeepsWaiting(e: Entry, s: seq<Entry>)
    ensures Waiting(Insert(e, s)) == multiset{e.task} + Waiting(s)
  {
    if s == [] || e.nextRun <= s[0].nextRun {
      assert ([e] + s)[1..] == s;
    } else {
      InsertKeepsWaiting(e, s[1..]);
      assert ([s[0]] + Insert(e, s[1..]))[1..] == Insert(e, s[1..]);
    }
  }

  lemma {:induction false} SortKeepsWaiting(s: seq<Entry>)
    ensures Waiting(StableSort(s)) == Waiting(s)
  {
    if s == [] {
    } else {
      SortKeepsWaiting(s[1..]);
      InsertKeepsWaiting(s[0], StableSort(s[1..]));
    }
  }

  lemma RequeuedOne(r: Running)
    ensures Requeued(r.start, PeriodicRun(r.task)) == [Entry(r.start + r.task.period, r.task)]
  {
  }

  lemma FinishConserves(s: seq<Entry>, r: Running)
    ensures Waiting(s + Requeued(r.start, PeriodicRun(r.task))) == Waiting(s) + multiset{r.task}
  {
    var back := Entry(r.start + r.task.period, r.task);
    RequeuedOne(r);
    WaitingConcat(s, [back]);
    assert [back][1..] == [];
    assert Waiting([back]) == multiset{r.task} + Waiting([]);
  }

  lemma StepConserves(s: State, e: Event, now: nat)
    requires Enabled(s, e, now)
    ensures AllTasks(Step(s, e)) == AllTasks(s) + (if e.Add? then multiset{e.task} else multiset{})
  {
    match e
    case Tick(_) =>
      SortKeepsWaiting(s.tasks);
    case Finish =>
      FinishConserves(s.tasks, s.running.value);
    case Add(task) =>
      assert ([Entry(EPOCH, task)] + s.tasks)[1..] == s.tasks;
  }

  /** At every step, also while a task runs and others are added, the waiting tasks and the running
      one are exactly the tasks that were there and those added since. */
  lemma {:induction false} Conservation(s: State, es: seq<Event>, now: nat)
    requires ValidRun(s, es, now)
    ensures AllTasks(Run(s, es)) == AllTasks(s) + multiset(Added(es))
    decreases es
  {
    if es == [] {
    } else {
      StepConserves(s, es[0], now);
      Conservation(Step(s, es[0]), es[1..], ClockAfter(es[0], now));
    }
  }

  // ----- bounded overtaking -----

  /** No task is known to the scheduler twice. */
  ghost predicate Distinct(s: State) {
    forall t :: AllTasks(s)[t] <= 1
  }

  /** Every added task is a new one. */
  ghost predicate FreshAdds(s: State, es: seq<Event>)
    decreases es
  {
    es != [] ==> (es[0].Add? ==> es[0].task !in AllTasks(s)) && FreshAdds(Step(s, es[0]), es[1..])
  }

  /** The waiting entries that may still start before `x`: those in front of it, and those that the
      next sort may put there. */
  ghost function Rivals(s: seq<Entry>, x: Entry): set<Task> {
    set y | y in s && (Before(s, y, x) || y.nextRun < x.nextRun) :: y.task
  }

  lemma {:induction false} WaitingHas(s: seq<Entry>, t: Task)
    ensures t in Waiting(s) <==> exists y :: y in s && y.task == t
  {
    if s == [] {
    } else {
      WaitingHas(s[1..], t);
      assert s[0] in s;
      if t in Waiting(s[1..]) {
        var y :| y in s[1..] && y.task == t;
        assert y in s;
      }
    }
  }

  lemma {:induction false} DistinctEntries(s: seq<Entry>, x: Entry, y: Entry)
    requires forall t :: Waiting(s)[t] <= 1
    requires x in s && y in s && x.task == y.task
    ensures x == y && !Before(s, x, y)
  {
    WaitingHas(s[1..], x.task);
    assert forall t :: Waiting(s)[t] == (if t == s[0].task then 1 else 0) + Waiting(s[1..])[t];
    if x in s[1..] && y in s[1..] {
      DistinctEntries(s[1..], x, y);
    } else if Before(s[1..], x, y) {
      BeforeMember(s[1..], x, y);
    }
  }

  lemma {:induction false} BeforeMember(s: seq<Entry>, a: Entry, b: Entry)
    requires Before(s, a, b)
    ensures a in s && b in s
  {
    if Before(s[1..], a, b) {
      BeforeMember(s[1..], a, b);
    }
  }

  lemma {:induction false} BeforeAppend(s: seq<Entry>, e: Entry, a: Entry, b: Entry)
    requires b != e
    ensures Before(s + [e], a, b) <==> Before(s, a, b)
  {
    if s == [] {
      assert (s + [e])[1..] == [];
    } else {
      assert (s + [e])[1..] == s[1..] + [e];
      BeforeAppend(s[1..], e, a, b);
    }
  }

  lemma {:induction false} WaitingSize(s: seq<Entry>)
    ensures |Waiting(s)| == |s|
  {
    if s != [] {
      WaitingSize(s[1..]);
    }
  }

  lemma RivalsAreOthers(s: seq<Entry>, x: Entry)
    requires x in s && forall t :: Waiting(s)[t] <= 1
    ensures |Rivals(s, x)| < |s|
  {
    var r := Rivals(s, x) + {x.task};
    forall y | y in s && (Before(s, y, x) || y.nextRun < x.nextRun)
      ensures y.task != x.task
    {
      if y.task == x.task {
        DistinctEntries(s, y, x);
      }
    }
    assert x.task !in Rivals(s, x);
    forall t | t in r
      ensures t in Waiting(s)
    {
      WaitingHas(s, t);
    }
    SubsetSize(r, Waiting(s));
    WaitingSize(s);
  }

  lemma {:induction false} SubsetSize(r: set<Task>, m: multiset<Task>)
    requires forall t | t in r :: t in m
    ensures |r| <= |m|
  {
    if r != {} {
      var t :| t in r;
      SubsetSize(r - {t}, m - multiset{t});
    }
  }

  lemma PopRemovesRival(s: seq<Entry>, x: Entry)
    requires s != [] && x in s && x != s[0] && forall t :: Waiting(s)[t] <= 1
    ensures Rivals(s[1..], x) == Rivals(s, x) - {s[0].task}
    ensures s[0].task in Rivals(s, x)
  {
    WaitingHas(s[1..], s[0].task);
    assert Waiting(s)[s[0].task] == 1 + Waiting(s[1..])[s[0].task];
    assert s[0] in s && Before(s, s[0], x);
    forall y | y in s[1..]
      ensures y in s && y.task != s[0].task && (Before(s, y, x) <==> Before(s[1..], y, x))
    {
    }
    forall t | t in Rivals(s, x) - {s[0].task}
      ensures t in Rivals(s[1..], x)
    {
      var y :| y in s && (Before(s, y, x) || y.nextRun < x.nextRun) && y.task == t;
      assert y in s[1..];
    }
  }

  /** A sort happens when the front is not due, and then the front falls behind everything due. */
  lemma SortRemovesRival(s: seq<Entry>, x: Entry)
    requires s != [] && x in s && x.nextRun < s[0].nextRun && forall t :: Waiting(s)[t] <= 1
    ensures x in StableSort(s) && Rivals(StableSort(s), x) <= Rivals(s, x) - {s[0].task}
    ensures s[0].task in Rivals(s, x)
  {
    StableSortSorts(s);
    assert s[0] in s && Before(s, s[0], x);
    forall y | y in StableSort(s) && (Before(StableSort(s), y, x) || y.nextRun < x.nextRun)
      ensures y in s && (Before(s, y, x) || y.nextRun < x.nextRun) && y.task != s[0].task
    {
      if Before(StableSort(s), y, x) {
        StableSortIsStable(s, y, x);
      }
      if y.task == s[0].task {
        DistinctEntries(s, y, s[0]);
      }
    }
  }

  lemma RequeueAddsNoRival(s: seq<Entry>, x: Entry, e: Entry)
    requires x in s && x != e && x.nextRun <= e.nextRun
    ensures Rivals(s + [e], x) <= Rivals(s, x)
  {
    forall y
      ensures Before(s + [e], y, x) <==> Before(s, y, x)
    {
      BeforeAppend(s, e, y, x);
    }
    forall y | Before(s, y, x)
      ensures y in s
    {
      BeforeMember(s, y, x);
    }
  }

  lemma AddAddsOneRival(s: seq<Entry>, x: Entry, t: Task)
    requires x in s && x.task != t
    ensures Rivals([Entry(EPOCH, t)] + s, x) == Rivals(s, x) + {t}
  {
    var s' := [Entry(EPOCH, t)] + s;
    assert s'[1..] == s;
    assert Before(s', s'[0], x);
    assert forall y :: y in s' <==> y == s'[0] || y in s;
    assert forall y :: Before(s', y, x) <==> y == s'[0] || Before(s, y, x);
    assert s'[0] in s';
    forall k | k in Rivals(s, x)
      ensures k in Rivals(s', x)
    {
      var y :| y in s && (Before(s, y, x) || y.nextRun < x.nextRun) && y.task == k;
      assert y in s';
    }
  }

  lemma StepKeepsDistinct(s: State, e: Event, now: nat)
    requires Distinct(s) && Enabled(s, e, now) && (e.Add? ==> e.task !in AllTasks(s))
    ensures Distinct(Step(s, e))
  {
    StepConserves(s, e, now);
  }

  /** `x` waits and is due, and whatever runs was started after `x` became due. */
  ghost predicate Pending(s: State, x: Entry, now: nat) {
    x in s.tasks && x.nextRun <= now && (s.running.Some? ==> x.nextRun <= s.running.value.start)
  }

  /** While the due entry `x` is not started: every tick takes a rival away for good, and only an
      added task becomes one. */
  lemma OvertakingStep(s: State, e: Event, now: nat, x: Entry)
    requires Distinct(s) && Pending(s, x, now)
    requires Enabled(s, e, now) && (e.Add? ==> e.task !in AllTasks(s)) && Started(s, e) != Some(x.task)
    ensures Pending(Step(s, e), x, ClockAfter(e, now))
    ensures |Rivals(Step(s, e).tasks, x)| + (if e.Tick? then 1 else 0) <=
            |Rivals(s.tasks, x)| + (if e.Add? then 1 else 0)
    ensures Rivals(Step(s, e).tasks, x) <= Rivals(s.tasks, x) + (if e.Add? then {e.task} else {})
    ensures Started(s, e).Some? ==> Started(s, e).value in Rivals(s.tasks, x) - Rivals(Step(s, e).tasks, x)
  {
    assert forall t :: Waiting(s.tasks)[t] <= AllTasks(s)[t];
    match e
    case Tick(t) =>
      if s.tasks[0].nextRun <= t {
        PopRemovesRival(s.tasks, x);
      } else {
        SortRemovesRival(s.tasks, x);
        SubsetCard(Rivals(StableSort(s.tasks), x), Rivals(s.tasks, x) - {s.tasks[0].task});
      }
    case Finish =>
      var r := s.running.value;
      RequeuedOne(r);
      WaitingHas(s.tasks, r.task);
      RequeueAddsNoRival(s.tasks, x, Entry(r.start + r.task.period, r.task));
      SubsetCard(Rivals(Step(s, e).tasks, x), Rivals(s.tasks, x));
    case Add(t) =>
      WaitingHas(s.tasks, t);
      AddAddsOneRival(s.tasks, x, t);
  }

  lemma {:induction false} SubsetCard(a: set<Task>, b: set<Task>)
    requires a <= b
    ensures |a| <= |b|
  {
    if a != {} {
      var t :| t in a;
      SubsetCard(a - {t}, b - {t});
    }
  }

  lemma {:induction false} OvertakingTicks(s: State, es: seq<Event>, now: nat, x: Entry)
    requires Distinct(s) && Pending(s, x, now)
    requires ValidRun(s, es, now) && FreshAdds(s, es) && StartTimes(s, es, x.task) == []
    ensures Ticks(es) <= |Rivals(s.tasks, x)| + |Added(es)|
    decreases es
  {
    if es == [] {
    } else {
      OvertakingStep(s, es[0], now, x);
      StepKeepsDistinct(s, es[0], now);
      OvertakingTicks(Step(s, es[0]), es[1..], ClockAfter(es[0], now), x);
    }
  }

  lemma {:induction false} OvertakingStarts(s: State, es: seq<Event>, now: nat, x: Entry, y: Task)
    requires Distinct(s) && Pending(s, x, now) && y != x.task
    requires ValidRun(s, es, now) && FreshAdds(s, es) && StartTimes(s, es, x.task) == []
    ensures |StartTimes(s, es, y)| <= 1
    ensures y in AllTasks(s) && y !in Rivals(s.tasks, x) ==> StartTimes(s, es, y) == []
    decreases es
  {
    if es == [] {
    } else {
      var e, s' := es[0], Step(s, es[0]);
      OvertakingStep(s, e, now, x);
      StepKeepsDistinct(s, e, now);
      StepConserves(s, e, now);
      OvertakingStarts(s', es[1..], ClockAfter(e, now), x, y);
    }
  }

  /** Bounded overtaking. Let `x` be due at a clock reading `now` at which no task runs. In every run
      from there in which `x` has not started yet, every other task has started at most once, and
      with n tasks there have been fewer than n iterations, not counting one for each task added. So
      `x` starts in one of the first n iterations, later by one for each addition. */
  lemma BoundedOvertaking(s: State, es: seq<Event>, now: nat, x: Entry)
    requires Distinct(s) && s.running.None? && x in s.tasks && x.nextRun <= now
    requires ValidRun(s, es, now) && FreshAdds(s, es)
    ensures Ticks(es) >= |s.tasks| + |Added(es)| ==> StartTimes(s, es, x.task) != []
    ensures StartTimes(s, es, x.task) == [] ==> forall y | y != x.task :: |StartTimes(s, es, y)| <= 1
  {
    if StartTimes(s, es, x.task) == [] {
      assert AllTasks(s) == Waiting(s.tasks);
      RivalsAreOthers(s.tasks, x);
      OvertakingTicks(s, es, now, x);
      forall y | y != x.task
        ensures |StartTimes(s, es, y)| <= 1
      {
        OvertakingStarts(s, es, now, x, y);
      }
    }
  }

  /** An added task waits and is due at every clock reading, so the bound holds of it from its addition on. */
  lemma AddedStarts(s: State, t: Task, es: seq<Event>, now: nat)
    requires Distinct(s) && s.running.None? && t !in AllTasks(s)
    requires ValidRun(Step(s, Add(t)), es, now) && FreshAdds(Step(s, Add(t)), es)
    ensures Ticks(es) > |s.tasks| + |Added(es)| ==> StartTimes(Step(s, Add(t)), es, t) != []
  {
    var s', x := Step(s, Add(t)), Entry(EPOCH, t);
    StepKeepsDistinct(s, Add(t), now);
    assert s'.tasks[0] == x && x.nextRun <= now;
    BoundedOvertaking(s', es, now, x);
  }

  /** A task that was started at the reading `t` is due again exactly one period later: it starts within as many
      iterations as there are tasks from the first reading on that is not before. */
  lemma StartsAgain(s: State, es: seq<Event>, now: nat)
    requires Distinct(s) && s.running.Some? && s.running.value.start + s.running.value.task.period <= now
    requires ValidRun(Step(s, Finish), es, now) && FreshAdds(Step(s, Finish), es)
    ensures Entry(s.running.value.start + s.running.value.task.period, s.running.value.task) in Step(s, Finish).tasks
    ensures Ticks(es) > |s.tasks| + |Added(es)| ==> StartTimes(Step(s, Finish), es, s.running.value.task) != []
  {
    var r, s' := s.running.value, Step(s, Finish);
    var x := Entry(r.start + r.task.period, r.task);
    RequeuedOne(r);
    StepKeepsDistinct(s, Finish, now);
    assert s'.tasks == s.tasks + [x] && s'.tasks[|s.tasks|] == x;
    BoundedOvertaking(s', es, now, x);
  }

  // ----- rate -----

  /** The task `x` cannot start before `t`. */
  ghost predicate NotBefore(s: State, x: Task, t: int) {
    && (forall y | y in s.tasks && y.task == x :: t <= y.nextRun)
    && (s.running.Some? && s.running.value.task == x ==> t <= s.running.value.start + x.period)
    && (x in AllTasks(s) || t <= EPOCH)
  }

  ghost predicate Spaced(ts: seq<nat>, gap: nat) {
    forall i, j | 0 <= i < j < |ts| :: ts[i] + (j - i) * gap <= ts[j]
  }

  lemma RateStep(s: State, e: Event, now: nat, x: Task, t: int)
    requires Distinct(s) && NotBefore(s, x, t)
    requires Enabled(s, e, now) && (e.Add? ==> e.task !in AllTasks(s))
    ensures NotBefore(Step(s, e), x, if Started(s, e) == Some(x) then e.now + x.period else t)
    ensures Started(s, e) == Some(x) ==> t <= e.now
  {
    StepConserves(s, e, now);
    match e
    case Tick(u) =>
      StableSortSorts(s.tasks);
      if s.tasks != [] && s.tasks[0].nextRun <= u {
        assert s.tasks[0] in s.tasks;
        WaitingHas(s.tasks[1..], s.tasks[0].task);
        assert AllTasks(s)[s.tasks[0].task] == 1 + Waiting(s.tasks[1..])[s.tasks[0].task];
      }
    case Finish =>
      RequeuedOne(s.running.value);
    case Add(task) =>
  }

  /** Successive starts of one task are at least its period apart, over every run. */
  lemma {:induction false} StartsAreSpaced(s: State, es: seq<Event>, now: nat, x: Task, t: int)
    requires Distinct(s) && NotBefore(s, x, t)
    requires ValidRun(s, es, now) && FreshAdds(s, es)
    ensures Spaced(StartTimes(s, es, x), x.period)
    ensures StartTimes(s, es, x) != [] ==> t <= StartTimes(s, es, x)[0]
    decreases es
  {
    if es == [] {
    } else {
      var e, s' := es[0], Step(s, es[0]);
      RateStep(s, e, now, x, t);
      StepKeepsDistinct(s, e, now);
      var later := StartTimes(s', es[1..], x);
      if Started(s, e) == Some(x) {
        StartsAreSpaced(s', es[1..], ClockAfter(e, now), x, e.now + x.period);
        PrependSpaced(e.now, later, x.period);
      } else {
        StartsAreSpaced(s', es[1..], ClockAfter(e, now), x, t);
        assert StartTimes(s, es, x) == later;
      }
    }
  }

  lemma PrependSpaced(first: nat, later: seq<nat>, gap: nat)
    requires Spaced(later, gap) && (later != [] ==> first + gap <= later[0])
    ensures Spaced([first] + later, gap)
  {
    var ts := [first] + later;
    forall i, j | 0 <= i < j < |ts|
      ensures ts[i] + (j - i) * gap <= ts[j]
    {
      if i > 0 {
        assert later[i - 1] + ((j - 1) - (i - 1)) * gap <= later[j - 1];
      } else if j > 1 {
        assert later[0] + (j - 1 - 0) * gap <= later[j - 1];
        assert j * gap == (j - 1) * gap + gap;
      }
    }
  }

  function CountIn(ts: seq<nat>, from: int, to: int): nat {
    if ts == [] then 0 else (if from <= ts[0] <= to then 1 else 0) + CountIn(ts[1..], from, to)
  }

  /** The last of the readings in a window comes at least a gap after each of the others. */
  lemma {:induction false} SpacedCount(ts: seq<nat>, gap: nat, from: int, to: int)
    requires Spaced(ts, gap)
    ensures CountIn(ts, from, to) > 0 ==>
              (CountIn(ts, from, to) - 1) * gap <= to - (if from <= ts[0] then ts[0] else from)
  {
    if ts != [] {
      var rest := ts[1..];
      forall i, j | 0 <= i < j < |rest|
        ensures rest[i] + (j - i) * gap <= rest[j]
      {
        assert ts[i + 1] + ((j + 1) - (i + 1)) * gap <= ts[j + 1];
      }
      SpacedCount(rest, gap, from, to);
      if rest != [] {
        assert ts[0] + (1 - 0) * gap <= ts[1];
        var n := CountIn(rest, from, to);
        assert n * gap == (n - 1) * gap + gap;
      }
    }
  }

  /** In a window of width W one task of period P starts at most W / P + 1 times. */
  lemma RateInWindow(s: State, es: seq<Event>, now: nat, x: Task, from: int, width: nat)
    requires Distinct(s) && ValidRun(s, es, now) && FreshAdds(s, es)
    ensures x.period > 0 ==> CountIn(StartTimes(s, es, x), from, from + width) <= width / x.period + 1
  {
    var ts := StartTimes(s, es, x);
    StartsAreSpaced(s, es, now, x, Earliest(s, x));
    SpacedCount(ts, x.period, from, from + width);
    var n := CountIn(ts, from, from + width);
    if x.period > 0 && n > 0 {
      QuotientBound(n - 1, x.period, width);
    }
  }

  lemma QuotientBound(n: nat, p: nat, w: nat)
    requires p > 0 && n * p <= w
    ensures n <= w / p
  {
    var q := w / p;
    assert w == q * p + w % p;
    Cancel(n, q + 1, p);
  }

  lemma Cancel(a: int, b: int, p: nat)
    requires a * p < b * p
    ensures a < b
  {
    assert (b - a) * p == b * p - a * p;
    if a >= b {
      NonPositive(b - a, p);
    }
  }

  lemma NonPositive(d: int, p: nat)
    requires d <= 0
    ensures d * p <= 0
  {
  }

  /** A clock reading before which `x` certainly does not start again. */
  ghost function Earliest(s: State, x: Task): (t: int)
    requires Distinct(s)
    ensures NotBefore(s, x, t)
  {
    WaitingHas(s.tasks, x);
    if x !in AllTasks(s) then EPOCH
    else if s.running.Some? && s.running.value.task == x then s.running.value.start + x.period
    else
      var y :| y in s.tasks && y.task == x;
      OneEntryEach(s, y);
      y.nextRun
  }

  lemma OneEntryEach(s: State, y: Entry)
    requires Distinct(s) && y in s.tasks
    ensures forall z | z in s.tasks && z.task == y.task :: z == y
  {
    assert forall t :: Waiting(s.tasks)[t] <= AllTasks(s)[t];
    forall z | z in s.tasks && z.task == y.task
      ensures z == y
    {
      DistinctEntries(s.tasks, z, y);
    }
  }

  // ----- the scheduler object -----

  /** `TSimpleThreadedScheduler`. `running` is the local copy of the task whose `Run` is in progress. */
  class SimpleThreadedScheduler {
    var tasks: seq<Entry>
    ghost var running: Option<Running>

    ghost function Abstract(): State
      reads this
    {
      State(tasks, running)
    }

    constructor ()
      ensures Abstract() == State([], None)
    {
      tasks, running := [], None;
    }

    method AddTask(task: Task)
      modifies this
      ensures Abstract() == Step(old(Abstract()), Add(task))
    {
      tasks := [Entry(EPOCH, task)] + tasks;
    }

    /** One iteration. `meanwhile` are the tasks other threads add while the mutex is released. */
    method MakeIteration(now: nat, meanwhile: seq<Task>)
      requires running.None?
      modifies this
      ensures running.None?
      ensures Abstract() == Run(old(Abstract()), IterationEvents(old(Abstract()), now, meanwhile))
    {
      ghost var s0 := Abstract();
      RunCons(s0, Tick(now), AddEvents(meanwhile) + (if Started(s0, Tick(now)).Some? then [Finish] else []));
      assert AddEvents(meanwhile) + [] == AddEvents(meanwhile);
      if tasks == [] {
        AddMeanwhile(meanwhile);
        return;
      }
      if tasks[0].nextRun <= now {
        var td := tasks[0];
        tasks := tasks[1..];
        running := Some(Running(now, td.task));
        AddMeanwhile(meanwhile);
        ghost var s1 := Abstract();
        var res := PeriodicRun(td.task);
        for i := 0 to |res|
          invariant tasks == s1.tasks + Requeued(now, res)[..i] && running == s1.running
        {
          tasks := tasks + [Entry(now + res[i].period, res[i])];
        }
        running := None;
        assert Requeued(now, res)[..|res|] == Requeued(now, res);
        RunConcat(Step(s0, Tick(now)), AddEvents(meanwhile), [Finish]);
        RunCons(s1, Finish, []);
        return;
      }
      tasks := StableSort(tasks);
      AddMeanwhile(meanwhile);
    }

    method AddMeanwhile(added: seq<Task>)
      modifies this
      ensures Abstract() == Run(old(Abstract()), AddEvents(added)) && running == old(running)
    {
      ghost var s0 := Abstract();
      for i := 0 to |added|
        invariant Abstract() == Run(s0, AddEvents(added[..i])) && running == s0.running
      {
        AddTask(added[i]);
        assert added[..i + 1] == added[..i] + [added[i]];
        AddEventsConcat(added[..i], [added[i]]);
        RunConcat(s0, AddEvents(added[..i]), AddEvents([added[i]]));
        RunCons(Run(s0, AddEvents(added[..i])), Add(added[i]), []);
        assert AddEvents([added[i]]) == [Add(added[i])] + [];
      }
      assert added[..|added|] == added;
    }
  }

  function AddEvents(added: seq<Task>): seq<Event> {
    seq(|added|, i requires 0 <= i < |added| => Add(added[i]))
  }

  function IterationEvents(s: State, now: nat, meanwhile: seq<Task>): seq<Event> {
    [Tick(now)] + (AddEvents(meanwhile) + (if Started(s, Tick(now)).Some? then [Finish] else []))
  }

  lemma AddEventsConcat(a: seq<Task>, b: seq<Task>)
    ensures AddEvents(a + b) == AddEvents(a) + AddEvents(b)
  {
  }

  lemma RunCons(s: State, e: Event, es: seq<Event>)
    ensures Run(s, [e] + es) == Run(Step(s, e), es)
  {
    assert ([e] + es)[1..] == es;
  }

  lemma {:induction false} RunConcat(s: State, a: seq<Event>, b: seq<Event>)
    ensures Run(s, a + b) == Run(Run(s, a), b)
    decreases a
  {
    if a == [] {
      assert a + b == b;
    } else {
      assert (a + b)[1..] == a[1..] + b;
      RunConcat(Step(s, a[0]), a[1..], b);
    }
  }
}
