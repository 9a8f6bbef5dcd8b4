/** The publish/worker queue and its shutdown by sentinels. */
module Workers {

  /** A queued task, told apart by its place in the publishing order, or the sentinel. */
  datatype Item = Task(n: nat) | Sentinel

  datatype Worker = Getting | Busy(item: Item) | Exited

  /** A capacity of 0 or less is no bound. published, taken (by whom), gets and dones are history. */
  datatype State = State(
    capacity: int,
    queue: seq<Item>,
    workers: seq<Worker>,
    stopping: bool,
    sentinels: nat,
    unfinished: nat,
    published: nat,
    taken: seq<(nat, nat)>,
    gets: nat,
    dones: nat)

  ghost predicate Init(s: State) {
    && s.queue == [] && s.published == 0 && s.taken == [] && !s.stopping
    && s.sentinels == s.unfinished == s.gets == s.dones == 0
    && forall w :: 0 <= w < |s.workers| ==> s.workers[w] == Getting
  }

  datatype Action = Publish | Stop | PutSentinel | Get(w: nat) | TaskDone(w: nat)

  predicate HasRoom(s: State) {
    s.capacity <= 0 || |s.queue| < s.capacity
  }

  predicate Enabled(s: State, a: Action) {
    match a
    case Publish => HasRoom(s)
    case Stop => !s.stopping
    case PutSentinel => s.stopping && s.sentinels < |s.workers| && HasRoom(s)
    case Get(w) => w < |s.workers| && s.workers[w].Getting? && s.queue != []
    case TaskDone(w) => w < |s.workers| && s.workers[w].Busy? && s.unfinished > 0
  }

  function Do(s: State, a: Action): State
    requires Enabled(s, a)
  {
    match a
    case Publish =>
      s.(queue := s.queue + [Task(s.published)], published := s.published + 1, unfinished := s.unfinished + 1)
    case Stop => s.(stopping := true)
    case PutSentinel =>
      s.(queue := s.queue + [Sentinel], sentinels := s.sentinels + 1, unfinished := s.unfinished + 1)
    case Get(w) =>
      s.(queue := s.queue[1..], workers := s.workers[w := Busy(s.queue[0])], gets := s.gets + 1,
         taken := if s.queue[0].Task? then s.taken + [(w, s.queue[0].n)] else s.taken)
    case TaskDone(w) =>
      s.(workers := s.workers[w := if s.workers[w].item.Task? then Getting else Exited],
         unfinished := s.unfinished - 1, dones := s.dones + 1)
  }

  /** The workers that have taken their sentinel. */
  function Stopped(s: State): set<nat> {
    set w | 0 <= w < |s.workers| && (s.workers[w] == Busy(Sentinel) || s.workers[w] == Exited)
  }

  function BusyWorkers(s: State): set<nat> {
    set w | 0 <= w < |s.workers| && s.workers[w].Busy?
  }

  function TasksIn(queue: seq<Item>): seq<nat> {
    if queue == [] then []
    else (if queue[0].Task? then [queue[0].n] else []) + TasksIn(queue[1..])
  }

  function SentinelsIn(queue: seq<Item>): nat {
    if queue == [] then 0 else (if queue[0] == Sentinel then 1 else 0) + SentinelsIn(queue[1..])
  }

  lemma {:induction false} CountsSnoc(queue: seq<Item>, item: Item)
    ensures TasksIn(queue + [item]) == TasksIn(queue) + if item.Task? then [item.n] else []
    ensures SentinelsIn(queue + [item]) == SentinelsIn(queue) + if item == Sentinel then 1 else 0
  {
    if queue == [] {
      assert queue + [item] == [item];
    } else {
      assert (queue + [item])[1..] == queue[1..] + [item];
      CountsSnoc(queue[1..], item);
    }
  }

  lemma {:induction false} CountsTotal(queue: seq<Item>)
    ensures |TasksIn(queue)| + SentinelsIn(queue) == |queue|
    ensures SentinelsIn(queue) == 0 ==> forall i :: 0 <= i < |queue| ==> queue[i] != Sentinel
  {
    if queue != [] {
      CountsTotal(queue[1..]);
    }
  }

  /** What has been taken and what is queued are the published tasks, in order. */
  ghost predicate TasksInOrder(s: State) {
    && (forall i :: 0 <= i < |s.taken| ==> s.taken[i].1 == i && s.taken[i].0 < |s.workers|)
    && Numbered(TasksIn(s.queue), |s.taken|, s.published)
  }

  ghost predicate Numbered(tasks: seq<nat>, from: nat, upto: nat) {
    from + |tasks| == upto && forall i :: 0 <= i < |tasks| ==> tasks[i] == from + i
  }

  lemma NumberedHead(queue: seq<Item>, from: nat, upto: nat)
    requires queue != [] && Numbered(TasksIn(queue), from, upto)
    ensures queue[0].Task? ==> queue[0].n == from && Numbered(TasksIn(queue[1..]), from + 1, upto)
    ensures queue[0] == Sentinel ==> Numbered(TasksIn(queue[1..]), from, upto)
  {
    var tasks, rest := TasksIn(queue), TasksIn(queue[1..]);
    if queue[0].Task? {
      assert tasks == [queue[0].n] + rest;
      assert tasks[0] == from;
      forall i | 0 <= i < |rest| ensures rest[i] == from + 1 + i {
        assert rest[i] == tasks[i + 1];
      }
    } else {
      assert tasks == rest;
    }
  }

  ghost predicate Accounts(s: State) {
    && s.unfinished == |s.queue| + |BusyWorkers(s)|
    && s.gets == s.dones + |BusyWorkers(s)|
    && s.gets == |s.taken| + |Stopped(s)|
    && SentinelsIn(s.queue) + |Stopped(s)| == s.sentinels <= |s.workers|
    && (!s.stopping ==> s.sentinels == 0)
  }

  ghost predicate Inv(s: State) {
    TasksInOrder(s) && Accounts(s)
  }

  lemma WorkerSets(s: State, a: Action)
    requires Enabled(s, a)
    ensures Stopped(Do(s, a)) == if a.Get? && s.queue[0] == Sentinel then Stopped(s) + {a.w} else Stopped(s)
    ensures BusyWorkers(Do(s, a)) ==
            if a.Get? then BusyWorkers(s) + {a.w} else if a.TaskDone? then BusyWorkers(s) - {a.w} else BusyWorkers(s)
    ensures a.Get? ==> a.w !in Stopped(s) && a.w !in BusyWorkers(s)
    ensures a.TaskDone? ==> a.w in BusyWorkers(s)
  {
  }

  lemma OrderKept(s: State, a: Action)
    requires TasksInOrder(s) && Enabled(s, a)
    ensures TasksInOrder(Do(s, a))
  {
    if a.Publish? {
      CountsSnoc(s.queue, Task(s.published));
    } else if a.PutSentinel? {
      CountsSnoc(s.queue, Sentinel);
    } else if a.Get? {
      NumberedHead(s.queue, |s.taken|, s.published);
    }
  }

  lemma InvKept(s: State, a: Action)
    requires Inv(s) && Enabled(s, a)
    ensures Inv(Do(s, a)) && |Do(s, a).workers| == |s.workers| && Do(s, a).capacity == s.capacity
  {
    WorkerSets(s, a);
    OrderKept(s, a);
    if a.Publish? {
      CountsSnoc(s.queue, Task(s.published));
    } else if a.PutSentinel? {
      CountsSnoc(s.queue, Sentinel);
    }
  }

  // ---- every run

  ghost predicate Legal(s: State, run: seq<Action>)
    decreases |run|, 0
  {
    run == [] || (Legal(s, run[..|run| - 1]) && Enabled(Exec(s, run[..|run| - 1]), run[|run| - 1]))
  }

  ghost function Exec(s: State, run: seq<Action>): State
    requires Legal(s, run)
    decreases |run|, 1
  {
    if run == [] then s else Do(Exec(s, run[..|run| - 1]), run[|run| - 1])
  }

  lemma {:induction false} InvHolds(s: State, run: seq<Action>)
    requires Init(s) && Legal(s, run)
    ensures Inv(Exec(s, run)) && |Exec(s, run).workers| == |s.workers| && Exec(s, run).capacity == s.capacity
    decreases |run|
  {
    if run == [] {
      assert Stopped(s) == {} && BusyWorkers(s) == {};
    } else {
      InvHolds(s, run[..|run| - 1]);
      InvKept(Exec(s, run[..|run| - 1]), run[|run| - 1]);
    }
  }

  // ---- tasks published late

  /** How many tasks a run publishes when every worker's sentinel is already queued or taken. */
  ghost function Late(s: State, run: seq<Action>): nat
    requires Legal(s, run)
  {
    if run == [] then 0
    else
      var n := |run| - 1;
      var t := Exec(s, run[..n]);
      Late(s, run[..n]) + if run[n].Publish? && t.sentinels == |t.workers| then 1 else 0
  }

  /** The late tasks are the queue's end, behind the last sentinel if one is left. */
  ghost predicate LateTail(s: State, late: nat) {
    && (s.sentinels < |s.workers| ==> late == 0)
    && (s.sentinels == |s.workers| ==>
          && late <= |s.queue| && (forall i :: |s.queue| - late <= i < |s.queue| ==> s.queue[i].Task?)
          && (late < |s.queue| ==> s.queue[|s.queue| - late - 1] == Sentinel))
  }

  /** While a worker can get something and all sentinels are put, one of them is still in the queue. */
  lemma SentinelLeft(s: State, w: nat)
    requires Inv(s) && Enabled(s, Get(w)) && s.sentinels == |s.workers|
    ensures SentinelsIn(s.queue) > 0
  {
    var all := Numbers(|s.workers|);
    assert Stopped(s) <= all - {w};
    SubsetSmaller(Stopped(s), all - {w});
  }

  lemma {:induction false} SentinelSomewhere(queue: seq<Item>)
    requires SentinelsIn(queue) > 0
    ensures exists i :: 0 <= i < |queue| && queue[i] == Sentinel
  {
    if queue[0] != Sentinel {
      SentinelSomewhere(queue[1..]);
      var i :| 0 <= i < |queue[1..]| && queue[1..][i] == Sentinel;
      assert queue[i + 1] == Sentinel;
    }
  }

  lemma LateTailKept(s: State, a: Action, late: nat)
    requires Inv(s) && Enabled(s, a) && LateTail(s, late)
    ensures LateTail(Do(s, a), late + if a.Publish? && s.sentinels == |s.workers| then 1 else 0)
  {
    if a.Get? && s.sentinels == |s.workers| {
      SentinelLeft(s, a.w);
      SentinelSomewhere(s.queue);
    }
  }

  lemma {:induction false} LateTailHolds(s: State, run: seq<Action>)
    requires Init(s) && Legal(s, run)
    ensures LateTail(Exec(s, run), Late(s, run))
    decreases |run|
  {
    if run != [] {
      var n := |run| - 1;
      LateTailHolds(s, run[..n]);
      InvHolds(s, run[..n]);
      LateTailKept(Exec(s, run[..n]), run[n], Late(s, run[..n]));
    }
  }

  /** Exactly what a shutdown loses: when the last worker has exited, the tasks left in the queue are the ones published
      after the last sentinel was put, and all others were taken, so all are taken if and only if none was that late. */
  lemma ShutdownExactly(s: State, run: seq<Action>)
    requires Init(s) && Legal(s, run)
    requires forall w :: 0 <= w < |Exec(s, run).workers| ==> Exec(s, run).workers[w] == Exited
    ensures var t := Exec(s, run);
            && |t.queue| == Late(s, run) && |t.taken| + Late(s, run) == t.published
            && (|t.taken| == t.published <==> Late(s, run) == 0)
            && t.sentinels == |s.workers| && t.unfinished == Late(s, run) && t.gets == t.dones == |t.taken| + |s.workers|
  {
    InvHolds(s, run);
    LateTailHolds(s, run);
    var t := Exec(s, run);
    StoppedAll(t);
    assert BusyWorkers(t) == {};
    CountsTotal(t.queue);
  }

  // ---- nothing published after stop

  /** Nothing is published after stop. */
  ghost predicate OnTime(s: State, run: seq<Action>)
    requires Legal(s, run)
  {
    run == [] ||
    var n := |run| - 1;
    OnTime(s, run[..n]) && (run[n].Publish? ==> !Exec(s, run[..n]).stopping)
  }

  lemma {:induction false} OnTimeIsNotLate(s: State, run: seq<Action>)
    requires Init(s) && Legal(s, run) && OnTime(s, run) && |s.workers| > 0
    ensures Late(s, run) == 0
    decreases |run|
  {
    if run != [] {
      OnTimeIsNotLate(s, run[..|run| - 1]);
      InvHolds(s, run[..|run| - 1]);
    }
  }

  /** A sentinel has only sentinels behind it, and no worker has one while a task is queued. */
  ghost predicate SentinelsLast(s: State) {
    && (forall i, j :: 0 <= i < j < |s.queue| && s.queue[i] == Sentinel ==> s.queue[j] == Sentinel)
    && (Stopped(s) != {} ==> forall i :: 0 <= i < |s.queue| ==> s.queue[i] == Sentinel)
    && (!s.stopping ==> Stopped(s) == {} && forall i :: 0 <= i < |s.queue| ==> s.queue[i] != Sentinel)
  }

  lemma {:induction false} SentinelsLastHolds(s: State, run: seq<Action>)
    requires Init(s) && Legal(s, run) && OnTime(s, run)
    ensures SentinelsLast(Exec(s, run))
    decreases |run|
  {
    if run == [] {
      assert Stopped(s) == {};
    } else {
      var n := |run| - 1;
      SentinelsLastHolds(s, run[..n]);
      WorkerSets(Exec(s, run[..n]), run[n]);
    }
  }

  lemma {:induction false} NoTasks(queue: seq<Item>)
    requires forall i :: 0 <= i < |queue| ==> queue[i] == Sentinel
    ensures TasksIn(queue) == []
  {
    if queue != [] {
      NoTasks(queue[1..]);
    }
  }

  /** In every run tasks are taken in the order they were published, each by one worker, and none is skipped. With nothing
      published after stop all have been taken once any worker has its sentinel. */
  lemma TasksTakenOnce(s: State, run: seq<Action>)
    requires Init(s) && Legal(s, run)
    ensures var t := Exec(s, run);
            && (forall i :: 0 <= i < |t.taken| ==> t.taken[i].1 == i && t.taken[i].0 < |s.workers|)
            && |t.taken| <= t.published
            && (OnTime(s, run) && Stopped(t) != {} ==> |t.taken| == t.published)
  {
    InvHolds(s, run);
    if OnTime(s, run) && Stopped(Exec(s, run)) != {} {
      SentinelsLastHolds(s, run);
      NoTasks(Exec(s, run).queue);
    }
  }

  /** The numbers of n workers. */
  function Numbers(n: nat): (r: set<nat>)
    ensures forall w: nat :: w in r <==> w < n
    ensures |r| == n
  {
    if n == 0 then {} else Numbers(n - 1) + {n - 1}
  }

  lemma StoppedAll(s: State)
    requires forall w :: 0 <= w < |s.workers| ==> s.workers[w] == Exited
    ensures |Stopped(s)| == |s.workers|
  {
    forall w: nat | w < |s.workers| ensures w in Stopped(s) {
      assert s.workers[w] == Exited;
    }
    assert Stopped(s) == Numbers(|s.workers|);
  }

  /** With nothing published after stop a shutdown loses nothing: when the last worker has exited, every task was taken,
      every sentinel was put and taken by its own worker, the queue is empty, and each get has had its task_done. */
  lemma ShutdownComplete(s: State, run: seq<Action>)
    requires Init(s) && Legal(s, run) && OnTime(s, run) && |s.workers| > 0
    requires forall w :: 0 <= w < |Exec(s, run).workers| ==> Exec(s, run).workers[w] == Exited
    ensures var t := Exec(s, run);
            && |t.taken| == t.published && t.queue == [] && t.sentinels == |s.workers|
            && t.unfinished == 0 && t.gets == t.dones == t.published + |s.workers|
  {
    ShutdownExactly(s, run);
    OnTimeIsNotLate(s, run);
  }

  /** The work left once publishing has ended. */
  function Left(s: State): int {
    3 * (|s.workers| - s.sentinels) + 2 * |s.queue| + |BusyWorkers(s)|
  }

  /** Shutdown cannot get stuck or go on for ever: until all have exited something can be done, and it leaves less to do. */
  lemma ShutdownProgresses(s: State, run: seq<Action>)
    requires Init(s) && Legal(s, run) && Exec(s, run).stopping
    ensures var t := Exec(s, run);
            && Left(t) >= 0
            && (forall a :: Enabled(t, a) && !a.Publish? ==> Left(Do(t, a)) < Left(t))
            && ((exists a :: Enabled(t, a) && !a.Publish?) || forall w :: 0 <= w < |t.workers| ==> t.workers[w] == Exited)
  {
    InvHolds(s, run);
    var t := Exec(s, run);
    forall a | Enabled(t, a) && !a.Publish? ensures Left(Do(t, a)) < Left(t) {
      WorkerSets(t, a);
    }
    if w :| 0 <= w < |t.workers| && t.workers[w] != Exited {
      SomethingEnabled(t, w);
    }
  }

  lemma SomethingEnabled(t: State, w: nat)
    requires Inv(t) && t.stopping && w < |t.workers| && t.workers[w] != Exited
    ensures exists a :: Enabled(t, a) && !a.Publish?
  {
    if t.workers[w].Busy? {
      assert w in BusyWorkers(t);
      assert Enabled(t, TaskDone(w));
    } else if t.queue != [] {
      assert Enabled(t, Get(w));
    } else if t.sentinels < |t.workers| {
      assert Enabled(t, PutSentinel);
    } else {
      var all := Numbers(|t.workers|);
      assert Stopped(t) <= all - {w};
      SubsetSmaller(Stopped(t), all - {w});
      assert false;
    }
  }

  lemma {:induction false} SubsetSmaller(a: set<nat>, b: set<nat>)
    requires a <= b
    ensures |a| <= |b|
  {
    if a != {} {
      var x :| x in a;
      SubsetSmaller(a - {x}, b - {x});
    }
  }

  /** A run that loses a task: with one worker, a task published after it took its sentinel stays in the queue. */
  lemma LateTaskLost(s: State)
    requires Init(s) && |s.workers| == 1
    ensures exists t :: Reaches(s, t) && t.workers == [Exited] && t.published == 1 && t.taken == [] && t.queue == [Task(0)]
  {
    ReachesSelf(s);
    var s1 := Do(s, Stop);
    ReachesTo(s, s, Stop, s1);
    var s2 := Do(s1, PutSentinel);
    ReachesTo(s, s1, PutSentinel, s2);
    var s3 := Do(s2, Get(0));
    ReachesTo(s, s2, Get(0), s3);
    var s4 := Do(s3, Publish);
    ReachesTo(s, s3, Publish, s4);
    var s5 := Do(s4, TaskDone(0));
    ReachesTo(s, s4, TaskDone(0), s5);
    assert s5.workers == [Exited] && s5.queue == [Task(0)];
  }

  // ---- the worker object, one coroutine at a time

  ghost predicate Reaches(s: State, t: State) {
    exists run :: Legal(s, run) && Exec(s, run) == t
  }

  lemma ReachesSelf(s: State)
    ensures Reaches(s, s)
  {
    assert Legal(s, []) && Exec(s, []) == s;
  }

  lemma ReachesTo(s: State, t: State, a: Action, u: State)
    requires Reaches(s, t) && Enabled(t, a) && u == Do(t, a)
    ensures Reaches(s, u)
  {
    var run :| Legal(s, run) && Exec(s, run) == t;
    var more := run + [a];
    assert more[..|more| - 1] == run;
    assert Legal(s, more) && Exec(s, more) == u;
  }

  /** The place of the first sentinel, or the length. */
  function FirstSentinel(queue: seq<Item>): (r: nat)
    ensures r <= |queue| && (r < |queue| ==> queue[r] == Sentinel)
    ensures forall i :: 0 <= i < r ==> queue[i] != Sentinel
  {
    if queue == [] || queue[0] == Sentinel then 0 else 1 + FirstSentinel(queue[1..])
  }

  function Sentinels(n: nat): seq<Item> {
    seq(n, i => Sentinel)
  }

  class PubSubWorker {
    const capacity: int
    var queue: seq<Item>
    var workers: seq<Worker>
    var subscribers: map<nat, seq<nat>>
    var unfinished: nat
    var published: nat
    ghost var stopping: bool
    ghost var sentinels: nat
    ghost var taken: seq<(nat, nat)>
    ghost var gets: nat
    ghost var dones: nat

    ghost function Now(): State
      reads this
    {
      State(capacity, queue, workers, stopping, sentinels, unfinished, published, taken, gets, dones)
    }

    constructor (capacity: int, count: nat)
      ensures Init(Now()) && this.capacity == capacity && |workers| == count && subscribers == map[]
    {
      this.capacity := capacity;
      queue, workers, subscribers, unfinished, published := [], seq(count, i => Getting), map[], 0, 0;
      stopping, sentinels, taken, gets, dones := false, 0, [], 0, 0;
    }

    /** A handler is registered once, however often it subscribes. */
    method Subscribe(event: nat, fn: nat)
      modifies this`subscribers
      ensures subscribers.Keys == old(subscribers).Keys + {event} && fn in subscribers[event]
      ensures forall e :: e in old(subscribers) && e != event ==> subscribers[e] == old(subscribers)[e]
      ensures var before := if event in old(subscribers) then old(subscribers)[event] else [];
              subscribers[event] == if fn in before then before else before + [fn]
    {
      var list := if event in subscribers then subscribers[event] else [];
      if fn !in list {
        list := list + [fn];
      }
      subscribers := subscribers[event := list];
    }

    /** put_nowait: accepted exactly when the queue has room. */
    method PublishTask() returns (accepted: bool)
      modifies this
      ensures accepted <==> capacity <= 0 || |old(queue)| < capacity
      ensures accepted ==> queue == old(queue) + [Task(old(published))] && Reaches(old(Now()), Now())
      ensures !accepted ==> Now() == old(Now())
      ensures subscribers == old(subscribers)
    {
      if capacity > 0 && |queue| >= capacity {
        return false;
      }
      ReachesSelf(Now());
      ReachesTo(Now(), Now(), Publish, Do(Now(), Publish));
      queue := queue + [Task(published)];
      published, unfinished := published + 1, unfinished + 1;
      return true;
    }

    /** stop: one sentinel for each worker, as far as there is room; then the next put waits for the workers. */
    method SendSentinels() returns (sent: nat)
      requires !stopping && sentinels == 0
      modifies this
      ensures Reaches(old(Now()), Now())
      ensures sent <= |workers| && (sent < |workers| ==> !HasRoom(Now()))
      ensures queue == old(queue) + Sentinels(sent) && workers == old(workers)
      ensures unfinished == old(unfinished) + sent && sentinels == sent && stopping
    {
      ghost var before := Now();
      ReachesSelf(before);
      ReachesTo(before, before, Stop, Do(before, Stop));
      stopping := true;
      sent := 0;
      while sent < |workers| && (capacity <= 0 || |queue| < capacity)
        invariant workers == old(workers) && stopping && sentinels == sent <= |workers|
        invariant queue == old(queue) + Sentinels(sent) && unfinished == old(unfinished) + sent
        invariant Reaches(before, Now())
      {
        ghost var t := Now();
        queue := queue + [Sentinel];
        unfinished, sentinels, sent := unfinished + 1, sentinels + 1, sent + 1;
        ReachesTo(before, t, PutSentinel, Now());
      }
    }

    /** One round of the worker's loop. */
    method TakeOne(w: nat) returns (item: Item)
      requires w < |workers| && workers[w] == Getting && queue != [] && unfinished > 0
      modifies this
      ensures item == old(queue)[0] && queue == old(queue)[1..]
      ensures workers == old(workers)[w := if item == Sentinel then Exited else Getting]
      ensures unfinished == old(unfinished) - 1 && gets == old(gets) + 1 && dones == old(dones) + 1
      ensures taken == if item.Task? then old(taken) + [(w, item.n)] else old(taken)
      ensures Enabled(old(Now()), Get(w)) && Enabled(Do(old(Now()), Get(w)), TaskDone(w))
      ensures Now() == Do(Do(old(Now()), Get(w)), TaskDone(w))
    {
      item := queue[0];
      queue, workers, gets := queue[1..], workers[w := Busy(item)], gets + 1;
      if item.Task? {
        taken := taken + [(w, item.n)];
      }
      workers := workers[w := if item == Sentinel then Exited else Getting];
      unfinished, dones := unfinished - 1, dones + 1;
    }

    /** The worker's loop until it would wait for an item or has its sentinel: it takes every task before the first
        sentinel, and every get has its task_done. */
    method WorkerLoop(w: nat) returns (exited: bool)
      requires w < |workers| && workers[w] == Getting && unfinished >= |queue|
      modifies this
      ensures Reaches(old(Now()), Now())
      ensures exited <==> Sentinel in old(queue)
      ensures var n := FirstSentinel(old(queue)); var got := if exited then n + 1 else n;
              && queue == old(queue)[got..] && unfinished == old(unfinished) - got
              && gets == old(gets) + got && dones == old(dones) + got && |taken| == |old(taken)| + n
      ensures workers == old(workers)[w := if exited then Exited else Getting]
    {
      ghost var before, n := Now(), FirstSentinel(queue);
      ghost var k: nat := 0;
      ReachesSelf(before);
      exited := false;
      while queue != [] && !exited
        invariant Reaches(before, Now())
        invariant k <= |old(queue)| && queue == old(queue)[k..] && unfinished == old(unfinished) - k
        invariant gets == old(gets) + k && dones == old(dones) + k
        invariant k == if exited then n + 1 else |taken| - |old(taken)|
        invariant k <= n + 1 && (k == n + 1 ==> exited)
        invariant exited ==> n < |old(queue)| && |taken| == |old(taken)| + n
        invariant workers == old(workers)[w := if exited then Exited else Getting]
        decreases |queue|
      {
        ghost var s := Now();
        var item := TakeOne(w);
        ReachesTo(before, s, Get(w), Do(s, Get(w)));
        ReachesTo(before, Do(s, Get(w)), TaskDone(w), Now());
        k, exited := k + 1, item == Sentinel;
      }
    }
  }
}
