/** The bounded task queue of base/ThreadPool.cc as a monitor: any number of threads, two
    condition variables, spurious wake-ups. One event is one pass through a critical section,
    which the mutex makes atomic. */
module ThreadPools {

  import opened Common

  type Tid = nat
  type Task = nat

  /** A condition variable: the threads asleep on it, and those woken but not yet back in the
      critical section. */
  datatype Cond = Cond(asleep: set<Tid>, woken: set<Tid>) {
    predicate Ok() { asleep !! woken }

    /** `pthread_cond_signal` wakes at least one sleeper when there is one. */
    predicate MayWake(ws: set<Tid>) { ws <= asleep && (asleep != {} ==> ws != {}) }

    function Notified(ws: set<Tid>): Cond { Cond(asleep - ws, woken + ws) }

    function Slept(t: Tid): Cond { Cond(asleep + {t}, woken - {t}) }

    function Back(t: Tid): Cond { Cond(asleep, woken - {t}) }
  }

  /** `user` holds the threads in their own code (a task, for a worker), from where they may add
      tasks; `idle` the workers about to take one; `pending` what a blocked producer adds;
      `added` and `taken` record the tasks that entered and left the queue. */
  datatype Pool = Pool(
    workers: set<Tid>, idle: set<Tid>, user: set<Tid>, canTake: Cond, canAdd: Cond,
    pending: map<Tid, Task>, tasks: seq<Task>, maxQueue: nat, started: bool,
    added: seq<Task>, taken: seq<Task>)
  {
    predicate IsFull() { |tasks| >= maxQueue }
  }

  /** After `start`, which creates the threads `workers`; `others` are all other threads. */
  function Started(workers: set<Tid>, others: set<Tid>): Pool {
    Pool(workers, workers, others, Cond({}, {}), Cond({}, {}), map[], [], |workers| * 100, true, [], [])
  }

  datatype Event =
    | Add(t: Tid, task: Task, wake: set<Tid>)
    | ResumeAdd(t: Tid, wake: set<Tid>)
    | Take(t: Tid, wake: set<Tid>)
    | ResumeTake(t: Tid, wake: set<Tid>)
    | TaskDone(t: Tid)
    | Exit(t: Tid)
    | SpuriousTake(t: Tid)
    | SpuriousAdd(t: Tid)
    | Stop

  /** One pass of the loop in `add_task`, by a thread that holds the mutex. */
  function AddPass(s: Pool, t: Tid, task: Task, wake: set<Tid>): Pool {
    if s.IsFull() then
      s.(user := s.user - {t}, canAdd := s.canAdd.Slept(t), pending := s.pending[t := task])
    else
      s.(user := s.user + {t}, canAdd := s.canAdd.Back(t), tasks := s.tasks + [task],
         added := s.added + [task], canTake := s.canTake.Notified(wake))
  }

  /** One pass of the loop in `take`. */
  function TakePass(s: Pool, t: Tid, wake: set<Tid>): Pool {
    if s.tasks == [] && s.started then
      s.(idle := s.idle - {t}, canTake := s.canTake.Slept(t))
    else if s.tasks != [] then
      s.(idle := s.idle - {t}, user := s.user + {t}, canTake := s.canTake.Back(t),
         tasks := s.tasks[1..], taken := s.taken + [s.tasks[0]],
         canAdd := if |s.tasks| - 1 < s.maxQueue then s.canAdd.Notified(wake) else s.canAdd)
    else
      s.(idle := s.idle + {t}, canTake := s.canTake.Back(t))
  }

  predicate Legal(s: Pool, e: Event) {
    match e
    case Add(t, _, wake) => t in s.user && s.canTake.MayWake(wake)
    case ResumeAdd(t, wake) => t in s.canAdd.woken && t in s.pending && s.canTake.MayWake(wake)
    case Take(t, wake) => t in s.idle && s.canAdd.MayWake(wake)
    case ResumeTake(t, wake) => t in s.canTake.woken && s.canAdd.MayWake(wake)
    case TaskDone(t) => t in s.user && t in s.workers
    case Exit(t) => t in s.idle && !s.started
    case SpuriousTake(t) => t in s.canTake.asleep
    case SpuriousAdd(t) => t in s.canAdd.asleep
    case Stop => true
  }

  function Next(s: Pool, e: Event): Pool
    requires Legal(s, e)
  {
    match e
    case Add(t, task, wake) => AddPass(s, t, task, wake)
    case ResumeAdd(t, wake) => AddPass(s, t, s.pending[t], wake)
    case Take(t, wake) => TakePass(s, t, wake)
    case ResumeTake(t, wake) => TakePass(s, t, wake)
    case TaskDone(t) => s.(user := s.user - {t}, idle := s.idle + {t})
    case Exit(t) => s.(idle := s.idle - {t})
    case SpuriousTake(t) => s.(canTake := s.canTake.Notified({t}))
    case SpuriousAdd(t) => s.(canAdd := s.canAdd.Notified({t}))
    case Stop => s.(started := false, canTake := s.canTake.Notified(s.canTake.asleep))
  }

  ghost predicate LegalRun(s: Pool, es: seq<Event>)
    decreases |es|
  {
    es == [] || (Legal(s, es[0]) && LegalRun(Next(s, es[0]), es[1..]))
  }

  ghost function Run(s: Pool, es: seq<Event>): Pool
    requires LegalRun(s, es)
    decreases |es|
  {
    if es == [] then s else Run(Next(s, es[0]), es[1..])
  }

  // ----- no lost wake-up -----

  ghost predicate Somewhere(s: Pool, t: Tid) {
    || t in s.idle || t in s.user || t in s.canTake.asleep || t in s.canTake.woken
    || t in s.canAdd.asleep || t in s.canAdd.woken
  }

  /** No worker of a started pool is lost, only workers wait for tasks, and a blocked producer
      still has its task. */
  ghost predicate Threads(s: Pool) {
    && s.canTake.Ok() && s.canAdd.Ok()
    && s.canAdd.asleep <= s.pending.Keys && s.canAdd.woken <= s.pending.Keys
    && s.idle <= s.workers && s.canTake.asleep <= s.workers && s.canTake.woken <= s.workers
    && (s.started ==> forall t :: t in s.workers ==> Somewhere(s, t))
  }

  /** The counting argument: while some worker sleeps unsignalled, as many are already on their
      way as there are tasks; while some producer does, as many as there are free slots. */
  ghost predicate Counts(s: Pool) {
    && (s.canTake.asleep != {} ==> |s.canTake.woken| >= |s.tasks|)
    && (s.canAdd.asleep != {} ==> |s.canAdd.woken| >= s.maxQueue - |s.tasks|)
    && (!s.started ==> s.canTake.asleep == {})
  }

  ghost predicate Queue(s: Pool) {
    |s.tasks| <= s.maxQueue && s.taken + s.tasks == s.added
  }

  /** A thread is in one place at a time. */
  predicate Apart(s: Pool) {
    && s.idle !! s.user !! s.canTake.asleep !! s.canTake.woken !! s.canAdd.asleep !! s.canAdd.woken
  }

  /** Workers enter `add_task` only with a task taken, so they are all in there only while the
      queue is full. */
  predicate AllAddingMeansFull(s: Pool) {
    s.workers <= s.canAdd.asleep + s.canAdd.woken ==> s.IsFull()
  }

  ghost predicate Core(s: Pool) { Threads(s) && Counts(s) && Queue(s) }

  ghost predicate Inv(s: Pool) { Core(s) && Apart(s) && AllAddingMeansFull(s) }

  lemma WokenAfterNotify(c: Cond, ws: set<Tid>)
    requires c.Ok() && c.MayWake(ws)
    ensures c.Notified(ws).Ok()
    ensures |c.Notified(ws).woken| == |c.woken| + |ws|
    ensures c.asleep != {} ==> |ws| >= 1
  {
    assert ws !! c.woken;
    if c.asleep != {} {
      var w :| w in ws;
      assert |ws - {w}| >= 0;
    }
  }

  lemma WokenAfterBack(c: Cond, t: Tid)
    requires c.Ok()
    ensures |c.Back(t).woken| == |c.woken| - (if t in c.woken then 1 else 0)
  {
    if t !in c.woken {
      assert c.Back(t).woken == c.woken;
    }
  }

  lemma AddPassCounts(s: Pool, t: Tid, task: Task, wake: set<Tid>)
    requires s.canTake.Ok() && s.canAdd.Ok() && Counts(s)
    requires s.canTake.MayWake(wake)
    ensures var n := AddPass(s, t, task, wake);
            n.canTake.Ok() && n.canAdd.Ok() && Counts(n)
  {
    WokenAfterBack(s.canAdd, t);
    WokenAfterNotify(s.canTake, wake);
  }

  lemma TakePassCounts(s: Pool, t: Tid, wake: set<Tid>)
    requires s.canTake.Ok() && s.canAdd.Ok() && Counts(s)
    requires s.canAdd.MayWake(wake) && |s.tasks| <= s.maxQueue
    ensures var n := TakePass(s, t, wake);
            n.canTake.Ok() && n.canAdd.Ok() && Counts(n)
  {
    WokenAfterBack(s.canTake, t);
    WokenAfterNotify(s.canAdd, wake);
  }

  lemma AddPassThreads(s: Pool, t: Tid, task: Task, wake: set<Tid>)
    requires Threads(s) && s.canTake.MayWake(wake)
    ensures Threads(AddPass(s, t, task, wake))
  {
    var n := AddPass(s, t, task, wake);
    forall w | s.started && w in s.workers
      ensures Somewhere(n, w)
    {
      assert Somewhere(s, w);
    }
  }

  lemma TakePassThreads(s: Pool, t: Tid, wake: set<Tid>)
    requires Threads(s) && s.canAdd.MayWake(wake) && t in s.workers
    ensures Threads(TakePass(s, t, wake))
  {
    var n := TakePass(s, t, wake);
    forall w | s.started && w in s.workers
      ensures Somewhere(n, w)
    {
      assert Somewhere(s, w);
    }
  }

  lemma OtherThreads(s: Pool, e: Event)
    requires Threads(s) && Legal(s, e) && !e.Add? && !e.ResumeAdd? && !e.Take? && !e.ResumeTake?
    ensures Threads(Next(s, e))
  {
    var n := Next(s, e);
    forall w | n.started && w in s.workers
      ensures Somewhere(n, w)
    {
      assert Somewhere(s, w);
    }
  }

  lemma PassQueue(s: Pool, t: Tid, task: Task, wake: set<Tid>)
    requires Queue(s)
    ensures Queue(AddPass(s, t, task, wake)) && Queue(TakePass(s, t, wake))
  {
    assert (s.taken + s.tasks) + [task] == s.taken + (s.tasks + [task]);
    if s.tasks != [] {
      assert (s.taken + [s.tasks[0]]) + s.tasks[1..] == s.taken + s.tasks;
    }
  }

  lemma AddPassKeeps(s: Pool, t: Tid, task: Task, wake: set<Tid>)
    requires Core(s) && s.canTake.MayWake(wake)
    ensures Core(AddPass(s, t, task, wake))
  {
    AddPassCounts(s, t, task, wake);
    AddPassThreads(s, t, task, wake);
    PassQueue(s, t, task, wake);
  }

  lemma TakePassKeeps(s: Pool, t: Tid, wake: set<Tid>)
    requires Core(s) && s.canAdd.MayWake(wake) && t in s.workers
    ensures Core(TakePass(s, t, wake))
  {
    TakePassCounts(s, t, wake);
    TakePassThreads(s, t, wake);
    PassQueue(s, t, 0, wake);
  }

  lemma OtherCounts(s: Pool, e: Event)
    requires Core(s) && Legal(s, e) && !e.Add? && !e.ResumeAdd? && !e.Take? && !e.ResumeTake?
    ensures Counts(Next(s, e)) && Queue(Next(s, e))
  {
    match e
    case SpuriousTake(t) => WokenAfterNotify(s.canTake, {t});
    case SpuriousAdd(t) => WokenAfterNotify(s.canAdd, {t});
    case _ =>
  }

  lemma AddPassApart(s: Pool, t: Tid, task: Task, wake: set<Tid>)
    requires Apart(s) && s.canTake.MayWake(wake) && (t in s.user || t in s.canAdd.woken)
    ensures Apart(AddPass(s, t, task, wake))
  {
  }

  lemma TakePassApart(s: Pool, t: Tid, wake: set<Tid>)
    requires Apart(s) && s.canAdd.MayWake(wake) && (t in s.idle || t in s.canTake.woken)
    ensures Apart(TakePass(s, t, wake))
  {
  }

  lemma NextApart(s: Pool, e: Event)
    requires Apart(s) && Legal(s, e)
    ensures Apart(Next(s, e))
  {
    match e
    case Add(t, task, wake) => AddPassApart(s, t, task, wake);
    case ResumeAdd(t, wake) => AddPassApart(s, t, s.pending[t], wake);
    case Take(t, wake) => TakePassApart(s, t, wake);
    case ResumeTake(t, wake) => TakePassApart(s, t, wake);
    case _ =>
  }

  lemma AddPassFull(s: Pool, t: Tid, task: Task, wake: set<Tid>)
    requires AllAddingMeansFull(s)
    ensures AllAddingMeansFull(AddPass(s, t, task, wake))
  {
    var n := AddPass(s, t, task, wake);
    assert !s.IsFull() ==> n.canAdd.asleep + n.canAdd.woken <= s.canAdd.asleep + s.canAdd.woken;
  }

  lemma TakePassFull(s: Pool, t: Tid, wake: set<Tid>)
    requires Apart(s) && s.canAdd.MayWake(wake) && t in s.workers && (t in s.idle || t in s.canTake.woken)
    ensures AllAddingMeansFull(TakePass(s, t, wake))
  {
    var n := TakePass(s, t, wake);
    assert t !in n.canAdd.asleep + n.canAdd.woken;
  }

  lemma NextFull(s: Pool, e: Event)
    requires Threads(s) && Apart(s) && AllAddingMeansFull(s) && Legal(s, e)
    ensures AllAddingMeansFull(Next(s, e))
  {
    match e
    case Add(t, task, wake) => AddPassFull(s, t, task, wake);
    case ResumeAdd(t, wake) => AddPassFull(s, t, s.pending[t], wake);
    case Take(t, wake) => TakePassFull(s, t, wake);
    case ResumeTake(t, wake) => TakePassFull(s, t, wake);
    case SpuriousAdd(t) =>
      var n := Next(s, e);
      assert n.canAdd.asleep + n.canAdd.woken == s.canAdd.asleep + s.canAdd.woken;
    case _ =>
  }

  lemma NextKeeps(s: Pool, e: Event)
    requires Inv(s) && Legal(s, e)
    ensures Inv(Next(s, e))
  {
    NextApart(s, e);
    NextFull(s, e);
    match e
    case Add(t, task, wake) => AddPassKeeps(s, t, task, wake);
    case ResumeAdd(t, wake) => AddPassKeeps(s, t, s.pending[t], wake);
    case Take(t, wake) => TakePassKeeps(s, t, wake);
    case ResumeTake(t, wake) => TakePassKeeps(s, t, wake);
    case _ =>
      OtherThreads(s, e);
      OtherCounts(s, e);
  }

  lemma {:induction false} RunKeeps(s: Pool, es: seq<Event>)
    requires Inv(s) && LegalRun(s, es)
    ensures Inv(Run(s, es))
    decreases |es|
  {
    if es != [] {
      var n := Next(s, es[0]);
      NextKeeps(s, es[0]);
      RunKeeps(n, es[1..]);
      assert Run(s, es) == Run(n, es[1..]);
    }
  }

  lemma {:induction false} RunFrame(s: Pool, es: seq<Event>)
    requires LegalRun(s, es)
    ensures Run(s, es).maxQueue == s.maxQueue && Run(s, es).workers == s.workers
    decreases |es|
  {
    if es != [] {
      RunFrame(Next(s, es[0]), es[1..]);
    }
  }

  ghost predicate IsRun(workers: set<Tid>, others: set<Tid>, es: seq<Event>, s: Pool) {
    && workers != {} && workers !! others
    && LegalRun(Started(workers, others), es)
    && s == Run(Started(workers, others), es)
  }

  /** Every state a pool started with at least one worker can reach. */
  ghost predicate Reachable(s: Pool) {
    exists workers, others, es :: IsRun(workers, others, es, s)
  }

  lemma ReachableInv(s: Pool)
    requires Reachable(s)
    ensures Inv(s) && s.maxQueue == 100 * |s.workers| && s.maxQueue >= 100 && s.workers != {}
  {
    var workers, others, es :| IsRun(workers, others, es, s);
    var w :| w in workers;
    assert |workers - {w}| == |workers| - 1;
    RunKeeps(Started(workers, others), es);
    RunFrame(Started(workers, others), es);
  }

  /** One waiter per `notify` is enough: a sleeping, unsignalled worker means at least as many
      signalled ones as queued tasks, and likewise for producers and free slots. */
  lemma NoLostWakeup(s: Pool)
    requires Reachable(s)
    ensures s.canTake.asleep != {} ==> |s.canTake.woken| >= |s.tasks|
    ensures s.canAdd.asleep != {} ==> |s.canAdd.woken| >= s.maxQueue - |s.tasks|
  {
    ReachableInv(s);
  }

  /** Workers are never all asleep with work queued, and no producer sleeps with room free
      unless one has been signalled. */
  lemma NeverAllAsleep(s: Pool)
    requires Reachable(s)
    ensures s.workers <= s.canTake.asleep ==> s.tasks == []
    ensures s.canAdd.asleep != {} && s.canAdd.woken == {} ==> s.IsFull()
  {
    ReachableInv(s);
    if s.workers <= s.canTake.asleep {
      assert s.canTake.woken == {};
    }
  }

  /** Tasks leave the queue in the order they entered, none lost or doubled, and the queue never
      holds more than `m_max_queue`. */
  lemma TasksConserved(s: Pool)
    requires Reachable(s)
    ensures s.taken + s.tasks == s.added && |s.tasks| <= s.maxQueue
  {
    ReachableInv(s);
  }

  /** `stop` leaves no worker asleep in `take`, now or later. */
  lemma StopWakesEveryWorker(s: Pool)
    requires Reachable(s) && !s.started
    ensures s.canTake.asleep == {}
  {
    ReachableInv(s);
  }

  /** After `stop` every worker outside `add_task` can leave the pool once the queue is empty: it
      is never put to sleep again. */
  lemma StoppedWorkersLeave(s: Pool, t: Tid)
    requires Reachable(s)
    ensures !Next(s, Stop).started
    ensures !s.started && s.tasks == [] && t in s.idle ==> Legal(s, Exit(t)) && t !in Next(s, Exit(t)).idle
    ensures !s.started && s.tasks == [] && t in s.canTake.woken ==>
              var e := ResumeTake(t, s.canAdd.asleep); Legal(s, e) && t in Next(s, e).idle
    ensures !s.started && t in s.user && t in s.workers ==> t in Next(s, TaskDone(t)).idle
  {
    ReachableInv(s);
  }

  /** No step starts a stopped pool again. */
  lemma StoppedForGood(s: Pool, e: Event)
    requires Legal(s, e) && !s.started
    ensures !Next(s, e).started
  {
  }

  predicate AddedSince(added: seq<Task>, from: nat, task: Task) {
    exists i :: from <= i < |added| && added[i] == task
  }

  /** A producer is blocked with its task, or the task has entered the queue since. */
  ghost predicate KeepsTask(s: Pool, t: Tid, task: Task, from: nat) {
    || ((t in s.canAdd.asleep || t in s.canAdd.woken) && t in s.pending && s.pending[t] == task)
    || AddedSince(s.added, from, task)
  }

  lemma AddedStays(added: seq<Task>, more: Task, from: nat, task: Task)
    requires from <= |added|
    ensures AddedSince(added, from, task) ==> AddedSince(added + [more], from, task)
    ensures AddedSince(added + [more], from, more)
  {
    if AddedSince(added, from, task) {
      var i :| from <= i < |added| && added[i] == task;
      assert (added + [more])[i] == task;
    }
    assert (added + [more])[|added|] == more;
  }

  lemma KeepsTaskAdd(s: Pool, u: Tid, x: Task, wake: set<Tid>, t: Tid, task: Task, from: nat)
    requires KeepsTask(s, t, task, from) && from <= |s.added|
    requires u in s.user || (u in s.canAdd.woken && u in s.pending && s.pending[u] == x)
    requires s.user !! s.canAdd.asleep && s.user !! s.canAdd.woken && s.canAdd.asleep !! s.canAdd.woken
    ensures KeepsTask(AddPass(s, u, x, wake), t, task, from) && from <= |AddPass(s, u, x, wake).added|
  {
    AddedStays(s.added, x, from, task);
  }

  lemma KeepsTaskStep(s: Pool, e: Event, t: Tid, task: Task, from: nat)
    requires Apart(s) && Legal(s, e) && KeepsTask(s, t, task, from) && from <= |s.added|
    ensures KeepsTask(Next(s, e), t, task, from) && from <= |Next(s, e).added|
  {
    match e
    case Add(u, x, wake) => KeepsTaskAdd(s, u, x, wake, t, task, from);
    case ResumeAdd(u, wake) => KeepsTaskAdd(s, u, s.pending[u], wake, t, task, from);
    case _ =>
  }

  lemma {:induction false} KeepsTaskRun(s: Pool, es: seq<Event>, t: Tid, task: Task, from: nat)
    requires Inv(s) && LegalRun(s, es) && KeepsTask(s, t, task, from) && from <= |s.added|
    ensures KeepsTask(Run(s, es), t, task, from)
    decreases |es|
  {
    if es != [] {
      var n := Next(s, es[0]);
      NextKeeps(s, es[0]);
      KeepsTaskStep(s, es[0], t, task, from);
      KeepsTaskRun(n, es[1..], t, task, from);
      assert Run(s, es) == Run(n, es[1..]);
    }
  }

  /** A task that is added, even if its producer has to wait, is in the queue's history or still
      with its producer, over every run; no other task takes its place. */
  lemma AddedTaskIsKept(s: Pool, t: Tid, task: Task, wake: set<Tid>, es: seq<Event>)
    requires Reachable(s) && Legal(s, Add(t, task, wake)) && LegalRun(Next(s, Add(t, task, wake)), es)
    ensures KeepsTask(Run(Next(s, Add(t, task, wake)), es), t, task, |s.added|)
  {
    ReachableInv(s);
    var n := Next(s, Add(t, task, wake));
    NextKeeps(s, Add(t, task, wake));
    AddedStays(s.added, task, |s.added|, task);
    KeepsTaskRun(n, es, t, task, |s.added|);
  }

  ghost predicate Stuck(s: Pool) {
    s.idle == {} && s.user == {} && s.canTake.woken == {} && s.canAdd.woken == {}
  }

  /** When no thread can move, either the pool is empty and every worker waits for work, or the
      queue is full and every worker is itself blocked in `add_task`. */
  lemma StuckMeansIdleOrSelfBlocked(s: Pool)
    requires Reachable(s) && s.started && Stuck(s)
    ensures (s.tasks == [] && s.canAdd.asleep == {} && s.workers == s.canTake.asleep)
            != (s.IsFull() && s.canTake.asleep == {} && s.workers <= s.canAdd.asleep)
  {
    ReachableInv(s);
    if s.canTake.asleep == {} {
      assert s.workers <= s.canAdd.asleep;
    } else {
      assert s.tasks == [];
      assert s.canAdd.asleep == {};
    }
  }

  // ----- when a started pool still takes tasks -----

  /** The queue is full and every worker is inside `add_task`, asleep or just woken. */
  predicate SelfBlocked(s: Pool) {
    s.IsFull() && s.workers <= s.canAdd.asleep + s.canAdd.woken
  }

  /** Some run from here takes a task out of the queue. */
  ghost predicate CanTake(s: Pool) {
    exists es :: LegalRun(s, es) && Run(s, es).taken != s.taken
  }

  /** What the workers do by themselves: no `stop`, no help from producers, no spurious wake-up. */
  predicate ByWorker(e: Event) { e.Take? || e.ResumeTake? || e.TaskDone? }

  /** The workers by themselves can take a task out of the queue. */
  ghost predicate WorkersTake(s: Pool) {
    exists es :: LegalRun(s, es) && (forall i :: 0 <= i < |es| ==> ByWorker(es[i])) && Run(s, es).taken != s.taken
  }

  lemma SelfBlockedStays(s: Pool, e: Event)
    requires Inv(s) && Legal(s, e) && SelfBlocked(s)
    ensures SelfBlocked(Next(s, e))
    ensures Next(s, e).taken == s.taken && Next(s, e).tasks == s.tasks
  {
    forall t | t in s.workers
      ensures t !in s.user && t !in s.idle && t !in s.canTake.woken
    {
      assert t in s.canAdd.asleep + s.canAdd.woken;
    }
  }

  /** A self-blocked pool stays so on every run, spurious wake-ups, other producers and `stop`
      included, and takes no task any more. */
  lemma {:induction false} SelfBlockedForever(s: Pool, es: seq<Event>)
    requires Inv(s) && SelfBlocked(s) && LegalRun(s, es)
    ensures SelfBlocked(Run(s, es)) && Run(s, es).taken == s.taken && Run(s, es).tasks == s.tasks
    decreases |es|
  {
    if es != [] {
      SelfBlockedStays(s, es[0]);
      NextKeeps(s, es[0]);
      SelfBlockedForever(Next(s, es[0]), es[1..]);
    }
  }

  lemma RunCons(s: Pool, e: Event, rest: seq<Event>)
    requires Legal(s, e) && LegalRun(Next(s, e), rest)
    ensures LegalRun(s, [e] + rest) && Run(s, [e] + rest) == Run(Next(s, e), rest)
  {
    assert ([e] + rest)[0] == e && ([e] + rest)[1..] == rest;
  }

  lemma TakesNow(s: Pool, e: Event)
    requires Legal(s, e) && ByWorker(e) && Next(s, e).taken != s.taken
    ensures WorkersTake(s)
  {
    var none: seq<Event> := [];
    assert LegalRun(Next(s, e), none) && Run(Next(s, e), none) == Next(s, e);
    RunCons(s, e, none);
    assert forall i :: 0 <= i < |[e] + none| ==> ByWorker(([e] + none)[i]);
  }

  lemma IdleTakes(s: Pool, t: Tid)
    requires t in s.idle && s.tasks != []
    ensures WorkersTake(s)
  {
    TakesNow(s, Take(t, s.canAdd.asleep));
  }

  lemma WokenTakes(s: Pool, t: Tid)
    requires t in s.canTake.woken && s.tasks != []
    ensures WorkersTake(s)
  {
    TakesNow(s, ResumeTake(t, s.canAdd.asleep));
  }

  lemma BusyTakes(s: Pool, t: Tid)
    requires t in s.user && t in s.workers && s.tasks != []
    ensures WorkersTake(s)
  {
    var e := TaskDone(t);
    var n := Next(s, e);
    IdleTakes(n, t);
    var es :| LegalRun(n, es) && (forall i :: 0 <= i < |es| ==> ByWorker(es[i])) && Run(n, es).taken != n.taken;
    RunCons(s, e, es);
    assert forall i :: 0 <= i < |[e] + es| ==> ByWorker(([e] + es)[i]);
  }

  /** A worker that is not inside `add_task` gets a task taken: by itself or, when it sleeps, by
      the signalled worker that the counting argument provides. */
  lemma WorkerTakes(s: Pool, t: Tid)
    requires Inv(s) && t in s.workers && Somewhere(s, t) && s.tasks != []
    requires t !in s.canAdd.asleep && t !in s.canAdd.woken
    ensures WorkersTake(s)
  {
    if t in s.idle {
      IdleTakes(s, t);
    } else if t in s.user {
      BusyTakes(s, t);
    } else if t in s.canTake.woken {
      WokenTakes(s, t);
    } else {
      assert |s.canTake.woken| >= |s.tasks| > 0;
      var u :| u in s.canTake.woken;
      WokenTakes(s, u);
    }
  }

  /** A started pool with tasks queued can take one if and only if it is not full with every worker
      inside `add_task`. If it can, its workers can without a spurious wake-up and without anybody
      else's help; if it cannot, no run takes a task any more. */
  lemma CanTakeIff(s: Pool)
    requires Reachable(s) && s.started && s.tasks != []
    ensures WorkersTake(s) <==> !SelfBlocked(s)
    ensures CanTake(s) <==> !SelfBlocked(s)
  {
    ReachableInv(s);
    if SelfBlocked(s) {
      forall es | LegalRun(s, es)
        ensures Run(s, es).taken == s.taken
      {
        SelfBlockedForever(s, es);
      }
    } else {
      var t :| t in s.workers && t !in s.canAdd.asleep + s.canAdd.woken;
      WorkerTakes(s, t);
    }
  }

  lemma {:induction false} RunSplit(s: Pool, a: seq<Event>, b: seq<Event>)
    requires LegalRun(s, a) && LegalRun(Run(s, a), b)
    ensures LegalRun(s, a + b) && Run(s, a + b) == Run(Run(s, a), b)
    decreases |a|
  {
    if a == [] {
      assert a + b == b;
    } else {
      RunSplit(Next(s, a[0]), a[1..], b);
      assert (a + b)[1..] == a[1..] + b;
    }
  }

  lemma {:induction false} FillQueue(s: Pool, t: Tid, k: nat) returns (es: seq<Event>)
    requires t in s.user && t !in s.canAdd.woken && s.canTake.asleep == {} && |s.tasks| + k == s.maxQueue
    ensures LegalRun(s, es)
    ensures var r := Run(s, es);
            && |r.tasks| == s.maxQueue == r.maxQueue && r.started == s.started && r.workers == s.workers
            && (r.idle, r.user, r.canTake, r.canAdd) == (s.idle, s.user, s.canTake, s.canAdd)
    decreases k
  {
    if k == 0 {
      es := [];
    } else {
      var e := Add(t, 0, {});
      var n := Next(s, e);
      assert n.user == s.user && n.canAdd == s.canAdd && n.canTake == s.canTake;
      var rest := FillQueue(n, t, k - 1);
      es := [e] + rest;
      assert es[1..] == rest;
    }
  }

  lemma TwoSteps(s: Pool, e: Event, f: Event)
    requires Legal(s, e) && Legal(Next(s, e), f)
    ensures LegalRun(s, [e, f]) && Run(s, [e, f]) == Next(Next(s, e), f)
  {
    var n, none: seq<Event> := Next(s, e), [];
    assert LegalRun(Next(n, f), none) && Run(Next(n, f), none) == Next(n, f);
    RunCons(n, f, none);
    RunCons(s, e, [f] + none);
    assert [e] + ([f] + none) == [e, f];
  }

  /** One worker, 0, and one other thread, 1: the worker is running a task. */
  lemma Opening() returns (es: seq<Event>)
    ensures LegalRun(Started({0}, {1}), es)
    ensures Run(Started({0}, {1}), es) ==
            Pool({0}, {}, {0, 1}, Cond({}, {}), Cond({}, {}), map[], [], 100, true, [0], [0])
  {
    var s := Started({0}, {1});
    var e, f := Add(1, 0, {}), Take(0, {});
    es := [e, f];
    assert Next(s, e) == Pool({0}, {0}, {1}, Cond({}, {}), Cond({}, {}), map[], [0], 100, true, [0], []);
    TwoSteps(s, e, f);
  }

  /** Both threads post into the full queue. */
  lemma Closing(s: Pool) returns (es: seq<Event>)
    requires s.user == {0, 1} && s.idle == {} && s.canTake == s.canAdd == Cond({}, {})
    requires s.started && s.IsFull()
    ensures LegalRun(s, es) && Stuck(Run(s, es)) && Run(s, es).started && Run(s, es).IsFull()
  {
    var e, f := Add(0, 0, {}), Add(1, 0, {});
    es := [e, f];
    TwoSteps(s, e, f);
  }

  /** The second case happens: the workers of a started pool can all be blocked posting into
      its full queue, and then no run ever takes a task again. */
  lemma WorkersCanBlockThemselves()
    ensures exists s :: Reachable(s) && s.started && Stuck(s) && s.tasks != [] && SelfBlocked(s) && !CanTake(s)
  {
    var s0 := Started({0}, {1});
    var a := Opening();
    var b := FillQueue(Run(s0, a), 0, 100);
    RunSplit(s0, a, b);
    var c := Closing(Run(s0, a + b));
    RunSplit(s0, a + b, c);
    var s := Run(s0, a + b + c);
    assert IsRun({0}, {1}, a + b + c, s);
    assert Reachable(s);
    ReachableInv(s);
    StuckMeansIdleOrSelfBlocked(s);
    CanTakeIff(s);
  }

  // ----- the classes -----

  class Condition {
    var asleep: set<Tid>
    var woken: set<Tid>

    constructor ()
      ensures View() == Cond({}, {})
    {
      asleep, woken := {}, {};
    }

    function View(): Cond
      reads this
    {
      Cond(asleep, woken)
    }

    /** `wait` up to the point where the thread is blocked and the mutex released. */
    method Wait(t: Tid)
      modifies this
      ensures View() == old(View()).Slept(t)
    {
      asleep := asleep + {t};
      woken := woken - {t};
    }

    /** The end of `wait`: the mutex is held again. */
    method Return(t: Tid)
      modifies this
      ensures View() == old(View()).Back(t)
    {
      woken := woken - {t};
    }

    /** The system chooses the sleepers `ws` to wake. */
    method Notify(ws: set<Tid>)
      requires View().MayWake(ws)
      modifies this
      ensures View() == old(View()).Notified(ws)
    {
      asleep := asleep - ws;
      woken := woken + ws;
    }

    method NotifyAll()
      modifies this
      ensures View() == old(View()).Notified(old(asleep))
    {
      Notify(asleep);
    }
  }

  class ThreadPool {
    const canTake: Condition
    const canAdd: Condition
    var workers: set<Tid>
    var tasks: seq<Task>
    var maxQueue: nat
    var started: bool
    // where the threads are, and what has passed through the queue
    var idle: set<Tid>
    var user: set<Tid>
    var pending: map<Tid, Task>
    var added: seq<Task>
    var taken: seq<Task>

    ghost predicate Valid() { canTake != canAdd }

    ghost function View(): Pool
      reads this, canTake, canAdd
    {
      Pool(workers, idle, user, canTake.View(), canAdd.View(), pending, tasks, maxQueue, started, added, taken)
    }

    constructor (others: set<Tid>)
      ensures Valid() && fresh(canTake) && fresh(canAdd)
      ensures View() == Started({}, others).(started := false)
    {
      canTake := new Condition();
      canAdd := new Condition();
      workers, idle, user, pending := {}, {}, others, map[];
      tasks, maxQueue, started, added, taken := [], 0, false, [], [];
    }

    /** `start`: the pool creates the threads `ids`. */
    method Start(ids: set<Tid>)
      requires Valid() && View() == Started({}, user).(started := false)
      modifies this
      ensures View() == Started(ids, old(user))
    {
      maxQueue := |ids| * 100;
      started := true;
      workers := ids;
      idle := ids;
    }

    predicate IsFull()
      reads this
    {
      |tasks| >= maxQueue
    }

    /** `add_task` entered by thread `t`, or resumed by it after a wait: without workers the task
        runs in the caller; else one pass of the loop. */
    method AddTask(t: Tid, task: Task, wake: set<Tid>) returns (inline: bool)
      requires Valid() && canTake.View().MayWake(wake)
      requires t in user || (t in canAdd.woken && t in pending && task == pending[t])
      modifies this, canTake, canAdd
      ensures inline <==> old(workers) == {}
      ensures View() == if inline then old(View()) else AddPass(old(View()), t, task, wake)
    {
      inline := workers == {};
      if inline {
        return;
      }
      if IsFull() {
        user := user - {t};
        pending := pending[t := task];
        canAdd.Wait(t);
      } else {
        canAdd.Return(t);
        user := user + {t};
        tasks := tasks + [task];
        added := added + [task];
        canTake.Notify(wake);
      }
    }

    /** One pass of `take`; None stands for the empty task it returns after `stop`, or for
        going to sleep. */
    method Take(t: Tid, wake: set<Tid>) returns (task: Option<Task>)
      requires Valid() && canAdd.View().MayWake(wake)
      requires t in idle || t in canTake.woken
      modifies this, canTake, canAdd
      ensures View() == TakePass(old(View()), t, wake)
      ensures task == if old(tasks) == [] then None else Some(old(tasks)[0])
    {
      task := None;
      if tasks == [] && started {
        idle := idle - {t};
        canTake.Wait(t);
      } else {
        canTake.Return(t);
        if tasks != [] {
          task := Some(tasks[0]);
          taken := taken + [tasks[0]];
          tasks := tasks[1..];
          idle := idle - {t};
          user := user + {t};
          if |tasks| < maxQueue {
            canAdd.Notify(wake);
          }
        } else {
          idle := idle + {t};
        }
      }
    }

    /** The critical section of `stop`. */
    method StopAll()
      requires Valid()
      modifies this, canTake
      ensures View() == Next(old(View()), Stop)
    {
      started := false;
      canTake.NotifyAll();
    }
  }
}
