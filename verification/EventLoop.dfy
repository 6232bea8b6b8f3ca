/** The task queue and eventfd wake-up of net/EventLoop.cc as a protocol between the loop thread
    and any number of posting threads. Pushing a task and writing the eventfd are separate steps
    of a poster, so the loop may run in between. */
module EventLoops {

  import opened Common

  type Tid = nat
  type Task = nat

  /** Where the loop thread is: in `poll`, dispatching events, in `handle_tasks` before the swap,
      or after it with the tasks of `tmp_vector` still to be run. */
  datatype Phase = Polling | Dispatching | Flagged | Draining(tmp: seq<Task>)

  const EVENTFD_MAX: nat := 0xffff_ffff_ffff_fffe

  /** `posting` holds the other threads between their push and their `wakeup`; `selfPosting` says
      the loop thread is there. `posted` and `ran` record queued and executed tasks. */
  datatype Loop = Loop(
    phase: Phase, tasks: seq<Task>, counter: nat, handleTasks: bool,
    posting: set<Tid>, selfPosting: bool, posted: seq<Task>, ran: seq<Task>)

  /** Writing 1 to the non-blocking eventfd: a full counter stays as it is. */
  function Bumped(counter: nat): nat {
    if counter < EVENTFD_MAX then counter + 1 else counter
  }

  datatype Event =
    | Push(t: Tid, task: Task)
    | Wakeup(t: Tid)
    | PollReturn
    | ReadWakeup
    | LoopPush(task: Task)
    | LoopWakeup
    | SetFlag
    | Swap
    | RunTask
    | EndTasks

  predicate Legal(s: Loop, e: Event) {
    match e
    case Push(t, _) => t !in s.posting
    case Wakeup(t) => t in s.posting
    case PollReturn => s.phase == Polling
    case ReadWakeup => s.phase == Dispatching && !s.selfPosting
    case LoopPush(_) => (s.phase == Dispatching || s.phase.Draining?) && !s.selfPosting
    case LoopWakeup => s.selfPosting
    case SetFlag => s.phase == Dispatching && !s.selfPosting
    case Swap => s.phase == Flagged
    case RunTask => s.phase.Draining? && s.phase.tmp != [] && !s.selfPosting
    case EndTasks => s.phase == Draining([]) && !s.selfPosting
  }

  function Next(s: Loop, e: Event): Loop
    requires Legal(s, e)
  {
    match e
    case Push(t, task) => s.(tasks := s.tasks + [task], posted := s.posted + [task], posting := s.posting + {t})
    case Wakeup(t) => s.(counter := Bumped(s.counter), posting := s.posting - {t})
    case PollReturn => s.(phase := Dispatching)
    case ReadWakeup => s.(counter := 0)
    case LoopPush(task) =>
      s.(tasks := s.tasks + [task], posted := s.posted + [task], selfPosting := s.handleTasks)
    case LoopWakeup => s.(counter := Bumped(s.counter), selfPosting := false)
    case SetFlag => s.(phase := Flagged, handleTasks := true)
    case Swap => s.(phase := Draining(s.tasks), tasks := [])
    case RunTask => s.(phase := Draining(s.phase.tmp[1..]), ran := s.ran + [s.phase.tmp[0]])
    case EndTasks => s.(phase := Polling, handleTasks := false)
  }

  ghost predicate LegalRun(s: Loop, es: seq<Event>)
    decreases |es|
  {
    es == [] || (Legal(s, es[0]) && LegalRun(Next(s, es[0]), es[1..]))
  }

  ghost function Run(s: Loop, es: seq<Event>): Loop
    requires LegalRun(s, es)
    decreases |es|
  {
    if es == [] then s else Run(Next(s, es[0]), es[1..])
  }

  function Unrun(s: Loop): seq<Task> { if s.phase.Draining? then s.phase.tmp else [] }

  /** A queued task is covered by a readable eventfd or by a poster that has yet to write it. */
  predicate WakeupDue(s: Loop) {
    s.tasks == [] || s.counter > 0 || s.posting != {} || s.selfPosting
  }

  /** While the loop is in `poll`, or on its way there after the swap, no queued task is left
      without a wake-up. */
  predicate Inv(s: Loop) {
    && (s.phase == Polling || s.phase.Draining? ==> WakeupDue(s))
    && (s.phase.Draining? || s.phase == Flagged ==> s.handleTasks)
    && (s.phase == Polling || s.phase == Flagged ==> !s.selfPosting)
    && s.ran + Unrun(s) + s.tasks == s.posted
  }

  lemma NextKeeps(s: Loop, e: Event)
    requires Inv(s) && Legal(s, e)
    ensures Inv(Next(s, e))
  {
    var n := Next(s, e);
    if e.Push? || e.LoopPush? {
      assert s.ran + Unrun(s) + (s.tasks + [e.task]) == s.posted + [e.task];
    } else if e == RunTask {
      assert s.ran + ([s.phase.tmp[0]] + s.phase.tmp[1..]) + s.tasks == n.ran + Unrun(n) + n.tasks;
    } else if e == Swap {
      assert s.ran + [] + s.tasks == n.ran + n.phase.tmp + [];
    }
  }

  lemma {:induction false} RunKeeps(s: Loop, es: seq<Event>)
    requires Inv(s) && LegalRun(s, es)
    ensures Inv(Run(s, es))
    decreases |es|
  {
    if es != [] {
      NextKeeps(s, es[0]);
      RunKeeps(Next(s, es[0]), es[1..]);
    }
  }

  /** Entry to `loop()`: `queue` was posted before, the eventfd counter is `counter`, and the
      flag, which the constructor leaves unset, may be anything. */
  function Entry(queue: seq<Task>, counter: nat, flag: bool): Loop {
    Loop(Polling, queue, counter, flag, {}, false, queue, [])
  }

  /** Started with an empty queue, the loop is never in `poll` with a task queued, an unreadable
      eventfd and no poster about to write it, whoever posted the task. */
  lemma NoLostWakeup(flag: bool, es: seq<Event>)
    requires LegalRun(Entry([], 0, flag), es)
    ensures var s := Run(Entry([], 0, flag), es);
            s.phase == Polling && s.tasks != [] ==> s.counter > 0 || s.posting != {}
  {
    RunKeeps(Entry([], 0, flag), es);
  }

  /** Tasks posted on the loop thread before `loop()` are not followed by a wake-up: the
      guarantee holds on all runs exactly when the queue is empty at entry or the eventfd is
      already readable. */
  lemma EntryConditionIsExact(queue: seq<Task>, counter: nat, flag: bool)
    ensures (forall es :: LegalRun(Entry(queue, counter, flag), es) ==>
                            var s := Run(Entry(queue, counter, flag), es);
                            (s.phase == Polling ==> WakeupDue(s)))
            <==> queue == [] || counter > 0
  {
    var s0 := Entry(queue, counter, flag);
    if queue == [] || counter > 0 {
      assert s0.ran + Unrun(s0) + s0.tasks == s0.posted;
      forall es | LegalRun(s0, es)
        ensures Inv(Run(s0, es))
      {
        RunKeeps(s0, es);
      }
    } else {
      var none: seq<Event> := [];
      assert LegalRun(s0, none) && !WakeupDue(Run(s0, none));
    }
  }

  /** Tasks run, then the rest of `tmp_vector`, then the queue, are all posts in push order. */
  lemma TasksConserved(flag: bool, es: seq<Event>)
    requires LegalRun(Entry([], 0, flag), es)
    ensures var s := Run(Entry([], 0, flag), es); s.ran + Unrun(s) + s.tasks == s.posted
  {
    RunKeeps(Entry([], 0, flag), es);
  }

  /** When `poll` can block with nobody about to write the eventfd, every posted task has run. */
  lemma BlockedMeansAllRan(flag: bool, es: seq<Event>)
    requires LegalRun(Entry([], 0, flag), es)
    ensures var s := Run(Entry([], 0, flag), es);
            s.phase == Polling && s.counter == 0 && s.posting == {} ==> s.ran == s.posted
  {
    RunKeeps(Entry([], 0, flag), es);
  }

  /** The posts that must have run when the loop next reaches `poll`. */
  ghost function Due(s: Loop): seq<Task> {
    if s.phase == Polling then s.ran
    else if s.phase.Draining? then s.ran + s.phase.tmp
    else s.posted
  }

  lemma DueGrows(s: Loop, e: Event)
    requires Inv(s) && Legal(s, e) && e != PollReturn
    ensures Due(s) <= Due(Next(s, e))
  {
    var n := Next(s, e);
    if e == RunTask {
      assert s.ran + ([s.phase.tmp[0]] + s.phase.tmp[1..]) == n.ran + n.phase.tmp;
    } else if e == Swap {
      assert s.ran + [] + s.tasks == n.ran + n.phase.tmp;
    }
  }

  /** A task queued while events are dispatched runs before the next `poll`: on any stretch of a
      run from there to the next time the loop is in `poll`, everything posted at its start is
      run, in order. */
  lemma {:induction false} RunsBeforeNextPoll(s: Loop, es: seq<Event>)
    requires Inv(s) && LegalRun(s, es) && PollReturn !in es
    ensures Due(s) <= Due(Run(s, es))
    ensures (s.phase == Dispatching || s.phase == Flagged) && Run(s, es).phase == Polling ==>
              s.posted <= Run(s, es).ran
    decreases |es|
  {
    if es != [] {
      NextKeeps(s, es[0]);
      DueGrows(s, es[0]);
      RunsBeforeNextPoll(Next(s, es[0]), es[1..]);
    }
  }

  /** A push leaves the eventfd alone and its wake-up still to be done. */
  lemma PushOwesWakeup(s: Loop, t: Tid, task: Task)
    requires t !in s.posting
    ensures var n := Next(s, Push(t, task));
            n.tasks == s.tasks + [task] && n.counter == s.counter && Legal(n, Wakeup(t))
  {
  }

  /** A readable eventfd stays readable until it is read. */
  lemma {:induction false} ReadableUntilRead(s: Loop, es: seq<Event>)
    requires LegalRun(s, es) && ReadWakeup !in es
    ensures Run(s, es).counter >= s.counter
    decreases |es|
  {
    if es != [] {
      ReadableUntilRead(Next(s, es[0]), es[1..]);
    }
  }

  /** Each wake-up counts for one, until the eventfd is full at 2^64 - 2. */
  lemma WakeupAddsOne(s: Loop, t: Tid)
    requires t in s.posting
    ensures var n := Next(s, Wakeup(t));
            && n.counter == s.counter + (if s.counter < 18446744073709551614 then 1 else 0)
            && n.posting == s.posting - {t} && n.tasks == s.tasks
  {
  }

  // ----- quiescence -----

  lemma RunCons(s: Loop, e: Event, rest: seq<Event>)
    requires Legal(s, e) && LegalRun(Next(s, e), rest)
    ensures LegalRun(s, [e] + rest) && Run(s, [e] + rest) == Run(Next(s, e), rest)
  {
    assert ([e] + rest)[0] == e && ([e] + rest)[1..] == rest;
  }

  /** The rest of a round: the tasks of `tmp_vector`, then back to `poll`. */
  function Drain(n: nat): seq<Event> {
    if n == 0 then [EndTasks] else [RunTask] + Drain(n - 1)
  }

  lemma {:induction false} DrainRuns(s: Loop)
    requires s.phase.Draining? && !s.selfPosting
    ensures LegalRun(s, Drain(|s.phase.tmp|))
    ensures Run(s, Drain(|s.phase.tmp|)) == s.(phase := Polling, handleTasks := false, ran := s.ran + s.phase.tmp)
    decreases |s.phase.tmp|
  {
    if s.phase.tmp == [] {
      var none: seq<Event> := [];
      assert LegalRun(Next(s, EndTasks), none);
      RunCons(s, EndTasks, none);
      assert s.ran + [] == s.ran;
    } else {
      var n := Next(s, RunTask);
      DrainRuns(n);
      RunCons(s, RunTask, Drain(|n.phase.tmp|));
      assert s.ran + [s.phase.tmp[0]] + s.phase.tmp[1..] == s.ran + s.phase.tmp;
    }
  }

  /** The loop thread posts the tasks one after the other. */
  function Posts(tasks: seq<Task>): seq<Event> {
    if tasks == [] then [] else [LoopPush(tasks[0])] + Posts(tasks[1..])
  }

  /** A round from the dispatching of events to the next `poll`, with callbacks that post `own`. */
  function Round(own: seq<Task>, n: nat): seq<Event> {
    [ReadWakeup] + (Posts(own) + ([SetFlag] + ([Swap] + Drain(n))))
  }

  lemma TasksRound(s: Loop)
    requires s.phase == Dispatching && !s.selfPosting
    ensures LegalRun(s, [SetFlag] + ([Swap] + Drain(|s.tasks|)))
    ensures Run(s, [SetFlag] + ([Swap] + Drain(|s.tasks|))) ==
            s.(phase := Polling, handleTasks := false, tasks := [], ran := s.ran + s.tasks)
  {
    var f := Next(s, SetFlag);
    var w := Next(f, Swap);
    DrainRuns(w);
    RunCons(f, Swap, Drain(|s.tasks|));
    RunCons(s, SetFlag, [Swap] + Drain(|s.tasks|));
  }

  /** Tasks posted by callbacks, before `handle_tasks`, are queued without a wake-up. */
  lemma {:induction false} PostsRun(s: Loop, own: seq<Task>, rest: seq<Event>)
    requires s.phase == Dispatching && !s.selfPosting && !s.handleTasks
    requires LegalRun(s.(tasks := s.tasks + own, posted := s.posted + own), rest)
    ensures LegalRun(s, Posts(own) + rest)
    ensures Run(s, Posts(own) + rest) == Run(s.(tasks := s.tasks + own, posted := s.posted + own), rest)
    decreases |own|
  {
    if own == [] {
      assert Posts(own) + rest == rest && s.tasks + own == s.tasks && s.posted + own == s.posted;
    } else {
      var n := Next(s, LoopPush(own[0]));
      assert n.tasks + own[1..] == s.tasks + own && n.posted + own[1..] == s.posted + own;
      PostsRun(n, own[1..], rest);
      RunCons(s, LoopPush(own[0]), Posts(own[1..]) + rest);
      assert Posts(own) + rest == [LoopPush(own[0])] + (Posts(own[1..]) + rest);
    }
  }

  /** With nobody else posting, one round runs every task, those posted by the round's callbacks
      included, and leaves the eventfd unreadable: the next `poll` blocks. */
  lemma QuietRound(s: Loop, own: seq<Task>)
    requires Inv(s) && s.phase == Dispatching && s.posting == {} && !s.selfPosting && !s.handleTasks
    ensures var es := Round(own, |s.tasks| + |own|);
            && LegalRun(s, es)
            && var n := Run(s, es);
               && n.phase == Polling && n.counter == 0 && n.tasks == [] && n.posting == {} && !n.handleTasks
               && n.ran == n.posted == s.posted + own
  {
    var r := Next(s, ReadWakeup);
    var p := r.(tasks := r.tasks + own, posted := r.posted + own);
    TasksRound(p);
    PostsRun(r, own, [SetFlag] + ([Swap] + Drain(|p.tasks|)));
    RunCons(s, ReadWakeup, Posts(own) + ([SetFlag] + ([Swap] + Drain(|p.tasks|))));
    assert s.ran + [] + s.tasks + own == s.ran + (s.tasks + own);
  }

  /** The first round after `loop()` is entered may still wake the loop once for its own posts,
      `m_handle_tasks` being unset; without such posts it ends quietly too. */
  lemma FirstQuietRound(s: Loop)
    requires Inv(s) && s.phase == Dispatching && s.posting == {} && !s.selfPosting
    ensures var es := Round([], |s.tasks|);
            && LegalRun(s, es)
            && var n := Run(s, es);
               && n.phase == Polling && n.counter == 0 && n.tasks == [] && n.posting == {} && !n.handleTasks
               && n.ran == n.posted == s.posted
  {
    var r := Next(s, ReadWakeup);
    TasksRound(r);
    var rest := [SetFlag] + ([Swap] + Drain(|s.tasks|));
    assert Posts([]) + rest == rest;
    RunCons(s, ReadWakeup, rest);
    assert s.ran + [] + s.tasks == s.ran + s.tasks;
  }

  function Flat(posts: seq<seq<Task>>): seq<Task> {
    if posts == [] then [] else Flat(posts[..|posts| - 1]) + posts[|posts| - 1]
  }

  class EventLoop {
    var tasks: seq<Task>
    var handleTasks: bool
    // the eventfd, where the threads are, and what has passed through the queue
    var counter: nat
    var phase: Phase
    var posting: set<Tid>
    var selfPosting: bool
    var posted: seq<Task>
    var ran: seq<Task>

    function View(): Loop
      reads this
    {
      Loop(phase, tasks, counter, handleTasks, posting, selfPosting, posted, ran)
    }

    constructor (flag: bool)
      ensures View() == Entry([], 0, flag)
    {
      tasks, handleTasks, counter, phase := [], flag, 0, Polling;
      posting, selfPosting, posted, ran := {}, false, [], [];
    }

    method Wakeup()
      modifies this`counter
      ensures counter == Bumped(old(counter))
    {
      if counter < EVENTFD_MAX {
        counter := counter + 1;
      }
    }

    method WakeupChannelHandleRead()
      requires Legal(View(), ReadWakeup)
      modifies this
      ensures View() == Next(old(View()), ReadWakeup)
    {
      counter := 0;
    }

    /** The critical section of `add_in_queue`, by another thread or (None) the loop thread, and
        the decision whether a `wakeup` follows. */
    method PushTask(who: Option<Tid>, task: Task) returns (wake: bool)
      requires Legal(View(), if who.Some? then Push(who.value, task) else LoopPush(task))
      modifies this
      ensures View() == Next(old(View()), if who.Some? then Push(who.value, task) else LoopPush(task))
      ensures wake <==> who.Some? || old(handleTasks)
    {
      tasks := tasks + [task];
      posted := posted + [task];
      wake := who.Some? || handleTasks;
      if who.Some? {
        posting := posting + {who.value};
      } else {
        selfPosting := wake;
      }
    }

    /** The `wakeup` that ends `add_in_queue`. */
    method FinishPost(who: Option<Tid>)
      requires Legal(View(), if who.Some? then Event.Wakeup(who.value) else LoopWakeup)
      modifies this
      ensures View() == Next(old(View()), if who.Some? then Event.Wakeup(who.value) else LoopWakeup)
    {
      Wakeup();
      if who.Some? {
        posting := posting - {who.value};
      } else {
        selfPosting := false;
      }
    }

    /** `handle_tasks` undisturbed by other threads: `posts[i]` is what the i-th task posts from
        the loop thread. The tasks taken over run once each, in order; what they post stays
        queued for the next round, and the eventfd is left readable for it. */
    method HandleTasks(posts: seq<seq<Task>>)
      requires phase == Dispatching && !selfPosting && |posts| == |tasks|
      modifies this
      ensures phase == Polling && !handleTasks && !selfPosting && posting == old(posting)
      ensures ran == old(ran) + old(tasks)
      ensures tasks == Flat(posts) && posted == old(posted) + Flat(posts)
      ensures counter >= old(counter) && (tasks != [] ==> counter > 0)
    {
      handleTasks := true;
      phase := Flagged;
      var tmp := tasks;
      tasks := [];
      phase := Draining(tmp);
      var i := 0;
      while i < |tmp|
        invariant 0 <= i <= |tmp| && phase == Draining(tmp[i..])
        invariant handleTasks && !selfPosting && posting == old(posting)
        invariant ran == old(ran) + tmp[..i]
        invariant tasks == Flat(posts[..i]) && posted == old(posted) + tasks
        invariant counter >= old(counter) && (tasks != [] ==> counter > 0)
      {
        ran := ran + [tmp[i]];
        phase := Draining(tmp[i + 1..]);
        assert tmp[..i + 1] == tmp[..i] + [tmp[i]];
        PostAll(posts[i]);
        assert posts[..i + 1][..i] == posts[..i];
        i := i + 1;
      }
      assert posts[..i] == posts && tmp[..i] == tmp;
      handleTasks := false;
      phase := Polling;
    }

    /** A task of the loop thread posting one task after the other. */
    method PostAll(posts: seq<Task>)
      requires phase.Draining? && handleTasks && !selfPosting
      modifies this
      ensures phase == old(phase) && handleTasks && !selfPosting && posting == old(posting) && ran == old(ran)
      ensures tasks == old(tasks) + posts && posted == old(posted) + posts
      ensures counter >= old(counter) && (posts != [] ==> counter > 0)
    {
      var j := 0;
      while j < |posts|
        invariant 0 <= j <= |posts|
        invariant phase == old(phase) && handleTasks && !selfPosting && posting == old(posting) && ran == old(ran)
        invariant tasks == old(tasks) + posts[..j] && posted == old(posted) + posts[..j]
        invariant counter >= old(counter) && (j > 0 ==> counter > 0)
      {
        var wake := PushTask(None, posts[j]);
        if wake {
          FinishPost(None);
        }
        assert posts[..j + 1] == posts[..j] + [posts[j]];
        j := j + 1;
      }
    }
  }
}
