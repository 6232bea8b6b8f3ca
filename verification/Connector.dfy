/** Connecting and reconnecting (net/Connector.cc): who owns each descriptor across retries, and
    the channel object that is cleared by a queued task after it was taken out of the poller. */
module Connectors {

  import opened Common
  import Polling
  import PollerRuns

  type Fd = nat

  /** `add_timer` takes seconds: the retry delay, named and documented as milliseconds, is
      30000 seconds. */
  const RETRY: int := 30 * 1000 * 1_000_000

  datatype Status = Disconnected | Connecting

  /** How `connect` on a fresh descriptor ends: under way, worth a retry, or hopeless. */
  datatype Outcome = Progress | Retryable | Fatal

  /** Where the loop thread is; `since` is when the current iteration left `poll`. */
  datatype Phase = InPoll(since: int) | Dispatching(since: int) | RunningTasks(since: int)

  datatype Task = Reset | StartInLoop

  /** `channel` is the descriptor of `m_channel`, `registered` whether the poller knows it.
      Descriptors are numbered as `connect` opens them; `closed` and `handed` record each close
      and each call of the new-connection callback. `timers` are the deadlines of pending retry
      timers, `tasks` the loop's queued tasks that concern the connector. `broken` is set when an
      assertion of the source fails. */
  datatype State = State(
    status: Status, mbConnect: bool, hasCallback: bool, channel: Option<Fd>, registered: bool,
    count: nat, closed: seq<Fd>, handed: seq<Fd>, timers: seq<int>, tasks: seq<Task>,
    started: bool, clock: int, phase: Phase, broken: bool)

  function Closed(s: State, fd: Fd): State { s.(closed := s.closed + [fd]) }

  function Retried(s: State, fd: Fd): State {
    var s1 := Closed(s, fd).(status := Disconnected);
    if s.mbConnect then s1.(timers := s1.timers + [s.clock + RETRY]) else s1
  }

  /** `connecting`: there must be no channel left. */
  function Watched(s: State, fd: Fd): State {
    s.(status := Connecting, broken := s.broken || s.channel.Some?, channel := Some(fd), registered := true)
  }

  function Connected(s: State, outcome: Outcome): State {
    var fd := s.count;
    var s1 := s.(count := fd + 1);
    match outcome
    case Progress => Watched(s1, fd)
    case Retryable => Retried(s1, fd)
    case Fatal => Closed(s1, fd)
  }

  function StartedInLoop(s: State, outcome: Outcome): State {
    var s1 := s.(broken := s.broken || s.status != Disconnected);
    if s.mbConnect then Connected(s1, outcome) else s1
  }

  /** `remove` takes the channel out of the poller and leaves clearing it to a queued task. */
  function Unwatched(s: State): State {
    s.(registered := false, tasks := s.tasks + [Reset])
  }

  function WriteHandled(s: State, error: bool): State
    requires s.status == Connecting ==> s.channel.Some?
  {
    if s.status == Connecting then
      var fd := s.channel.value;
      var s1 := Unwatched(s);
      if error then Retried(s1, fd)
      else if s.mbConnect && s.hasCallback then s1.(handed := s1.handed + [fd])
      else Closed(s1, fd)
    else s
  }

  function ErrorHandled(s: State): State
    requires s.status == Connecting ==> s.channel.Some?
  {
    if s.status == Connecting then Retried(Unwatched(s), s.channel.value) else s
  }

  const BOUND: set<Polling.Callback> := {Polling.OnError, Polling.OnWrite}

  /** The connector's channel has an error and a write callback, run in that order. */
  function DispatchHandled(s: State, revents: set<Polling.Flag>, error: bool): State
    requires s.channel.Some?
  {
    var calls := Polling.Dispatched(revents, BOUND);
    var s1 := if Polling.OnError in calls then ErrorHandled(s) else s;
    if Polling.OnWrite in calls then WriteHandled(s1, error) else s1
  }

  datatype Event =
    | Start(inLoop: bool, outcome: Outcome)
    | PollReturn
    | Dispatch(revents: set<Polling.Flag>, error: bool)
    | RetryTimer(outcome: Outcome)
    | BeginTasks
    | RunTask(outcome: Outcome)
    | EndTasks
    | Tick(t: int)

  /** One `start`; only a registered channel is dispatched; a timer runs while events are
      dispatched, once its deadline has passed; the dispatching of one iteration takes no longer
      than the retry delay; all tasks queued before are run before the next `poll`. */
  predicate Legal(s: State, e: Event) {
    match e
    case Start(_, _) => !s.started
    case PollReturn => s.phase.InPoll?
    case Dispatch(_, _) => s.phase.Dispatching? && s.registered && s.channel.Some?
    case RetryTimer(_) => s.phase.Dispatching? && s.timers != [] && s.timers[0] < s.clock
    case BeginTasks => s.phase.Dispatching?
    case RunTask(_) => s.phase.RunningTasks? && s.tasks != []
    case EndTasks => s.phase.RunningTasks? && Reset !in s.tasks
    case Tick(t) => s.clock <= t && (s.phase.Dispatching? ==> t <= s.phase.since + RETRY)
  }

  function Next(s: State, e: Event): State
    requires Legal(s, e)
  {
    match e
    case Start(inLoop, outcome) =>
      var s1 := s.(mbConnect := true, started := true);
      if inLoop then StartedInLoop(s1, outcome) else s1.(tasks := s1.tasks + [StartInLoop])
    case PollReturn => s.(phase := Dispatching(s.clock))
    case Dispatch(revents, error) => DispatchHandled(s, revents, error)
    case RetryTimer(outcome) => StartedInLoop(s.(timers := s.timers[1..]), outcome)
    case BeginTasks => s.(phase := RunningTasks(s.phase.since))
    case RunTask(outcome) =>
      var s1 := s.(tasks := s.tasks[1..]);
      if s.tasks[0] == Reset then s1.(channel := None) else StartedInLoop(s1, outcome)
    case EndTasks => s.(phase := InPoll(s.clock))
    case Tick(t) => s.(clock := t)
  }

  /** At most one of a queued start, a live channel and a pending retry, and at most one task. */
  predicate OneActivity(s: State) {
    && (s.tasks == [] || s.tasks == [Reset] || s.tasks == [StartInLoop]) && |s.timers| <= 1
    && (s.tasks == [StartInLoop] ==> s.status == Disconnected && s.channel == None && s.timers == [] && s.started)
    && (s.registered ==> s.status == Connecting && s.channel.Some? && s.timers == [] && s.tasks == [])
    && (s.timers != [] ==> s.status == Disconnected && s.started)
    && (!s.started ==> s.status == Disconnected && s.channel == None && s.tasks == [])
    && (s.started ==> s.mbConnect)
  }

  /** A channel that is out of the poller has its reset queued in this very iteration, and a retry
      that waits beside it was set in this iteration too. */
  predicate ResetPending(s: State) {
    && (s.channel.Some? && !s.registered ==> s.tasks == [Reset])
    && (s.tasks == [Reset] ==> !s.phase.InPoll?)
    && (s.tasks == [Reset] && s.timers != [] ==> s.timers[0] >= s.phase.since + RETRY)
    && s.phase.since <= s.clock
    && (s.phase.Dispatching? ==> s.clock <= s.phase.since + RETRY)
  }

  predicate NoDup(q: seq<Fd>) {
    forall i, j :: 0 <= i < j < |q| ==> q[i] != q[j]
  }

  predicate Held(s: State, fd: Fd) { s.registered && s.channel == Some(fd) }

  predicate Released(s: State, fd: Fd) { fd in s.closed || fd in s.handed }

  /** Every descriptor opened is held by the live channel or was released once, by one close or
      one call of the new-connection callback. */
  ghost predicate Owned(s: State) {
    && (forall fd: Fd :: fd < s.count <==> Held(s, fd) || Released(s, fd))
    && (forall fd: Fd :: Held(s, fd) ==> !Released(s, fd))
    && NoDup(s.closed) && NoDup(s.handed)
    && (forall fd: Fd :: fd in s.closed ==> fd !in s.handed)
  }

  ghost predicate Inv(s: State) {
    !s.broken && OneActivity(s) && ResetPending(s) && Owned(s)
  }

  lemma ConnectedKeeps(s: State, outcome: Outcome)
    requires Inv(s) && s.started && s.status == Disconnected && s.channel == None && s.timers == [] && s.tasks == []
    ensures Inv(StartedInLoop(s, outcome))
  {
    var n := StartedInLoop(s, outcome);
    assert !Released(s, s.count) && !Held(s, s.count);
    assert Owned(n) by {
      forall fd: Fd
        ensures fd < n.count <==> Held(n, fd) || Released(n, fd)
      {
        assert fd < s.count <==> Held(s, fd) || Released(s, fd);
      }
    }
  }

  lemma RetriedKeeps(s: State)
    requires Inv(s) && s.registered && s.phase.Dispatching?
    ensures Inv(Retried(Unwatched(s), s.channel.value))
  {
    var n := Retried(Unwatched(s), s.channel.value);
    assert n.tasks == [Reset];
    assert Held(s, s.channel.value);
    forall fd: Fd
      ensures fd < n.count <==> Held(n, fd) || Released(n, fd)
    {
      assert fd < s.count <==> Held(s, fd) || Released(s, fd);
    }
  }

  lemma WriteKeeps(s: State, error: bool)
    requires Inv(s) && s.registered && s.phase.Dispatching?
    ensures Inv(WriteHandled(s, error))
  {
    if error {
      RetriedKeeps(s);
    } else {
      var n := WriteHandled(s, error);
      assert n.tasks == [Reset];
      assert Held(s, s.channel.value);
      forall fd: Fd
        ensures fd < n.count <==> Held(n, fd) || Released(n, fd)
      {
        assert fd < s.count <==> Held(s, fd) || Released(s, fd);
      }
    }
  }

  lemma DispatchKeeps(s: State, revents: set<Polling.Flag>, error: bool)
    requires Inv(s) && Legal(s, Dispatch(revents, error))
    ensures Inv(DispatchHandled(s, revents, error))
  {
    if Polling.OnError in Polling.Dispatched(revents, BOUND) {
      RetriedKeeps(s);
    } else {
      WriteKeeps(s, error);
    }
  }

  /** Steps that leave descriptors, channel and registration alone. */
  lemma OwnedFrame(s: State, n: State)
    requires Owned(s)
    requires n.count == s.count && n.closed == s.closed && n.handed == s.handed
    requires n.registered == s.registered && (s.registered ==> n.channel == s.channel)
    ensures Owned(n)
  {
    forall fd: Fd
      ensures (Held(n, fd) <==> Held(s, fd)) && (Released(n, fd) <==> Released(s, fd))
    {
    }
  }

  lemma NextKeeps(s: State, e: Event)
    requires Inv(s) && Legal(s, e)
    ensures Inv(Next(s, e))
  {
    match e
    case Start(inLoop, outcome) =>
      var s1 := s.(mbConnect := true, started := true);
      OwnedFrame(s, s1);
      if inLoop {
        ConnectedKeeps(s1, outcome);
      } else {
        assert Next(s, e).tasks == [StartInLoop] && [StartInLoop][0] != Reset;
        OwnedFrame(s, Next(s, e));
      }
    case Dispatch(revents, error) => DispatchKeeps(s, revents, error);
    case RetryTimer(outcome) =>
      var s1 := s.(timers := s.timers[1..]);
      assert s1.timers == [];
      OwnedFrame(s, s1);
      ConnectedKeeps(s1, outcome);
    case RunTask(outcome) =>
      var s1 := s.(tasks := s.tasks[1..]);
      assert s1.tasks == [];
      OwnedFrame(s, s1);
      if s.tasks[0] == Reset {
        OwnedFrame(s, Next(s, e));
      } else {
        ConnectedKeeps(s1, outcome);
      }
    case EndTasks =>
      assert Reset in [Reset];
      OwnedFrame(s, Next(s, e));
    case _ => OwnedFrame(s, Next(s, e));
  }

  // ----- runs -----

  ghost predicate LegalRun(s: State, es: seq<Event>)
    decreases |es|
  {
    es == [] || (Legal(s, es[0]) && LegalRun(Next(s, es[0]), es[1..]))
  }

  ghost function Run(s: State, es: seq<Event>): State
    requires LegalRun(s, es)
    decreases |es|
  {
    if es == [] then s else Run(Next(s, es[0]), es[1..])
  }

  function New(hasCallback: bool, clock: int): State {
    State(Disconnected, false, hasCallback, None, false, 0, [], [], [], [], false, clock, InPoll(clock), false)
  }

  lemma {:induction false} RunKeeps(s: State, es: seq<Event>)
    requires Inv(s) && LegalRun(s, es)
    ensures Inv(Run(s, es))
    decreases |es|
  {
    if es != [] {
      NextKeeps(s, es[0]);
      RunKeeps(Next(s, es[0]), es[1..]);
    }
  }

  /** On every run with one `start`, each descriptor `connect` opened is in exactly one state: held
      by the live channel, closed once, or handed to the callback once. */
  lemma DescriptorsOwned(hasCallback: bool, clock: int, es: seq<Event>, fd: Fd)
    requires LegalRun(New(hasCallback, clock), es)
    ensures var s := Run(New(hasCallback, clock), es);
            && (fd < s.count <==> Held(s, fd) || fd in s.closed || fd in s.handed)
            && !(Held(s, fd) && Released(s, fd)) && !(fd in s.closed && fd in s.handed)
            && NoDup(s.closed) && NoDup(s.handed)
  {
    RunKeeps(New(hasCallback, clock), es);
  }

  /** No assertion fails on such a run: in particular the queued reset has cleared the channel
      before a retry timer makes `connecting` need it empty. */
  lemma ResetBeforeRetry(hasCallback: bool, clock: int, es: seq<Event>, e: Event)
    requires LegalRun(New(hasCallback, clock), es) && Legal(Run(New(hasCallback, clock), es), e)
    ensures var s := Run(New(hasCallback, clock), es);
            !s.broken && (e.RetryTimer? ==> s.channel == None && s.status == Disconnected)
  {
    RunKeeps(New(hasCallback, clock), es);
  }

  /** One dispatch, also one that reports an error and writability together, releases the
      channel's descriptor exactly once, if a callback is due at all. */
  lemma DispatchReleasesOnce(s: State, revents: set<Polling.Flag>, error: bool)
    requires Inv(s) && Legal(s, Dispatch(revents, error))
    ensures var n := DispatchHandled(s, revents, error);
            var due := revents * {Polling.Nval, Polling.Err} != {} || Polling.Out in revents;
            && |n.closed| + |n.handed| == |s.closed| + |s.handed| + (if due then 1 else 0)
            && (due <==> Released(n, s.channel.value))
            && (n.handed != s.handed <==>
                  revents * {Polling.Nval, Polling.Err} == {} && Polling.Out in revents
                  && !error && s.mbConnect && s.hasCallback)
  {
    assert Held(s, s.channel.value);
  }

  /** A connect that failed but may be tried again, or a channel that reports an error. */
  predicate Retries(s: State, e: Event)
    requires Legal(s, e)
  {
    match e
    case Start(inLoop, outcome) => inLoop && outcome == Retryable
    case RetryTimer(outcome) => outcome == Retryable
    case RunTask(outcome) => s.tasks[0] == StartInLoop && outcome == Retryable
    case Dispatch(revents, error) =>
      revents * {Polling.Nval, Polling.Err} != {} || (Polling.Out in revents && error)
    case _ => false
  }

  lemma DispatchDelay(s: State, revents: set<Polling.Flag>, error: bool)
    requires Inv(s) && Legal(s, Dispatch(revents, error))
    ensures Next(s, Dispatch(revents, error)).timers ==
            if Retries(s, Dispatch(revents, error)) then [s.clock + 30_000_000_000] else []
  {
    var calls := Polling.Dispatched(revents, BOUND);
    assert Polling.OnError in calls <==> revents * {Polling.Nval, Polling.Err} != {};
    assert Polling.OnWrite in calls <==> Polling.Out in revents;
  }

  /** The delay does not grow: an attempt that failed adds a retry timer 30000 seconds ahead, and
      no other step adds one. */
  lemma DelayIsConstant(s: State, e: Event)
    requires Inv(s) && Legal(s, e)
    ensures Retries(s, e) ==> Next(s, e).timers == [s.clock + 30_000_000_000]
    ensures !Retries(s, e) ==> Next(s, e).timers == if e.RetryTimer? then [] else s.timers
  {
    match e
    case Dispatch(revents, error) => DispatchDelay(s, revents, error);
    case RetryTimer(_) => assert s.timers[1..] == [];
    case _ =>
  }

  // ----- perseverance -----

  /** A start is queued, a channel is being watched, or a retry is pending. */
  predicate Trying(s: State) {
    s.tasks == [StartInLoop] || s.registered || s.timers != []
  }

  /** Not started yet, or still trying. */
  predicate Alive(s: State) { !s.started || Trying(s) }

  /** A connect that fails for good, or a writable channel without an error. */
  predicate GivesUp(s: State, e: Event)
    requires Legal(s, e)
  {
    match e
    case Start(inLoop, outcome) => inLoop && outcome == Fatal
    case RetryTimer(outcome) => outcome == Fatal
    case RunTask(outcome) => s.tasks[0] == StartInLoop && outcome == Fatal
    case Dispatch(revents, error) =>
      revents * {Polling.Nval, Polling.Err} == {} && Polling.Out in revents && !error
    case _ => false
  }

  lemma DispatchGoesOn(s: State, revents: set<Polling.Flag>, error: bool)
    requires Inv(s) && Legal(s, Dispatch(revents, error))
    ensures Alive(Next(s, Dispatch(revents, error))) <==> !GivesUp(s, Dispatch(revents, error))
  {
    var calls := Polling.Dispatched(revents, BOUND);
    assert Polling.OnError in calls <==> revents * {Polling.Nval, Polling.Err} != {};
    assert Polling.OnWrite in calls <==> Polling.Out in revents;
    assert [Reset][0] != StartInLoop;
    assert [] + [Reset] == [Reset];
  }

  lemma GoesOn(s: State, e: Event)
    requires Inv(s) && Alive(s) && Legal(s, e)
    ensures Alive(Next(s, e)) <==> !GivesUp(s, e)
  {
    match e
    case Dispatch(revents, error) => DispatchGoesOn(s, revents, error);
    case _ =>
  }

  /** Once nothing is left to try, no step opens a descriptor or tries again. */
  lemma GivenUpStays(s: State, e: Event)
    requires Inv(s) && !Alive(s) && Legal(s, e)
    ensures !Alive(Next(s, e)) && Next(s, e).count == s.count
  {
  }

  ghost predicate GaveUp(s: State, es: seq<Event>)
    requires LegalRun(s, es)
    decreases |es|
  {
    es != [] && (GivesUp(s, es[0]) || GaveUp(Next(s, es[0]), es[1..]))
  }

  /** On every run the started connector has a start queued, a channel watched or a retry pending
      exactly until a connect fails for good or a channel becomes writable without an error. */
  lemma {:induction false} KeepsTryingIff(s: State, es: seq<Event>)
    requires Inv(s) && Alive(s) && LegalRun(s, es)
    ensures Alive(Run(s, es)) <==> !GaveUp(s, es)
    decreases |es|
  {
    if es != [] {
      var n := Next(s, es[0]);
      NextKeeps(s, es[0]);
      GoesOn(s, es[0]);
      if Alive(n) {
        KeepsTryingIff(n, es[1..]);
      } else {
        StaysGivenUp(n, es[1..]);
      }
    }
  }

  lemma {:induction false} StaysGivenUp(s: State, es: seq<Event>)
    requires Inv(s) && !Alive(s) && LegalRun(s, es)
    ensures !Alive(Run(s, es)) && Run(s, es).count == s.count
    decreases |es|
  {
    if es != [] {
      NextKeeps(s, es[0]);
      GivenUpStays(s, es[0]);
      StaysGivenUp(Next(s, es[0]), es[1..]);
    }
  }

  /** What the bound on an iteration is for: with the clock at any `now`, a retry timer trips the
      assertion of `connecting` exactly when it finds a channel, and it finds one only in an
      iteration that has outlasted the retry delay with the reset still queued. */
  lemma RetryBreaksIff(s: State, now: int, outcome: Outcome)
    requires Inv(s) && Legal(s.(clock := now), RetryTimer(outcome))
    ensures Next(s.(clock := now), RetryTimer(outcome)).broken
            <==> outcome == Progress && s.channel.Some?
    ensures s.channel.Some? ==> s.tasks == [Reset] && now > s.phase.since + RETRY
  {
  }

  /** `start_in_loop` and `connecting` assert that the connector is disconnected and has no channel. */
  lemma StartBreaksIff(s: State, outcome: Outcome)
    requires !s.broken
    ensures StartedInLoop(s, outcome).broken <==>
            s.status == Connecting || (s.mbConnect && outcome == Progress && s.channel.Some?)
  {
  }

  /** Such an iteration trips it. */
  lemma LongIterationBreaks(clock: int)
    ensures var s := Next(New(true, clock), Start(true, Progress));
            var d := Next(Next(s, PollReturn), Dispatch({Polling.Err}, true));
            var late := d.(clock := clock + RETRY + 1);
            && Inv(d) && Legal(late, RetryTimer(Progress)) && Next(late, RetryTimer(Progress)).broken
  {
    var s := Next(New(true, clock), Start(true, Progress));
    NextKeeps(New(true, clock), Start(true, Progress));
    NextKeeps(s, PollReturn);
    var p := Next(s, PollReturn);
    assert Polling.Err in {Polling.Err} * {Polling.Nval, Polling.Err};
    NextKeeps(p, Dispatch({Polling.Err}, true));
  }

  function PollerCalls(c: PollerRuns.Cid, fd: int): seq<PollerRuns.Event> {
    [PollerRuns.Create(c, fd)] + ([PollerRuns.SetEvents(c, Polling.WRITE_EVENT)]
                                  + ([PollerRuns.SetEvents(c, {})] + ([PollerRuns.Remove(c)] + [])))
  }

  /** The poller calls for one channel of the connector, in the order `connecting` and `remove`
      make them, are a legal run of the poller and leave nothing registered. */
  lemma ChannelLifeCycle(s: PollerRuns.Poller, c: PollerRuns.Cid, fd: int)
    requires PollerRuns.Agreement(s) && c !in s.chans && fd !in s.reg.byFd
    ensures PollerRuns.LegalRun(s, PollerCalls(c, fd))
    ensures PollerRuns.Run(s, PollerCalls(c, fd)).reg == s.reg
  {
    var e0, e1 := PollerRuns.Create(c, fd), PollerRuns.SetEvents(c, Polling.WRITE_EVENT);
    var e2, e3 := PollerRuns.SetEvents(c, {}), PollerRuns.Remove(c);
    assert Polling.Out in Polling.WRITE_EVENT && fd !in s.reg.kernel;
    var s1 := PollerRuns.Next(s, e0);
    var s2 := PollerRuns.Next(s1, e1);
    var s3 := PollerRuns.Next(s2, e2);
    PollerRuns.RunCons(s3, e3, []);
    PollerRuns.RunCons(s2, e2, [e3] + []);
    PollerRuns.RunCons(s1, e1, [e2] + ([e3] + []));
    PollerRuns.RunCons(s, e0, [e1] + ([e2] + ([e3] + [])));
    assert PollerRuns.Next(s3, e3).reg == s.reg;
  }

  // ----- the class -----

  class Connector {
    var status: Status
    var mbConnect: bool
    const hasCallback: bool
    var channel: Option<Fd>
    // the poller's and the loop's part, and what became of the descriptors
    var registered: bool
    var count: nat
    var closed: seq<Fd>
    var handed: seq<Fd>
    var timers: seq<int>
    var tasks: seq<Task>
    var started: bool
    var clock: int
    var phase: Phase

    function View(): State
      reads this
    {
      State(status, mbConnect, hasCallback, channel, registered, count, closed, handed, timers, tasks,
                started, clock, phase, false)
    }

    constructor (hasCallback: bool, now: int)
      ensures View() == New(hasCallback, now)
    {
      status, mbConnect, this.hasCallback, channel := Disconnected, false, hasCallback, None;
      registered, count, closed, handed, timers, tasks := false, 0, [], [], [], [];
      started, clock, phase := false, now, InPoll(now);
    }

    method Start(inLoop: bool, outcome: Outcome)
      requires Inv(View()) && !started
      modifies this
      ensures View() == Next(old(View()), Event.Start(inLoop, outcome))
    {
      mbConnect := true;
      started := true;
      if inLoop {
        StartInLoop(outcome);
      } else {
        tasks := tasks + [Task.StartInLoop];
      }
    }

    method StartInLoop(outcome: Outcome)
      requires status == Disconnected && channel == None
      modifies this
      ensures View() == StartedInLoop(old(View()), outcome)
    {
      if mbConnect {
        Connect(outcome);
      }
    }

    method Connect(outcome: Outcome)
      requires channel == None
      modifies this
      ensures View() == Connected(old(View()), outcome)
    {
      var fd := count;
      count := count + 1;
      match outcome {
        case Progress =>
          status := Connecting;
          channel := Some(fd);
          registered := true;
        case Retryable =>
          Retry(fd);
        case Fatal =>
          closed := closed + [fd];
      }
    }

    method Retry(fd: Fd)
      modifies this
      ensures View() == Retried(old(View()), fd)
    {
      closed := closed + [fd];
      status := Disconnected;
      if mbConnect {
        timers := timers + [clock + RETRY];
      }
    }

    method Remove() returns (fd: Fd)
      requires channel.Some?
      modifies this
      ensures fd == old(channel).value && View() == Unwatched(old(View()))
    {
      registered := false;
      fd := channel.value;
      tasks := tasks + [Reset];
    }

    method RunReset()
      modifies this`channel
      ensures channel == None
    {
      channel := None;
    }

    /** The loop runs the connector's oldest queued task. */
    method RunQueued(outcome: Outcome)
      requires Inv(View()) && Legal(View(), RunTask(outcome))
      modifies this
      ensures View() == Next(old(View()), RunTask(outcome))
    {
      var task := tasks[0];
      tasks := tasks[1..];
      if task == Reset {
        RunReset();
      } else {
        StartInLoop(outcome);
      }
    }

    method HandleWrite(error: bool)
      requires status == Connecting ==> channel.Some?
      modifies this
      ensures View() == WriteHandled(old(View()), error)
    {
      if status == Connecting {
        var fd := Remove();
        if error {
          Retry(fd);
        } else if mbConnect && hasCallback {
          handed := handed + [fd];
        } else {
          closed := closed + [fd];
        }
      }
    }

    method HandleError()
      requires status == Connecting ==> channel.Some?
      modifies this
      ensures View() == ErrorHandled(old(View()))
    {
      if status == Connecting {
        var fd := Remove();
        Retry(fd);
      }
    }
  }
}
