/** One connection of net/TcpConnection.cc on its loop thread: partial writes, buffered output,
    write interest, half-close and closing. `Conn` is the connection with its channel, the
    poller's registry and the two byte streams of its socket; the kernel's answers are
    parameters of the steps. */
module Connections {

  import opened Common
  import opened Polling
  import RingBuffers

  datatype ConnStatus = Connecting | Connected | Disconnecting | Disconnected

  /** `wire` holds the bytes written to the socket and `shutdowns` the length of `wire` at each
      shutdown of the socket; `accepted` the messages taken over by `send`, in order; `closes`
      counts runs of the close callback; `received` and `consumed` are the bytes read from the
      socket and those the message callback took. `inlineDestroy` says whether the close callback
      runs `connect_destroy` at once, as it does on a server without extra loops. `notifies` says
      whether a write-complete callback is set, `notified` counts its runs and `conns` those of the
      connection callback. `broken` is set when an assertion of the source fails. */
  datatype Conn<C> = Conn(
    status: ConnStatus, id: C, chan: Chan, reg: Registry<C>, inlineDestroy: bool,
    out: string, wire: string, accepted: string, shutdowns: seq<nat>, closes: nat,
    inp: string, received: string, consumed: string,
    notifies: bool, notified: nat, conns: nat, broken: bool)
  {
    predicate Writing() { chan.IsWriting() }

    predicate Open() { status == Connected || status == Disconnecting }
  }

  /** The result of `write` on `len` bytes: an error, or as many as the kernel takes. */
  function Written(budget: Option<nat>, len: nat): (n: int)
    ensures -1 <= n <= len
  {
    match budget
    case None => -1
    case Some(b) => if b < len then b else len
  }

  /** Changing the channel's events and updating the poller. */
  function WithEvents<C>(s: Conn<C>, events: set<Flag>): (n: Conn<C>)
    ensures n.notified == s.notified
  {
    var (r, ch) := Updated(s.reg, s.id, s.chan.(events := events));
    s.(reg := r, chan := ch)
  }

  function ShutdownInLoop<C>(s: Conn<C>): Conn<C> {
    if s.Writing() then s else s.(shutdowns := s.shutdowns + [|s.wire|])
  }

  function ShutDown<C>(s: Conn<C>): Conn<C> {
    if s.status == Connected then ShutdownInLoop(s.(status := Disconnecting)) else s
  }

  function SendInLoop<C>(s: Conn<C>, msg: string, budget: Option<nat>): Conn<C> {
    if s.status == Disconnected then s
    else
      var direct := !s.Writing() && s.out == "";
      var n := if direct then Written(budget, |msg|) else 0;
      if n < 0 then s
      else
        var s1 := s.(wire := s.wire + msg[..n], accepted := s.accepted + msg);
        if n == |msg| then
          if direct && s.notifies then s1.(notified := s1.notified + 1) else s1
        else
          var s2 := s1.(out := s1.out + msg[n..]);
          if s.Writing() then s2 else WithEvents(s2, s.chan.events + WRITE_EVENT)
  }

  function Sent<C>(s: Conn<C>, msg: string, budget: Option<nat>): Conn<C> {
    if s.status == Connected then SendInLoop(s, msg, budget) else s
  }

  function WriteHandled<C>(s: Conn<C>, budget: Option<nat>): (n: Conn<C>)
    ensures n.notified == s.notified
  {
    if !s.Writing() then s
    else
      var k := Written(budget, |s.out|);
      if k <= 0 then s
      else
        var s1 := s.(wire := s.wire + s.out[..k], out := s.out[k..]);
        if s1.out != "" then s1
        else
          var s2 := WithEvents(s1, s.chan.events - WRITE_EVENT);
          if s.status == Disconnecting then ShutdownInLoop(s2) else s2
  }

  function Destroyed<C(==)>(s: Conn<C>): (n: Conn<C>)
    ensures n.notified == s.notified
  {
    var s1 := if s.status == Connected then
                WithEvents(s.(status := Disconnected, conns := s.conns + 1), {})
              else s;
    if RemoveAsserts(s1.reg, s1.id, s1.chan) then
      var (r, ch) := Removed(s1.reg, s1.chan);
      s1.(reg := r, chan := ch)
    else s1.(broken := true)
  }

  function CloseHandled<C(==)>(s: Conn<C>): (n: Conn<C>)
    ensures n.notified == s.notified
  {
    if !s.Open() then s.(broken := true)
    else
      var s1 := WithEvents(s.(status := Disconnected), {});
      var s2 := s1.(conns := s1.conns + 1, closes := s1.closes + 1);
      if s.inlineDestroy then Destroyed(s2) else s2
  }

  function ForceClosed<C(==)>(s: Conn<C>): Conn<C> {
    if s.Open() then CloseHandled(s) else s
  }

  function ReadHandled<C(==)>(s: Conn<C>, incoming: Option<string>): Conn<C> {
    match incoming
    case None => s
    case Some(t) =>
      if t == "" then CloseHandled(s) else s.(inp := s.inp + t, received := s.received + t)
  }

  function Established<C>(s: Conn<C>): Conn<C> {
    WithEvents(s.(status := Connected, conns := s.conns + 1), s.chan.events + READ_EVENT)
  }

  function Consumed<C>(s: Conn<C>, k: nat): Conn<C> {
    if k > |s.inp| then s else s.(consumed := s.consumed + s.inp[..k], inp := s.inp[k..])
  }

  /** What user code may do with a connection, from a callback or otherwise. */
  datatype Op = Send(msg: string, budget: Option<nat>) | Shutdown | ForceClose | Consume(k: nat)

  function Do<C(==)>(s: Conn<C>, op: Op): Conn<C> {
    match op
    case Send(msg, budget) => Sent(s, msg, budget)
    case Shutdown => ShutDown(s)
    case ForceClose => ForceClosed(s)
    case Consume(k) => Consumed(s, k)
  }

  function DoAll<C(==)>(s: Conn<C>, ops: seq<Op>): Conn<C>
    decreases |ops|
  {
    if ops == [] then s else DoAll(Do(s, ops[0]), ops[1..])
  }

  const BOUND: set<Callback> := {OnClose, OnError, OnRead, OnWrite}

  /** One callback of the channel; `ops` is what the message callback does. */
  function Called<C(==)>(s: Conn<C>, cb: Callback, read: Option<string>, ops: seq<Op>, budget: Option<nat>): Conn<C> {
    match cb
    case OnClose => CloseHandled(s)
    case OnError => s
    case OnRead =>
      var s1 := ReadHandled(s, read);
      if read.Some? && read.value != "" then DoAll(s1, ops) else s1
    case OnWrite => WriteHandled(s, budget)
  }

  function CallAll<C(==)>(
    s: Conn<C>, calls: seq<Callback>, read: Option<string>, ops: seq<Op>, budget: Option<nat>): Conn<C>
    decreases |calls|
  {
    if calls == [] then s
    else CallAll(Called(s, calls[0], read, ops, budget), calls[1..], read, ops, budget)
  }

  datatype Event =
    | Establish
    | User(op: Op)
    | Dispatch(revents: set<Flag>, read: Option<string>, ops: seq<Op>, budget: Option<nat>)
    | Destroy

  function Next<C(==)>(s: Conn<C>, e: Event): Conn<C> {
    match e
    case Establish => Established(s)
    case User(op) => Do(s, op)
    case Dispatch(revents, read, ops, budget) => CallAll(s, Dispatched(revents, BOUND), read, ops, budget)
    case Destroy => Destroyed(s)
  }

  /** The server establishes a connection once, only registered channels are dispatched, POLLHUP
      without POLLIN does not come with the end of the stream, and the server destroys a connection
      that is connected or closed. */
  predicate Legal<C(==)>(s: Conn<C>, e: Event) {
    match e
    case Establish => s.status == Connecting
    case User(_) => true
    case Dispatch(revents, read, _, _) =>
      s.chan.status == Old && !(Hup in revents && In !in revents && read == Some(""))
    case Destroy => s.status == Connected || (s.status == Disconnected && s.chan.status == Del)
  }

  // ----- the invariant -----

  /** Interest and registration, by status. */
  predicate Registered<C(==)>(s: Conn<C>) {
    && s.reg.faults == 0 && !s.broken
    && ChanAgrees(s.reg, s.id, s.chan)
    && match s.status
       case Connecting => s.chan.status == New && s.chan.fd !in s.reg.byFd && s.chan.fd !in s.reg.kernel
                          && s.chan.events == {}
       case Disconnected => s.chan.events == {} && s.chan.status != Old
       case _ =>
         && s.chan.status == Old
         && s.chan.events == (if s.out == "" then READ_EVENT else READ_EVENT + WRITE_EVENT)
  }

  /** Bytes: nothing is lost, doubled or reordered, and a shutdown comes once, after all of them. */
  predicate Streams<C>(s: Conn<C>) {
    && s.wire + s.out == s.accepted
    && s.consumed + s.inp == s.received
    && (s.status == Connecting ==> s.accepted == "")
    && (s.status == Connecting || s.status == Connected ==> s.shutdowns == [])
    && |s.shutdowns| <= 1
    && (|s.shutdowns| == 1 ==> s.shutdowns[0] == |s.wire| && s.out == "")
    && (s.status == Disconnecting ==> (s.out == "" <==> |s.shutdowns| == 1))
  }

  /** The connection callback runs once when the connection is up and once when it is down. */
  function ConnRuns(st: ConnStatus): nat {
    match st
    case Connecting => 0
    case Disconnected => 2
    case _ => 1
  }

  predicate Closing<C>(s: Conn<C>) {
    s.closes <= 1 && (s.status != Disconnected ==> s.closes == 0) && s.conns == ConnRuns(s.status)
  }

  predicate Good<C(==)>(s: Conn<C>) { Registered(s) && Streams(s) && Closing(s) }

  function Rank(st: ConnStatus): nat {
    match st
    case Connecting => 0
    case Connected => 1
    case Disconnecting => 2
    case Disconnected => 3
  }

  lemma WritingIffOutput<C>(s: Conn<C>)
    requires Good(s) && s.Open()
    ensures s.Writing() <==> s.out != ""
  {
    assert Out in WRITE_EVENT;
    if s.out != "" {
      assert Out in s.chan.events * WRITE_EVENT;
    }
  }

  lemma MayAwaitWrite<C>(s: Conn<C>)
    requires Good(s) && s.status != Disconnected
    ensures UpdateAsserts(s.reg, s.chan.(events := s.chan.events + WRITE_EVENT))
  {
  }

  lemma EventsKeep<C>(s: Conn<C>, events: set<Flag>)
    requires s.reg.faults == 0 && ChanAgrees(s.reg, s.id, s.chan) && s.chan.status == Old
    ensures var n := WithEvents(s, events);
            && n.reg.faults == 0 && ChanAgrees(n.reg, n.id, n.chan)
            && n.chan == Chan(s.chan.fd, if events == {} then Del else Old, events)
  {
  }

  lemma QueuedKeeps<C>(s: Conn<C>, msg: string)
    requires Good(s) && s.status == Connected && s.out != ""
    ensures Good(SendInLoop(s, msg, None)) && SendInLoop(s, msg, None).status == s.status
  {
    WritingIffOutput(s);
    assert s.wire + msg[..0] == s.wire && msg[0..] == msg;
    assert s.wire + (s.out + msg) == s.wire + s.out + msg;
  }

  lemma DirectKeeps<C>(s: Conn<C>, msg: string, budget: Option<nat>)
    requires Good(s) && s.status == Connected && s.out == ""
    ensures Good(SendInLoop(s, msg, budget)) && SendInLoop(s, msg, budget).status == s.status
  {
    WritingIffOutput(s);
    var n := Written(budget, |msg|);
    if 0 <= n {
      assert s.wire == s.accepted;
      assert s.wire + msg[..n] + ("" + msg[n..]) == s.accepted + msg;
      EventsKeep(s, s.chan.events + WRITE_EVENT);
    }
  }

  lemma SendKeeps<C>(s: Conn<C>, msg: string, budget: Option<nat>)
    requires Good(s)
    ensures Good(Sent(s, msg, budget)) && Sent(s, msg, budget).status == s.status
  {
    if s.status == Connected {
      if s.out == "" {
        DirectKeeps(s, msg, budget);
      } else {
        WritingIffOutput(s);
        QueuedKeeps(s, msg);
      }
    }
  }

  lemma WriteKeeps<C>(s: Conn<C>, budget: Option<nat>)
    requires Good(s)
    ensures Good(WriteHandled(s, budget)) && WriteHandled(s, budget).status == s.status
  {
    if s.Open() {
      WritingIffOutput(s);
      var n := Written(budget, |s.out|);
      if n > 0 {
        assert s.wire + s.out[..n] + s.out[n..] == s.wire + s.out;
        EventsKeep(s, s.chan.events - WRITE_EVENT);
        assert READ_EVENT + WRITE_EVENT - WRITE_EVENT == READ_EVENT;
        assert In in READ_EVENT;
        assert READ_EVENT * WRITE_EVENT == {};
      }
    } else {
      assert s.chan.events * WRITE_EVENT == {};
    }
  }

  lemma ShutdownKeeps<C>(s: Conn<C>)
    requires Good(s)
    ensures Good(ShutDown(s)) && Rank(s.status) <= Rank(ShutDown(s).status)
  {
    if s.status == Connected {
      WritingIffOutput(s);
    }
  }

  lemma DestroyKeeps<C>(s: Conn<C>)
    requires Good(s) && Legal(s, Destroy)
    ensures Good(Destroyed(s)) && Destroyed(s).status == Disconnected
  {
    if s.status == Connected {
      EventsKeep(s, {});
    }
  }

  lemma CloseKeeps<C>(s: Conn<C>)
    requires Good(s) && s.Open()
    ensures Good(CloseHandled(s)) && CloseHandled(s).status == Disconnected
    ensures CloseHandled(s).closes == 1
  {
    EventsKeep(s, {});
    var s1 := WithEvents(s.(status := Disconnected), {});
    var s2 := s1.(conns := s1.conns + 1, closes := s1.closes + 1);
    assert Good(s2);
    if s.inlineDestroy {
      DestroyKeeps(s2);
    }
  }

  lemma ConsumeKeeps<C>(s: Conn<C>, k: nat)
    requires Good(s)
    ensures Good(Consumed(s, k)) && Consumed(s, k).status == s.status
  {
    if k <= |s.inp| {
      assert s.consumed + s.inp[..k] + s.inp[k..] == s.consumed + s.inp;
    }
  }

  lemma DoKeeps<C>(s: Conn<C>, op: Op)
    requires Good(s)
    ensures Good(Do(s, op)) && Rank(s.status) <= Rank(Do(s, op).status)
  {
    match op
    case Send(msg, budget) => SendKeeps(s, msg, budget);
    case Shutdown => ShutdownKeeps(s);
    case ForceClose =>
      if s.Open() {
        CloseKeeps(s);
      }
    case Consume(k) => ConsumeKeeps(s, k);
  }

  lemma {:induction false} DoAllKeeps<C>(s: Conn<C>, ops: seq<Op>)
    requires Good(s)
    ensures Good(DoAll(s, ops)) && Rank(s.status) <= Rank(DoAll(s, ops).status)
    decreases |ops|
  {
    if ops != [] {
      DoKeeps(s, ops[0]);
      DoAllKeeps(Do(s, ops[0]), ops[1..]);
    }
  }

  lemma ReadKeeps<C>(s: Conn<C>, read: Option<string>, ops: seq<Op>)
    requires Good(s) && (read == Some("") ==> s.Open())
    ensures Good(Called(s, OnRead, read, ops, None))
    ensures Rank(s.status) <= Rank(Called(s, OnRead, read, ops, None).status)
  {
    if read.Some? {
      if read.value == "" {
        CloseKeeps(s);
      } else {
        var s1 := ReadHandled(s, read);
        assert s.consumed + s.inp + read.value == s.consumed + (s.inp + read.value);
        assert Good(s1);
        DoAllKeeps(s1, ops);
      }
    }
  }

  lemma {:induction false} CallAppend<C>(
    s: Conn<C>, a: seq<Callback>, b: seq<Callback>, read: Option<string>, ops: seq<Op>, budget: Option<nat>)
    ensures CallAll(s, a + b, read, ops, budget) == CallAll(CallAll(s, a, read, ops, budget), b, read, ops, budget)
    decreases |a|
  {
    if a == [] {
      assert a + b == b;
    } else {
      CallAppend(Called(s, a[0], read, ops, budget), a[1..], b, read, ops, budget);
      assert (a + b)[1..] == a[1..] + b;
    }
  }

  /** A dispatch is the close callback, if due, then the read callback, then the write one. */
  lemma DispatchUnfolds<C>(s: Conn<C>, revents: set<Flag>, read: Option<string>, ops: seq<Op>, budget: Option<nat>)
    ensures var c := if Hup in revents && In !in revents then CloseHandled(s) else s;
            var r := if revents * {In, Pri, Hup} != {} then Called(c, OnRead, read, ops, None) else c;
            CallAll(s, Dispatched(revents, BOUND), read, ops, budget) ==
            if Out in revents then WriteHandled(r, budget) else r
  {
    var c, e := Part(Hup in revents && In !in revents, OnClose), Part(revents * {Nval, Err} != {}, OnError);
    var r, w := Part(revents * {In, Pri, Hup} != {}, OnRead), Part(Out in revents, OnWrite);
    assert Dispatched(revents, BOUND) == c + e + r + w;
    CallAppend(s, c + e + r, w, read, ops, budget);
    CallAppend(s, c + e, r, read, ops, budget);
    CallAppend(s, c, e, read, ops, budget);
    var s1 := CallPart(s, Hup in revents && In !in revents, OnClose, read, ops, budget);
    var s2 := CallPart(s1, revents * {Nval, Err} != {}, OnError, read, ops, budget);
    var s3 := CallPart(s2, revents * {In, Pri, Hup} != {}, OnRead, read, ops, budget);
    var s4 := CallPart(s3, Out in revents, OnWrite, read, ops, budget);
  }

  function Part(due: bool, cb: Callback): seq<Callback> { if due then [cb] else [] }

  lemma CallPart<C>(s: Conn<C>, due: bool, cb: Callback, read: Option<string>, ops: seq<Op>, budget: Option<nat>)
    returns (n: Conn<C>)
    ensures n == CallAll(s, Part(due, cb), read, ops, budget)
    ensures n == if due then Called(s, cb, read, ops, budget) else s
  {
    n := CallAll(s, Part(due, cb), read, ops, budget);
    assert due ==> Part(due, cb)[1..] == [];
  }

  lemma NextKeeps<C>(s: Conn<C>, e: Event)
    requires Good(s) && Legal(s, e)
    ensures Good(Next(s, e)) && Rank(s.status) <= Rank(Next(s, e).status)
  {
    match e
    case Establish =>
      assert In in READ_EVENT;
      assert READ_EVENT * WRITE_EVENT == {} && {} + READ_EVENT == READ_EVENT;
    case User(op) => DoKeeps(s, op);
    case Dispatch(revents, read, ops, budget) =>
      DispatchUnfolds(s, revents, read, ops, budget);
      var c := if Hup in revents && In !in revents then CloseHandled(s) else s;
      CloseKeeps(s);
      ReadKeeps(c, read, ops);
      var r := if revents * {In, Pri, Hup} != {} then Called(c, OnRead, read, ops, None) else c;
      WriteKeeps(r, budget);
    case Destroy => DestroyKeeps(s);
  }

  // ----- runs -----

  ghost predicate LegalRun<C>(s: Conn<C>, es: seq<Event>)
    decreases |es|
  {
    es == [] || (Legal(s, es[0]) && LegalRun(Next(s, es[0]), es[1..]))
  }

  ghost function Run<C>(s: Conn<C>, es: seq<Event>): Conn<C>
    requires LegalRun(s, es)
    decreases |es|
  {
    if es == [] then s else Run(Next(s, es[0]), es[1..])
  }

  /** A new connection on a descriptor the poller does not know. */
  predicate IsNew<C(==)>(s: Conn<C>) {
    && s.status == Connecting && s.chan == Chan(s.chan.fd, New, {})
    && s.chan.fd !in s.reg.byFd && s.chan.fd !in s.reg.kernel && s.reg.faults == 0
    && s.out == s.wire == s.accepted == s.inp == s.received == s.consumed == ""
    && s.shutdowns == [] && s.closes == s.notified == s.conns == 0 && !s.broken
  }

  lemma {:induction false} RunKeeps<C>(s: Conn<C>, es: seq<Event>)
    requires Good(s) && LegalRun(s, es)
    ensures Good(Run(s, es)) && Rank(s.status) <= Rank(Run(s, es).status)
    decreases |es|
  {
    if es != [] {
      NextKeeps(s, es[0]);
      RunKeeps(Next(s, es[0]), es[1..]);
    }
  }

  /** For every pattern of partial writes, what reached the socket followed by what is buffered
      is the concatenation of the messages taken over; likewise for the bytes read. */
  lemma BytesConserved<C>(s: Conn<C>, es: seq<Event>)
    requires IsNew(s) && LegalRun(s, es)
    ensures Run(s, es).wire + Run(s, es).out == Run(s, es).accepted
    ensures Run(s, es).consumed + Run(s, es).inp == Run(s, es).received
  {
    RunKeeps(s, es);
  }

  /** A message is taken over exactly when the connection is connected and its direct write, if
      one is tried, does not fail: what a failing direct write was given is dropped. */
  lemma MessageTakenIff<C>(s: Conn<C>, msg: string, budget: Option<nat>)
    requires Good(s) && msg != ""
    ensures Sent(s, msg, budget).accepted == s.accepted + msg
            <==> s.status == Connected && (s.out != "" || budget.Some?)
    ensures Sent(s, msg, budget).accepted != s.accepted + msg ==> Sent(s, msg, budget) == s
  {
    if s.status == Connected {
      WritingIffOutput(s);
    }
  }

  /** Half-close: the socket is shut down at most once, at a point where every accepted byte has
      been written, and nothing is written after it; while disconnecting it has happened exactly
      when no output is left. */
  lemma HalfCloseIsSafe<C>(s: Conn<C>, es: seq<Event>)
    requires IsNew(s) && LegalRun(s, es)
    ensures var r := Run(s, es);
            && (r.Open() ==> (r.Writing() <==> r.out != ""))
            && (r.shutdowns == [] || r.shutdowns == [|r.accepted|])
            && (r.shutdowns != [] ==> r.wire == r.accepted)
            && (r.status == Disconnecting ==> (r.shutdowns != [] <==> r.out == ""))
  {
    RunKeeps(s, es);
    var r := Run(s, es);
    if r.Open() {
      WritingIffOutput(r);
    }
    assert r.shutdowns != [] ==> r.wire == r.accepted by {
      assert r.out == "" ==> r.wire + r.out == r.wire;
    }
  }

  /** The status only moves forward, the close callback runs at most once and only on the way to
      disconnected, the connection callback once for each change, no assertion fails, and no
      `epoll_ctl` call fails. */
  lemma ClosesOnce<C>(s: Conn<C>, es: seq<Event>, more: seq<Event>)
    requires IsNew(s) && LegalRun(s, es) && LegalRun(Run(s, es), more)
    ensures Rank(Run(s, es).status) <= Rank(Run(Run(s, es), more).status)
    ensures Run(s, es).closes <= Run(Run(s, es), more).closes <= 1
    ensures Run(s, es).closes == 1 ==> Run(s, es).status == Disconnected
    ensures Run(s, es).conns == ConnRuns(Run(s, es).status)
    ensures !Run(s, es).broken && Run(s, es).reg.faults == 0
  {
    RunKeeps(s, es);
    RunKeeps(Run(s, es), more);
    ClosesGrow(Run(s, es), more);
  }

  lemma {:induction false} ClosesGrow<C>(s: Conn<C>, es: seq<Event>)
    requires Good(s) && LegalRun(s, es)
    ensures s.closes <= Run(s, es).closes
    decreases |es|
  {
    if s.closes == 0 {
    } else if es != [] {
      NextKeeps(s, es[0]);
      ClosedStays(s, es[0]);
      ClosesGrow(Next(s, es[0]), es[1..]);
    }
  }

  /** A disconnected connection ignores user code, so callbacks run while closing are harmless. */
  lemma {:induction false} DisconnectedIsInert<C>(s: Conn<C>, ops: seq<Op>)
    requires s.status == Disconnected
    ensures DoAll(s, ops) == s.(consumed := DoAll(s, ops).consumed, inp := DoAll(s, ops).inp)
    decreases |ops|
  {
    if ops != [] {
      DisconnectedIsInert(Do(s, ops[0]), ops[1..]);
    }
  }

  lemma ClosedStays<C>(s: Conn<C>, e: Event)
    requires Good(s) && Legal(s, e) && s.status == Disconnected
    ensures Next(s, e).closes == s.closes
  {
    match e
    case User(op) => DisconnectedIsInert(s, [op]); assert [op][1..] == [];
    case _ =>
  }

  /** Dispatching a registered channel trips an assertion exactly on POLLHUP without POLLIN when
      the read that follows reports the end of the stream: both callbacks then close. */
  lemma DispatchBreaksIff<C>(s: Conn<C>, revents: set<Flag>, read: Option<string>, ops: seq<Op>, budget: Option<nat>)
    requires Good(s) && s.chan.status == Old
    ensures Next(s, Dispatch(revents, read, ops, budget)).broken
            <==> Hup in revents && In !in revents && read == Some("")
  {
    if Hup in revents && In !in revents && read == Some("") {
      DispatchUnfolds(s, revents, read, ops, budget);
      assert Hup in revents * {In, Pri, Hup};
      CloseKeeps(s);
    } else {
      NextKeeps(s, Dispatch(revents, read, ops, budget));
    }
  }

  /** `connect_destroy` passes its assertions exactly on a connection that is connected, or closed
      and still known to the poller; destroying a half-closed one trips `is_no_event`. */
  lemma DestroyBreaksIff<C>(s: Conn<C>)
    requires Good(s)
    ensures !Destroyed(s).broken <==> Legal(s, Destroy)
  {
    if Legal(s, Destroy) {
      DestroyKeeps(s);
    } else if s.status == Disconnecting {
      assert In in READ_EVENT;
    }
  }

  // ----- what the kernel is asked for -----

  /** While a connection is open the kernel watches its descriptor for input, urgent data included,
      and for output exactly while some is buffered. */
  lemma WatchedFor<C>(s: Conn<C>)
    requires Good(s) && s.Open()
    ensures s.chan.fd in s.reg.kernel
    ensures In in s.reg.kernel[s.chan.fd] && Pri in s.reg.kernel[s.chan.fd]
    ensures Out in s.reg.kernel[s.chan.fd] <==> s.out != ""
    ensures s.reg.kernel[s.chan.fd] <= {In, Pri, Out}
  {
  }

  // ----- what the handlers do -----

  lemma InputDispatched<C>(s: Conn<C>, read: Option<string>, ops: seq<Op>, budget: Option<nat>)
    ensures Next(s, Dispatch({In}, read, ops, budget)) == Called(s, OnRead, read, ops, None)
  {
    DispatchUnfolds(s, {In}, read, ops, budget);
    assert In in {In} * {In, Pri, Hup};
  }

  /** A read that fails changes nothing, so the connection stays as it is. */
  lemma FailedReadIsHarmless<C>(s: Conn<C>, ops: seq<Op>, budget: Option<nat>)
    requires Good(s) && s.chan.status == Old
    ensures Next(s, Dispatch({In}, None, ops, budget)) == s
  {
    InputDispatched(s, None, ops, budget);
  }

  /** Bytes that are read are put behind the unread ones, for the message callback to take. */
  lemma InputArrives<C>(s: Conn<C>, text: string, budget: Option<nat>)
    requires Good(s) && s.chan.status == Old && text != ""
    ensures Next(s, Dispatch({In}, Some(text), [], budget)) ==
            s.(inp := s.inp + text, received := s.received + text)
    ensures forall k :: 0 <= k <= |s.inp + text| ==>
              var n := Next(s, Dispatch({In}, Some(text), [Consume(k)], budget));
              n.inp == (s.inp + text)[k..] && n.consumed == s.consumed + (s.inp + text)[..k]
  {
    InputDispatched(s, Some(text), [], budget);
    var s1 := s.(inp := s.inp + text, received := s.received + text);
    forall k | 0 <= k <= |s.inp + text|
      ensures var n := Next(s, Dispatch({In}, Some(text), [Consume(k)], budget));
              n.inp == (s.inp + text)[k..] && n.consumed == s.consumed + (s.inp + text)[..k]
    {
      InputDispatched(s, Some(text), [Consume(k)], budget);
      assert [Consume(k)][1..] == [];
      assert DoAll(s1, [Consume(k)]) == Do(s1, Consume(k));
    }
  }

  /** Over all masks, a dispatch whose message callback makes no call closes the connection exactly
      when POLLHUP comes without POLLIN or a read is due and reports the end of the stream. */
  lemma ClosesIff<C>(s: Conn<C>, revents: set<Flag>, read: Option<string>, budget: Option<nat>)
    requires Good(s) && Legal(s, Dispatch(revents, read, [], budget))
    ensures var n := Next(s, Dispatch(revents, read, [], budget));
            var closes := (Hup in revents && In !in revents)
                          || ((In in revents || Pri in revents || Hup in revents) && read == Some(""));
            && n.closes == (if closes then 1 else 0) && s.closes == 0
            && (n.status == if closes then Disconnected else s.status)
  {
    DispatchUnfolds(s, revents, read, [], budget);
    var due := In in revents || Pri in revents || Hup in revents;
    assert due <==> revents * {In, Pri, Hup} != {} by {
      if due {
        assert (if In in revents then In else if Pri in revents then Pri else Hup) in revents * {In, Pri, Hup};
      }
    }
    var c := if Hup in revents && In !in revents then CloseHandled(s) else s;
    CloseKeeps(s);
    ReadKeeps(c, read, []);
    var r := if due then Called(c, OnRead, read, [], None) else c;
    ReadCloses(c, read);
    WriteKeeps(r, budget);
    WriteCloses(r, budget);
  }

  lemma ReadCloses<C>(s: Conn<C>, read: Option<string>)
    requires Good(s) && (read == Some("") ==> s.Open())
    ensures var n := Called(s, OnRead, read, [], None);
            if read == Some("") then n.closes == 1 && n.status == Disconnected
            else n.closes == s.closes && n.status == s.status
  {
    if read == Some("") {
      CloseKeeps(s);
    }
  }

  lemma WriteCloses<C>(s: Conn<C>, budget: Option<nat>)
    ensures WriteHandled(s, budget).closes == s.closes
  {
  }

  /** `force_close` closes an open connection and does nothing to another. */
  lemma ForceCloseCloses<C>(s: Conn<C>)
    requires Good(s)
    ensures s.Open() ==> ForceClosed(s).status == Disconnected && ForceClosed(s).closes == 1
    ensures !s.Open() ==> ForceClosed(s) == s
  {
    if s.Open() {
      CloseKeeps(s);
    }
  }

  /** A write takes what the socket accepts at once: a direct one from the message, the rest being
      buffered, and a write event from the buffer. */
  lemma WritesWhatIsTaken<C>(s: Conn<C>, msg: string, taken: nat)
    requires Good(s) && s.status == Connected
    ensures s.out == "" && taken <= |msg| ==>
              Sent(s, msg, Some(taken)).wire == s.wire + msg[..taken] && Sent(s, msg, Some(taken)).out == msg[taken..]
    ensures s.out != "" ==> forall budget: Option<nat> ::
                              Sent(s, msg, budget).wire == s.wire && Sent(s, msg, budget).out == s.out + msg
    ensures s.out != "" && taken <= |s.out| ==>
              WriteHandled(s, Some(taken)).wire == s.wire + s.out[..taken]
              && WriteHandled(s, Some(taken)).out == s.out[taken..]
  {
    WritingIffOutput(s);
    assert s.wire + s.out[..0] == s.wire && s.out[0..] == s.out;
    assert s.wire + msg[..0] == s.wire && msg[0..] == msg;
  }

  /** A send that was queued while the connection was connected may reach it half-closed. Running it
      then keeps the guarantees exactly if output is still buffered or the direct write fails:
      otherwise bytes follow the shutdown of the socket. */
  lemma LateSendBreaksIff<C>(s: Conn<C>, msg: string, budget: Option<nat>)
    requires Good(s) && s.status == Disconnecting && msg != ""
    ensures Good(SendInLoop(s, msg, budget)) <==> s.out != "" || budget.None?
    ensures s.out != "" ==> SendInLoop(s, msg, budget).accepted == s.accepted + msg
    ensures s.out == "" && budget.Some? ==>
              s.shutdowns == [|s.accepted|] && SendInLoop(s, msg, budget).accepted == s.accepted + msg
  {
    WritingIffOutput(s);
    if s.out != "" {
      LateQueued(s, msg);
    } else {
      assert s.wire + "" == s.wire == s.accepted;
      LateDirect(s, msg, budget);
    }
  }

  lemma LateQueued<C>(s: Conn<C>, msg: string)
    requires Good(s) && s.status == Disconnecting && s.out != "" && s.Writing()
    ensures forall budget: Option<nat> :: SendInLoop(s, msg, budget) == s.(out := s.out + msg, accepted := s.accepted + msg)
    ensures Good(s.(out := s.out + msg, accepted := s.accepted + msg))
  {
    assert s.wire + msg[..0] == s.wire && msg[0..] == msg;
    assert s.wire + (s.out + msg) == s.wire + s.out + msg;
  }

  lemma LateDirect<C>(s: Conn<C>, msg: string, budget: Option<nat>)
    requires Good(s) && s.status == Disconnecting && s.out == "" && !s.Writing() && msg != ""
    ensures var n := SendInLoop(s, msg, budget);
            if budget.None? then n == s
            else n.accepted == s.accepted + msg && n.shutdowns == s.shutdowns && (n.out != "" || n.wire == s.wire + msg)
  {
    var k := Written(budget, |msg|);
    assert k == |msg| ==> msg[..k] == msg;
    assert 0 <= k < |msg| ==> "" + msg[k..] != "";
  }

  /** Closing takes the descriptor out of the kernel's set and, if the connection is destroyed at
      once, out of the poller's map, so that it can be used again. Other descriptors stay. */
  lemma DescriptorFreed<C>(s: Conn<C>)
    requires Good(s) && s.Open()
    ensures var n := CloseHandled(s);
            && n.reg.kernel == s.reg.kernel - {s.chan.fd}
            && n.reg.byFd == (if s.inlineDestroy then s.reg.byFd - {s.chan.fd} else s.reg.byFd)
            && n.chan.status == (if s.inlineDestroy then New else Del)
  {
  }

  /** Destroying a connection in a state where it may be frees the descriptor too. */
  lemma DestroyFrees<C>(s: Conn<C>)
    requires Good(s) && Legal(s, Destroy)
    ensures var n := Destroyed(s);
            && n.reg.byFd == s.reg.byFd - {s.chan.fd} && n.reg.kernel == s.reg.kernel - {s.chan.fd}
            && n.chan.status == New
  {
    if s.status == Connected {
      ClosedFrees(s.(status := Disconnected, conns := s.conns + 1));
    }
  }

  lemma ClosedFrees<C>(s: Conn<C>)
    requires ChanAgrees(s.reg, s.id, s.chan) && s.chan.status == Old
    ensures var n := WithEvents(s, {});
            && n.reg.byFd == s.reg.byFd && n.reg.kernel == s.reg.kernel - {s.chan.fd}
            && n.chan == Chan(s.chan.fd, Del, {}) && n.id == s.id && n.status == s.status
  {
  }

  lemma RunOne<C>(s: Conn<C>, e: Event)
    requires Legal(s, e)
    ensures LegalRun(s, [e]) && Run(s, [e]) == Next(s, e)
  {
    assert [e][1..] == [];
    var none: seq<Event> := [];
    assert LegalRun(Next(s, e), none) && Run(Next(s, e), none) == Next(s, e);
  }

  lemma RunTwo<C>(s: Conn<C>, e: Event, f: Event)
    requires Legal(s, e) && Legal(Next(s, e), f)
    ensures LegalRun(s, [e, f]) && Run(s, [e, f]) == Next(Next(s, e), f)
  {
    assert [e, f][1..] == [f];
    RunOne(Next(s, e), f);
  }

  lemma NewIsGood<C>(s: Conn<C>)
    requires IsNew(s)
    ensures Good(s) && Good(Established(s)) && Established(s).Open() && Established(s).chan.status == Old
  {
    NextKeeps(s, Establish);
  }

  /** Both failures can be reached from every new connection: destroying it once it is half-closed,
      and POLLHUP without POLLIN once it is established. */
  lemma FailuresAreReachable<C>(s: Conn<C>)
    requires IsNew(s)
    ensures LegalRun(s, [Establish, User(Shutdown)])
    ensures Next(Run(s, [Establish, User(Shutdown)]), Destroy).broken
    ensures LegalRun(s, [Establish])
    ensures Next(Run(s, [Establish]), Dispatch({Hup}, Some(""), [], None)).broken
  {
    var e := Established(s);
    NewIsGood(s);
    RunOne(s, Establish);
    RunTwo(s, Establish, User(Shutdown));
    ShutdownKeeps(e);
    DestroyBreaksIff(ShutDown(e));
    DispatchBreaksIff(e, {Hup}, Some(""), [], None);
  }

  /** A send is followed by the write-complete notification exactly when one is set and a direct
      write takes the whole message. */
  lemma NotifiedIff<C>(s: Conn<C>, msg: string, budget: Option<nat>)
    requires Good(s)
    ensures Sent(s, msg, budget).notified ==
            s.notified + if s.notifies && s.status == Connected && s.out == "" && budget.Some? && budget.value >= |msg|
                         then 1 else 0
  {
    if s.status == Connected {
      WritingIffOutput(s);
    }
  }

  /** Nothing else is: neither another call nor a handler notifies, and in particular not the one
      that writes the last buffered byte. */
  lemma OnlySendNotifies<C>(s: Conn<C>, op: Op, cb: Callback, read: Option<string>, budget: Option<nat>)
    ensures !op.Send? ==> Do(s, op).notified == s.notified
    ensures Called(s, cb, read, [], budget).notified == s.notified
  {
  }

  /** A message that is not written whole at once is never reported: when write events complete it
      later, no notification has run. */
  lemma BufferedNeverNotified<C>(s: Conn<C>, msg: string, budget: Option<nat>, budgets: seq<nat>)
    requires Good(s) && s.status == Connected && (s.out != "" || (budget.Some? && budget.value < |msg|))
    requires |budgets| >= |s.out| + |msg| && forall i :: 0 <= i < |budgets| ==> budgets[i] > 0
    ensures var r := WriteAll(Sent(s, msg, budget), budgets);
            r.wire == s.accepted + msg && r.notified == s.notified
  {
    SentInPart(s, msg, budget);
    Drains(Sent(s, msg, budget), budgets);
  }

  lemma SentInPart<C>(s: Conn<C>, msg: string, budget: Option<nat>)
    requires Good(s) && s.status == Connected && (s.out != "" || (budget.Some? && budget.value < |msg|))
    ensures var n := Sent(s, msg, budget);
            && Good(n) && n.status == Connected && |n.out| <= |s.out| + |msg|
            && n.accepted == s.accepted + msg && n.notified == s.notified
  {
    WritingIffOutput(s);
    SendKeeps(s, msg, budget);
  }

  function WriteAll<C>(s: Conn<C>, budgets: seq<nat>): Conn<C>
    decreases |budgets|
  {
    if budgets == [] then s else WriteAll(WriteHandled(s, Some(budgets[0])), budgets[1..])
  }

  /** An open connection whose socket keeps taking at least one byte at a time writes all its
      output, and nothing but the output. */
  lemma {:induction false} Drains<C>(s: Conn<C>, budgets: seq<nat>)
    requires Good(s) && s.Open()
    requires |budgets| >= |s.out| && forall i :: 0 <= i < |budgets| ==> budgets[i] > 0
    ensures var r := WriteAll(s, budgets);
            Good(r) && r.status == s.status && r.out == "" && r.wire == s.accepted && r.notified == s.notified
    decreases |budgets|
  {
    WritingIffOutput(s);
    if budgets == [] {
      assert s.wire + "" == s.wire;
    } else {
      WriteKeeps(s, Some(budgets[0]));
      Drains(WriteHandled(s, Some(budgets[0])), budgets[1..]);
    }
  }

  /** A half-closed connection then shuts the socket down, after everything it accepted. */
  lemma DrainsThenShutsDown<C>(s: Conn<C>, budgets: seq<nat>)
    requires Good(s) && s.status == Disconnecting
    requires |budgets| >= |s.out| && forall i :: 0 <= i < |budgets| ==> budgets[i] > 0
    ensures WriteAll(s, budgets).wire == s.accepted
    ensures WriteAll(s, budgets).shutdowns == [|s.accepted|]
  {
    Drains(s, budgets);
    var r := WriteAll(s, budgets);
    assert Streams(r) && |r.shutdowns| == 1 && r.shutdowns[0] == |r.wire|;
  }

  // ----- the classes -----

  /** The sending side of a socket. */
  class Socket {
    var wire: string
    var shutdowns: seq<nat>

    constructor ()
      ensures wire == "" && shutdowns == []
    {
      wire, shutdowns := "", [];
    }

    method Write(msg: string, budget: Option<nat>) returns (n: int)
      modifies this`wire
      ensures n == Written(budget, |msg|)
      ensures wire == if n < 0 then old(wire) else old(wire) + msg[..n]
    {
      n := Written(budget, |msg|);
      if n >= 0 {
        wire := wire + msg[..n];
      }
    }

    method Shutdown()
      modifies this`shutdowns
      ensures shutdowns == old(shutdowns) + [|wire|]
    {
      shutdowns := shutdowns + [|wire|];
    }
  }

  class TcpConnection {
    var status: ConnStatus
    const socket: Socket
    const channel: Channel
    const poller: EpollPoller
    const output: RingBuffers.RingBuffer
    const input: RingBuffers.RingBuffer
    const inlineDestroy: bool
    // what `send` took over, the runs of the close callback, and what was read and consumed
    var accepted: string
    var closes: nat
    var received: string
    var consumed: string
    // the runs of the write-complete callback, if there is one, and of the connection callback
    const notifies: bool
    var notified: nat
    var conns: nat

    ghost predicate Valid()
      reads output, input
    {
      && output != input && output.buffer != input.buffer
      && output.Valid() && output.readStart >= RingBuffers.PREPEND
      && input.Valid() && input.readStart >= RingBuffers.PREPEND
    }

    ghost function View(): Conn<Channel>
      requires output.Valid() && input.Valid()
      reads this, socket, channel, poller, output, output.buffer, input, input.buffer
    {
      Conn(status, channel, channel.View(), poller.View(), inlineDestroy, output.View().data, socket.wire,
           accepted, socket.shutdowns, closes, input.View().data, received, consumed, notifies, notified, conns, false)
    }

    constructor (fd: int, poller: EpollPoller, inlineDestroy: bool, notifies: bool)
      requires fd !in poller.channels && fd !in poller.kernel && poller.faults == 0
      ensures Valid() && IsNew(View())
      ensures this.poller == poller && this.inlineDestroy == inlineDestroy && this.notifies == notifies
      ensures channel.fd == fd
      ensures fresh(socket) && fresh(channel) && fresh(output) && fresh(input)
      ensures fresh(output.buffer) && fresh(input.buffer)
    {
      status := Connecting;
      socket := new Socket();
      channel := new Channel(fd);
      this.poller := poller;
      output := new RingBuffers.RingBuffer(1024);
      input := new RingBuffers.RingBuffer(1024);
      this.inlineDestroy := inlineDestroy;
      this.notifies := notifies;
      accepted, closes, received, consumed, notified, conns := "", 0, "", "", 0, 0;
    }

    method ShutdownRunInLoop()
      requires Valid()
      modifies socket
      ensures output.Valid() && input.Valid() && View() == ShutdownInLoop(old(View()))
    {
      if !channel.IsWriting() {
        socket.Shutdown();
      }
    }

    method Shutdown()
      requires Valid() && Good(View())
      modifies this, socket
      ensures Valid() && View() == ShutDown(old(View()))
    {
      if status == Connected {
        status := Disconnecting;
        ShutdownRunInLoop();
      }
    }

    method Send(msg: string, budget: Option<nat>)
      requires Valid() && Good(View())
      modifies this, socket, channel, poller, output, output.buffer
      ensures Valid() && View() == Sent(old(View()), msg, budget)
      ensures output.buffer == old(output.buffer) || fresh(output.buffer)
    {
      if status == Connected {
        MayAwaitWrite(View());
        SendRunInLoop(msg, budget);
      }
    }

    /** The poller must accept write interest: by `MayAwaitWrite` it does for every connection that
        is not closed, so also when the send was queued and the connection is half-closed by now. */
    method SendRunInLoop(msg: string, budget: Option<nat>)
      requires Valid()
      requires status != Disconnected ==>
                 UpdateAsserts(poller.View(), channel.View().(events := channel.events + WRITE_EVENT))
      modifies this, socket, channel, poller, output, output.buffer
      ensures Valid() && View() == SendInLoop(old(View()), msg, budget)
      ensures output.buffer == old(output.buffer) || fresh(output.buffer)
    {
      if status == Disconnected {
        return;
      }
      var nwrote := TryWrite(msg, budget);
      if nwrote >= 0 {
        accepted := accepted + msg;
        if nwrote < |msg| {
          QueueRest(msg[nwrote..]);
        }
      }
    }

    /** The direct write, tried only when nothing is buffered and no write event is awaited, and
        the notification when it takes the whole message. */
    method TryWrite(msg: string, budget: Option<nat>) returns (n: int)
      requires Valid()
      modifies this`notified, socket
      ensures var direct := !old(View()).Writing() && old(View()).out == "";
              && n == (if direct then Written(budget, |msg|) else 0)
              && View() == old(View()).(
                           wire := if n < 0 then old(View()).wire else old(View()).wire + msg[..n],
                           notified := old(notified) + if direct && n == |msg| && notifies then 1 else 0)
    {
      n := 0;
      if !channel.IsWriting() && output.ReadSize() == 0 {
        n := socket.Write(msg, budget);
        if n == |msg| && notifies {
          notified := notified + 1;
        }
      }
    }

    method QueueRest(rest: string)
      requires Valid() && UpdateAsserts(poller.View(), channel.View().(events := channel.events + WRITE_EVENT))
      modifies this, channel, poller, output, output.buffer
      ensures Valid()
      ensures var s := old(View()).(out := old(View()).out + rest);
              View() == if s.Writing() then s else WithEvents(s, s.chan.events + WRITE_EVENT)
      ensures output.buffer == old(output.buffer) || fresh(output.buffer)
    {
      Buffer(rest);
      if !channel.IsWriting() {
        channel.EnableWrite(poller);
      }
    }

    method Buffer(rest: string)
      requires output.Valid() && input.Valid() && output.readStart >= RingBuffers.PREPEND
      requires output != input && output.buffer != input.buffer
      modifies output, output.buffer
      ensures output.Valid() && input.Valid() && output.readStart >= RingBuffers.PREPEND
      ensures output.buffer != input.buffer
      ensures output.buffer == old(output.buffer) || fresh(output.buffer)
      ensures View() == old(View()).(out := old(View()).out + rest)
    {
      RingBuffers.NextBound(output.View(), RingBuffers.AppendOp(rest));
      output.Append(rest);
    }

    method HandleWrite(budget: Option<nat>)
      requires Valid() && Good(View())
      modifies this, socket, channel, poller, output
      ensures Valid() && View() == WriteHandled(old(View()), budget)
      ensures output.buffer == old(output.buffer)
    {
      if channel.IsWriting() {
        var n := socket.Write(output.Readable(), budget);
        if n > 0 {
          output.ReadSkip(n);
          if output.ReadSize() == 0 {
            channel.DisableWrite(poller);
            if status == Disconnecting {
              ShutdownRunInLoop();
            }
          }
        }
      }
    }

    method HandleClose()
      requires Valid() && Good(View()) && View().Open()
      modifies this, channel, poller
      ensures Valid() && View() == CloseHandled(old(View()))
    {
      status := Disconnected;
      channel.DisableAll(poller);
      conns := conns + 1;
      closes := closes + 1;
      if inlineDestroy {
        channel.Detach(poller);
      }
    }

    method ForceClose()
      requires Valid() && Good(View())
      modifies this, channel, poller
      ensures Valid() && View() == ForceClosed(old(View()))
    {
      if status == Connected || status == Disconnecting {
        HandleClose();
      }
    }

    /** `deliver` says that the message callback is due. */
    method HandleRead(incoming: Option<string>) returns (deliver: bool)
      requires Valid() && Good(View()) && (incoming == Some("") ==> View().Open())
      requires incoming.Some? ==> |incoming.value| <= RingBuffers.ReadLimit(input.View())
      modifies this, channel, poller, input, input.buffer
      ensures Valid() && View() == ReadHandled(old(View()), incoming)
      ensures deliver <==> incoming.Some? && incoming.value != ""
      ensures input.buffer == old(input.buffer) || fresh(input.buffer)
    {
      if incoming.Some? {
        RingBuffers.NextBound(input.View(), RingBuffers.ReadFdOp(incoming.value));
        RingBuffers.NextRefines(input.View(), RingBuffers.ReadFdOp(incoming.value));
      }
      var n := input.ReadFromFd(incoming);
      deliver := n > 0;
      if n > 0 {
        received := received + incoming.value;
      } else if n == 0 {
        assert old(View()).inp + incoming.value == old(View()).inp;
        HandleClose();
      }
    }

    method ConnectEstablished()
      requires Valid() && Good(View()) && status == Connecting
      modifies this, channel, poller
      ensures Valid() && View() == Established(old(View()))
    {
      status := Connected;
      channel.EnableRead(poller);
      conns := conns + 1;
    }

    method ConnectDestroy()
      requires Valid() && Good(View()) && Legal(View(), Destroy)
      modifies this, channel, poller
      ensures Valid() && View() == Destroyed(old(View()))
    {
      if status == Connected {
        status := Disconnected;
        channel.DisableAll(poller);
        conns := conns + 1;
      }
      channel.Detach(poller);
    }
  }
}
