/** Runs of the poller over any number of channels: creation, event changes and removal. */
module PollerRuns {

  import opened Polling

  type Cid = nat

  datatype Poller = Poller(chans: map<Cid, Chan>, reg: Registry<Cid>)

  datatype Event =
    | Create(c: Cid, fd: int)
    | SetEvents(c: Cid, events: set<Flag>)
    | Remove(c: Cid)

  /** What the source asserts of a call. */
  predicate Asserted(s: Poller, e: Event) {
    match e
    case Create(c, _) => c !in s.chans
    case SetEvents(c, events) => c in s.chans && UpdateAsserts(s.reg, s.chans[c].(events := events))
    case Remove(c) => c in s.chans && RemoveAsserts(s.reg, c, s.chans[c])
  }

  function Next(s: Poller, e: Event): Poller
    requires Asserted(s, e)
  {
    match e
    case Create(c, fd) => s.(chans := s.chans[c := Chan(fd, New, {})])
    case SetEvents(c, events) =>
      var (r, ch) := Updated(s.reg, c, s.chans[c].(events := events));
      Poller(s.chans[c := ch], r)
    case Remove(c) =>
      var (r, ch) := Removed(s.reg, s.chans[c]);
      Poller(s.chans[c := ch], r)
  }

  ghost predicate Agreement(s: Poller) {
    && (forall c :: c in s.chans ==> ChanAgrees(s.reg, c, s.chans[c]))
    && (forall fd :: fd in s.reg.byFd ==> s.reg.byFd[fd] in s.chans && s.chans[s.reg.byFd[fd]].fd == fd)
    && (forall fd :: fd in s.reg.kernel ==> fd in s.reg.byFd)
    && s.reg.faults == 0
  }

  /** No update of a channel whose events were all disabled. */
  predicate Legal(s: Poller, e: Event) {
    Asserted(s, e) && (e.SetEvents? ==> s.chans[e.c].status != Del)
  }

  lemma NextKeeps(s: Poller, e: Event)
    requires Agreement(s) && Legal(s, e)
    ensures Agreement(Next(s, e))
  {
    var n := Next(s, e);
    assert ChanAgrees(n.reg, e.c, n.chans[e.c]) by {
      if e.SetEvents? {
        assert ChanAgrees(s.reg, e.c, s.chans[e.c]);
      }
    }
    forall c | c in n.chans && c != e.c
      ensures ChanAgrees(n.reg, c, n.chans[c])
    {
      assert ChanAgrees(s.reg, c, s.chans[c]);
    }
  }

  ghost predicate LegalRun(s: Poller, es: seq<Event>)
    decreases |es|
  {
    es == [] || (Legal(s, es[0]) && LegalRun(Next(s, es[0]), es[1..]))
  }

  ghost function Run(s: Poller, es: seq<Event>): Poller
    requires LegalRun(s, es)
    decreases |es|
  {
    if es == [] then s else Run(Next(s, es[0]), es[1..])
  }

  lemma RunCons(s: Poller, e: Event, rest: seq<Event>)
    requires Legal(s, e) && LegalRun(Next(s, e), rest)
    ensures LegalRun(s, [e] + rest) && Run(s, [e] + rest) == Run(Next(s, e), rest)
  {
    assert ([e] + rest)[1..] == rest;
  }

  const EMPTY := Poller(map[], Registry(map[], map[], 0))

  lemma {:induction false} AgreementKept(s: Poller, es: seq<Event>)
    requires Agreement(s) && LegalRun(s, es)
    ensures Agreement(Run(s, es))
    decreases |es|
  {
    if es != [] {
      NextKeeps(s, es[0]);
      AgreementKept(Next(s, es[0]), es[1..]);
    }
  }

  /** On every run without an update of an `s_del` channel, status, map and kernel set agree for
      every channel, and no `epoll_ctl` call has failed. */
  lemma RegistryAgreement(es: seq<Event>)
    requires LegalRun(EMPTY, es)
    ensures var s := Run(EMPTY, es);
            && s.reg.faults == 0
            && (forall c :: c in s.chans ==> ChanAgrees(s.reg, c, s.chans[c]))
            && (forall fd :: fd in s.reg.kernel ==>
                               fd in s.reg.byFd && s.reg.byFd[fd] in s.chans && s.chans[s.reg.byFd[fd]].status == Old)
  {
    AgreementKept(EMPTY, es);
    var s := Run(EMPTY, es);
    forall fd | fd in s.reg.kernel
      ensures s.chans[s.reg.byFd[fd]].status == Old
    {
      assert ChanAgrees(s.reg, s.reg.byFd[fd], s.chans[s.reg.byFd[fd]]);
    }
  }

  /** The hypothesis is exact: in any agreeing state, an asserted call fails in `epoll_ctl`
      precisely when it updates an `s_del` channel. */
  lemma FaultsIff(s: Poller, e: Event)
    requires Agreement(s) && Asserted(s, e)
    ensures Next(s, e).reg.faults > 0 <==> e.SetEvents? && s.chans[e.c].status == Del
  {
    if !e.Create? {
      assert ChanAgrees(s.reg, e.c, s.chans[e.c]);
    }
  }

  /** Channels that are not part of a call keep their registration. */
  lemma OthersUntouched(s: Poller, e: Event, c: Cid)
    requires Agreement(s) && Legal(s, e) && c in s.chans && c != e.c
    ensures var n := Next(s, e);
            && n.chans[c] == s.chans[c]
            && (s.chans[c].status == Old ==> s.chans[c].fd in n.reg.kernel
                                             && n.reg.kernel[s.chans[c].fd] == s.chans[c].events)
  {
    assert ChanAgrees(s.reg, c, s.chans[c]);
    NextKeeps(s, e);
    assert ChanAgrees(Next(s, e).reg, c, Next(s, e).chans[c]);
  }
}
