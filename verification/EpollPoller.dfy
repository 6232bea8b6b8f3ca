/** Channels (net/Channel.h, net/Channel.cc) and their registration with the kernel
    (net/EpollPoller.cc). The kernel's interest set is a map from descriptors to masks, and
    `epoll_ctl` fails on a duplicate or missing descriptor as the real call does. */
module Polling {

  /** The bits of an event mask. */
  datatype Flag = In | Pri | Out | Hup | Err | Nval

  const READ_EVENT: set<Flag> := {In, Pri}
  const WRITE_EVENT: set<Flag> := {Out}

  /** The registration status of a channel: `s_new`, `s_old`, `s_del`. */
  datatype Status = New | Old | Del

  datatype Chan = Chan(fd: int, status: Status, events: set<Flag>) {
    predicate IsReading() { events * READ_EVENT != {} }

    predicate IsWriting() { events * WRITE_EVENT != {} }
  }

  /** The poller's map, the kernel's interest set, and the number of failed `epoll_ctl` calls,
      each of which is fatal in the source. `C` identifies channels. */
  datatype Registry<C> = Registry(byFd: map<int, C>, kernel: map<int, set<Flag>>, faults: nat)

  datatype Command = CtlAdd | CtlMod | CtlDel

  function EpollCtl<C>(r: Registry<C>, cmd: Command, fd: int, mask: set<Flag>): Registry<C> {
    match cmd
    case CtlAdd =>
      if fd in r.kernel then r.(faults := r.faults + 1) else r.(kernel := r.kernel[fd := mask])
    case CtlMod =>
      if fd in r.kernel then r.(kernel := r.kernel[fd := mask]) else r.(faults := r.faults + 1)
    case CtlDel =>
      if fd in r.kernel then r.(kernel := r.kernel - {fd}) else r.(faults := r.faults + 1)
  }

  /** `epoll_ctl` fails on a descriptor that is there already or is missing, and then changes nothing;
      else exactly that descriptor's entry changes. */
  lemma CtlFails<C>(r: Registry<C>, cmd: Command, fd: int, mask: set<Flag>)
    ensures var n := EpollCtl(r, cmd, fd, mask);
            && n.byFd == r.byFd
            && (n.faults > r.faults <==> (cmd == CtlAdd) == (fd in r.kernel))
            && (n.faults > r.faults ==> n.kernel == r.kernel)
            && n.kernel - {fd} == r.kernel - {fd}
            && (n.faults == r.faults && cmd == CtlDel ==> fd !in n.kernel)
            && (n.faults == r.faults && cmd != CtlDel ==> fd in n.kernel && n.kernel[fd] == mask)
  {
  }

  /** The assertions of `update`. */
  predicate UpdateAsserts<C>(r: Registry<C>, ch: Chan) {
    && (ch.status == New ==> ch.fd !in r.byFd)
    && (ch.status == Old ==> ch.fd in r.byFd)
    && (ch.status == Del && ch.events == {} ==> ch.fd in r.byFd)
  }

  function Updated<C>(r: Registry<C>, c: C, ch: Chan): (Registry<C>, Chan) {
    var r1 := if ch.status == New then
                EpollCtl(r.(byFd := r.byFd[ch.fd := c]), CtlAdd, ch.fd, ch.events)
              else EpollCtl(r, CtlMod, ch.fd, ch.events);
    if ch.events == {} then (EpollCtl(r1, CtlDel, ch.fd, {}), ch.(status := Del))
    else (r1, ch.(status := Old))
  }

  /** The assertions of `remove`. */
  predicate RemoveAsserts<C(==)>(r: Registry<C>, c: C, ch: Chan) {
    ch.status != New && ch.fd in r.byFd && r.byFd[ch.fd] == c && ch.events == {}
  }

  function Removed<C>(r: Registry<C>, ch: Chan): (Registry<C>, Chan) {
    var r1 := r.(byFd := r.byFd - {ch.fd});
    (if ch.status == Old then EpollCtl(r1, CtlDel, ch.fd, ch.events) else r1, ch.(status := New))
  }

  /** A removed channel is neither in the map nor, if it still was, in the kernel's set, and it may be
      added again; no other descriptor is touched. */
  lemma RemovedIsGone<C>(r: Registry<C>, ch: Chan)
    requires ch.status == Old ==> ch.fd in r.kernel
    ensures var (n, c) := Removed(r, ch);
            && n.byFd == r.byFd - {ch.fd} && n.faults == r.faults && c == ch.(status := New)
            && n.kernel == if ch.status == Old then r.kernel - {ch.fd} else r.kernel
  {
  }

  /** What a channel's status says about the poller's map and the kernel's set. */
  predicate ChanAgrees<C(==)>(r: Registry<C>, c: C, ch: Chan) {
    match ch.status
    case New => ch.fd in r.byFd ==> r.byFd[ch.fd] != c
    case Old =>
      && ch.fd in r.byFd && r.byFd[ch.fd] == c
      && ch.fd in r.kernel && r.kernel[ch.fd] == ch.events != {}
    case Del =>
      ch.fd in r.byFd && r.byFd[ch.fd] == c && ch.fd !in r.kernel && ch.events == {}
  }

  // ----- dispatch -----

  datatype Callback = OnClose | OnError | OnRead | OnWrite

  /** The callbacks `handle_event` runs for a mask, in order, given the ones that are set. */
  function Dispatched(revents: set<Flag>, bound: set<Callback>): seq<Callback> {
    (if Hup in revents && In !in revents && OnClose in bound then [OnClose] else [])
    + (if revents * {Nval, Err} != {} && OnError in bound then [OnError] else [])
    + (if revents * {In, Pri, Hup} != {} && OnRead in bound then [OnRead] else [])
    + (if Out in revents && OnWrite in bound then [OnWrite] else [])
  }

  /** A dispatch that runs the close callback runs the read callback too when one is set; a mask
      with POLLIN never runs the close callback. */
  lemma CloseAndRead(revents: set<Flag>, bound: set<Callback>)
    requires OnClose in bound && OnRead in bound
    ensures OnClose in Dispatched(revents, bound) <==> Hup in revents && In !in revents
    ensures OnClose in Dispatched(revents, bound) ==> OnRead in Dispatched(revents, bound)
  {
    if Hup in revents {
      assert Hup in revents * {In, Pri, Hup};
    }
  }

  class Channel {
    const fd: int
    var status: Status
    var events: set<Flag>

    constructor (fd: int)
      ensures View() == Chan(fd, New, {})
    {
      this.fd := fd;
      status, events := New, {};
    }

    function View(): Chan
      reads this
    {
      Chan(fd, status, events)
    }

    predicate IsReading()
      reads this
    {
      events * READ_EVENT != {}
    }

    predicate IsWriting()
      reads this
    {
      events * WRITE_EVENT != {}
    }

    method EnableRead(poller: EpollPoller)
      requires UpdateAsserts(poller.View(), View().(events := events + READ_EVENT))
      modifies this, poller
      ensures events == old(events) + {In, Pri}
      ensures (poller.View(), View()) ==
              Updated(old(poller.View()), this, old(View()).(events := old(events) + READ_EVENT))
    {
      events := events + READ_EVENT;
      poller.Update(this);
    }

    method EnableWrite(poller: EpollPoller)
      requires UpdateAsserts(poller.View(), View().(events := events + WRITE_EVENT))
      modifies this, poller
      ensures events == old(events) + {Out}
      ensures (poller.View(), View()) ==
              Updated(old(poller.View()), this, old(View()).(events := old(events) + WRITE_EVENT))
    {
      events := events + WRITE_EVENT;
      poller.Update(this);
    }

    method DisableWrite(poller: EpollPoller)
      requires UpdateAsserts(poller.View(), View().(events := events - WRITE_EVENT))
      modifies this, poller
      ensures events == old(events) - {Out}
      ensures (poller.View(), View()) ==
              Updated(old(poller.View()), this, old(View()).(events := old(events) - WRITE_EVENT))
    {
      events := events - WRITE_EVENT;
      poller.Update(this);
    }

    method DisableAll(poller: EpollPoller)
      requires UpdateAsserts(poller.View(), View().(events := {}))
      modifies this, poller
      ensures (poller.View(), View()) == Updated(old(poller.View()), this, old(View()).(events := {}))
    {
      events := {};
      poller.Update(this);
    }

    method Detach(poller: EpollPoller)
      requires RemoveAsserts(poller.View(), this, View())
      modifies this, poller
      ensures (poller.View(), View()) == Removed(old(poller.View()), old(View()))
    {
      poller.Remove(this);
    }

    /** The callbacks `handle_event` runs, in order. */
    method HandleEvent(revents: set<Flag>, bound: set<Callback>) returns (calls: seq<Callback>)
      ensures calls == Dispatched(revents, bound)
    {
      calls := [];
      if Hup in revents && In !in revents {
        if OnClose in bound {
          calls := calls + [OnClose];
        }
      }
      if Nval in revents || Err in revents {
        assert revents * {Nval, Err} != {} by {
          assert (if Err in revents then Err else Nval) in revents * {Nval, Err};
        }
        if OnError in bound {
          calls := calls + [OnError];
        }
      }
      if In in revents || Pri in revents || Hup in revents {
        assert revents * {In, Pri, Hup} != {} by {
          assert (if In in revents then In else if Pri in revents then Pri else Hup) in revents * {In, Pri, Hup};
        }
        if OnRead in bound {
          calls := calls + [OnRead];
        }
      }
      if Out in revents {
        if OnWrite in bound {
          calls := calls + [OnWrite];
        }
      }
    }
  }

  class EpollPoller {
    var channels: map<int, Channel>
    // the kernel's side
    var kernel: map<int, set<Flag>>
    var faults: nat

    constructor ()
      ensures View() == Registry(map[], map[], 0)
    {
      channels, kernel, faults := map[], map[], 0;
    }

    function View(): Registry<Channel>
      reads this
    {
      Registry(channels, kernel, faults)
    }

    method UpdateEpoll(cmd: Command, channel: Channel)
      modifies this
      ensures View() == EpollCtl(old(View()), cmd, channel.fd, channel.events)
    {
      var fd := channel.fd;
      match cmd {
        case CtlAdd =>
          if fd in kernel {
            faults := faults + 1;
          } else {
            kernel := kernel[fd := channel.events];
          }
        case CtlMod =>
          if fd in kernel {
            kernel := kernel[fd := channel.events];
          } else {
            faults := faults + 1;
          }
        case CtlDel =>
          if fd in kernel {
            kernel := kernel - {fd};
          } else {
            faults := faults + 1;
          }
      }
    }

    method Update(channel: Channel)
      requires UpdateAsserts(View(), channel.View())
      modifies this, channel`status
      ensures (View(), channel.View()) == Updated(old(View()), channel, old(channel.View()))
      ensures old(channel.status) == New || old(HasChannel(channel)) ==> HasChannel(channel)
    {
      var status := channel.status;
      if status == New {
        channels := channels[channel.fd := channel];
        UpdateEpoll(CtlAdd, channel);
        channel.status := Old;
      } else if status == Old {
        UpdateEpoll(CtlMod, channel);
      } else {
        UpdateEpoll(CtlMod, channel);
        channel.status := Old;
      }
      if channel.events == {} {
        UpdateEpoll(CtlDel, channel);
        channel.status := Del;
      }
    }

    method Remove(channel: Channel)
      requires RemoveAsserts(View(), channel, channel.View())
      modifies this, channel`status
      ensures (View(), channel.View()) == Removed(old(View()), old(channel.View()))
      ensures !HasChannel(channel)
    {
      var status := channel.status;
      channels := channels - {channel.fd};
      if status == Old {
        UpdateEpoll(CtlDel, channel);
      }
      channel.status := New;
    }

    predicate HasChannel(channel: Channel)
      reads this
    {
      channel.fd in channels && channels[channel.fd] == channel
    }
  }
}
