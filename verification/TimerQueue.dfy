/** The timer queue of net/TimerQueue.cc: two cross-linked indexes, a set of deferred
    cancellations and a one-shot timerfd. Expiration handling is split into its phases, so that
    callbacks may add and cancel timers in the middle of a batch. */
module Timers {

  import opened Common

  const KK: int := 1_000_000
  const MIN_DELAY: int := 100

  type Id = int

  datatype Timer = Timer(expiration: int, interval: int) {
    predicate Repeat() { interval != 0 }

    function Restarted(): Timer {
      if Repeat() then Timer(expiration + interval * KK, interval) else Timer(0, interval)
    }
  }

  /** The timerfd: `Armed` since some time for a deadline, or readable. */
  datatype TimerFd = Disarmed | Armed(deadline: int, since: int) | Pending

  /** Idle, or inside `handle_expiration`: running the callbacks of a batch, `next` being the next
      one, or putting its timers back. */
  datatype Phase = Idle | Running(batch: seq<Id>, next: nat) | Rearming(batch: seq<Id>, next: nat, added: bool)

  /** `timers` maps expirations to timers, which are named by their index; an iterator stored in
      `forDel` is named by its key. `heap` holds the timers that are allocated and `deleted` those
      that were deleted. `counter` is the id counter, which all queues share: `issued` holds the ids
      it gave to this queue. `ran` records each callback run with the number of its batch. */
  datatype Queue = Queue(
    clock: int, timers: map<int, Id>, forDel: map<Id, int>, willDel: set<Id>, handling: bool,
    heap: map<Id, Timer>, counter: nat, issued: set<Id>, fd: TimerFd, phase: Phase, batchNo: nat,
    ran: seq<(nat, Id)>, deleted: seq<Id>)
  {
    /** The timers of the current batch that are not yet put back or deleted. */
    function Rest(): seq<Id> {
      match phase
      case Idle => []
      case Running(batch, _) => batch
      case Rearming(batch, next, _) => if next <= |batch| then batch[next..] else []
    }
  }

  predicate IsLeast(s: set<int>, k: int) {
    k in s && forall j :: j in s ==> k <= j
  }

  lemma {:induction false} LeastExists(s: set<int>)
    requires s != {}
    ensures exists k :: IsLeast(s, k)
  {
    var x := Pick(s);
    if s == {x} {
      assert IsLeast(s, x);
    } else {
      var t := s - {x};
      assert s == t + {x};
      LeastExists(t);
      var k: int :| IsLeast(t, k);
      assert IsLeast(s, if x < k then x else k);
    }
  }

  /** `mc_timers.begin()->first`. */
  function MinKey(m: map<int, Id>): (k: int)
    requires m != map[]
    ensures IsLeast(m.Keys, k)
  {
    LeastExists(m.Keys);
    var k :| IsLeast(m.Keys, k);
    k
  }

  /** `reset_timefd_expiration`: relative to now, and at least 100 microseconds ahead. */
  function ArmFor(now: int, expiration: int): TimerFd {
    Armed(now + Max(expiration - now, MIN_DELAY), now)
  }

  /** Both insertions leave an entry that is already there as it is. */
  function Readded(s: Queue, id: Id): Queue
    requires id in s.heap
  {
    var key := s.heap[id].expiration;
    var first := if s.timers == map[] || key < MinKey(s.timers) then key else MinKey(s.timers);
    s.(timers := if key in s.timers then s.timers else s.timers[key := id],
       forDel := if id in s.forDel then s.forDel else s.forDel[id := key],
       fd := ArmFor(s.clock, first))
  }

  /** The conversion of a 64-bit delay to the `int` that holds the interval. */
  function Int32(v: int): int { (v + 0x8000_0000) % 0x1_0000_0000 - 0x8000_0000 }

  function NewTimer(clock: int, when: int, repeat: bool): Timer {
    Timer(clock + when * KK, if repeat then Int32(when) else 0)
  }

  function Added(s: Queue, when: int, repeat: bool): Queue {
    var id := s.counter + 1;
    Readded(s.(counter := id, issued := s.issued + {id}, heap := s.heap[id := NewTimer(s.clock, when, repeat)]), id)
  }

  function Cancelled(s: Queue, id: Id): Queue
    requires id in s.forDel ==> s.forDel[id] in s.timers
  {
    if id in s.forDel then
      var key := s.forDel[id];
      s.(heap := s.heap - {s.timers[key]}, deleted := s.deleted + [s.timers[key]],
         timers := s.timers - {key}, forDel := s.forDel - {id})
    else if s.handling then s.(willDel := s.willDel + {id})
    else s
  }

  /** The timers that expire strictly before `now`, earliest first. */
  function Expired(timers: map<int, Id>, now: int): seq<Id>
    decreases |timers|
  {
    if timers == map[] || MinKey(timers) >= now then []
    else
      var k := MinKey(timers);
      assert |(timers - {k}).Keys| < |timers.Keys| by { assert (timers - {k}).Keys == timers.Keys - {k}; }
      [timers[k]] + Expired(timers - {k}, now)
  }

  function Later(timers: map<int, Id>, now: int): map<int, Id> {
    map k | k in timers && k >= now :: timers[k]
  }

  function Without(m: map<Id, int>, ids: seq<Id>): map<Id, int> {
    map id | id in m && id !in ids :: m[id]
  }

  /** The start of `handle_expiration`, up to the return of `get_expired`. Reading a timerfd that
      is not readable fails and changes nothing. */
  function Extracted(s: Queue): Queue {
    var batch := Expired(s.timers, s.clock);
    s.(handling := true, fd := if s.fd == Pending then Disarmed else s.fd, phase := Running(batch, 0),
       batchNo := s.batchNo + 1, timers := Later(s.timers, s.clock), forDel := Without(s.forDel, batch))
  }

  /** One pass of the loop in `handle_interval`. */
  function Rearmed(s: Queue): Queue
    requires s.phase.Rearming? && s.phase.next < |s.phase.batch| && s.phase.batch[s.phase.next] in s.heap
  {
    var id := s.phase.batch[s.phase.next];
    var t := s.heap[id];
    var n := s.phase.next + 1;
    if t.Repeat() && id !in s.willDel then
      Readded(s.(heap := s.heap[id := t.Restarted()], phase := Rearming(s.phase.batch, n, true)), id)
    else
      s.(heap := s.heap - {id}, deleted := s.deleted + [id], phase := Rearming(s.phase.batch, n, s.phase.added))
  }

  function Returned(s: Queue): Queue
    requires s.phase.Rearming?
  {
    s.(phase := Idle,
       fd := if !s.phase.added && s.timers != map[] then ArmFor(s.clock, MinKey(s.timers)) else s.fd)
  }

  datatype Event =
    | Tick(to_: int)
    | Elsewhere(counter: nat)
    | Add(when: int, repeat: bool)
    | Cancel(id: Id)
    | Expire
    | RunNext
    | EndRun
    | RearmNext
    | Return

  predicate Between(s: Queue) { s.phase == Idle || s.phase.Running? }

  /** The steps of the loop thread, with the hypothesis that a timer is never inserted under an
      expiration that is already a key. */
  predicate Legal(s: Queue, e: Event) {
    match e
    case Tick(t) => s.clock <= t
    case Elsewhere(counter) => s.counter <= counter
    case Add(when, _) => Between(s) && s.clock + when * KK !in s.timers
    case Cancel(id) => Between(s) && (id in s.forDel ==> s.forDel[id] in s.timers)
    case Expire => s.phase == Idle
    case RunNext => s.phase.Running? && s.phase.next < |s.phase.batch|
    case EndRun => s.phase.Running? && s.phase.next == |s.phase.batch|
    case RearmNext =>
      && s.phase.Rearming? && s.phase.next < |s.phase.batch|
      && var id := s.phase.batch[s.phase.next];
      && id in s.heap
      && (s.heap[id].Repeat() && id !in s.willDel ==> s.heap[id].Restarted().expiration !in s.timers)
    case Return => s.phase.Rearming? && s.phase.next == |s.phase.batch|
  }

  function Next(s: Queue, e: Event): Queue
    requires Legal(s, e)
  {
    match e
    case Tick(t) => s.(clock := t, fd := if s.fd.Armed? && s.fd.deadline <= t then Pending else s.fd)
    case Elsewhere(counter) => s.(counter := counter)
    case Add(when, repeat) => Added(s, when, repeat)
    case Cancel(id) => Cancelled(s, id)
    case Expire => Extracted(s)
    case RunNext =>
      s.(phase := Running(s.phase.batch, s.phase.next + 1), ran := s.ran + [(s.batchNo, s.phase.batch[s.phase.next])])
    case EndRun => s.(handling := false, phase := Rearming(s.phase.batch, 0, false))
    case RearmNext => Rearmed(s)
    case Return => Returned(s)
  }

  // ----- index agreement and ownership -----

  /** The two indexes are inverse to each other and every key is its timer's expiration. */
  ghost predicate Indexed(s: Queue) {
    && (forall id :: id in s.forDel ==>
                       && s.forDel[id] in s.timers && s.timers[s.forDel[id]] == id
                       && id in s.heap && s.heap[id].expiration == s.forDel[id])
    && (forall k :: k in s.timers ==> s.timers[k] in s.forDel && s.forDel[s.timers[k]] == k)
  }

  predicate NoDup(q: seq<Id>) {
    forall i, j :: 0 <= i < j < |q| ==> q[i] != q[j]
  }

  /** Every id issued so far is exactly one of waiting, in the current batch, or deleted once;
      the allocated timers are the first two kinds. */
  ghost predicate Partition(heap: set<Id>, waiting: set<Id>, rest: seq<Id>, deleted: seq<Id>, issued: set<Id>) {
    && NoDup(rest) && NoDup(deleted)
    && (forall id :: id in heap <==> id in waiting || id in rest)
    && (forall id :: id in waiting ==> id !in rest)
    && (forall id :: id in issued <==> id in heap || id in deleted)
    && (forall id :: id in heap ==> id !in deleted)
  }

  ghost predicate Owned(s: Queue) {
    && Partition(s.heap.Keys, s.forDel.Keys, s.Rest(), s.deleted, s.issued)
    && (forall id :: id in s.issued ==> 1 <= id <= s.counter)
  }

  /** Outside `handle_expiration` the timerfd is readable or armed for no later than the earliest
      expiration, up to the clamp at the time it was armed. */
  ghost predicate Watched(s: Queue) {
    && (s.fd.Armed? ==> s.fd.since <= s.clock)
    && (s.handling <==> s.phase.Running?)
    && (s.phase == Idle && s.timers != map[] ==>
          s.fd == Pending || (s.fd.Armed? && s.fd.deadline <= Max(MinKey(s.timers), s.fd.since + MIN_DELAY)))
    && (s.phase.Rearming? && s.phase.added ==> s.timers != map[] && ExactlyWatched(s))
    && (s.phase.Running? || s.phase.Rearming? ==> s.phase.next <= |s.phase.batch|)
  }

  ghost predicate ExactlyWatched(s: Queue)
    requires s.timers != map[]
  {
    s.fd == Pending || (s.fd.Armed? && s.fd.deadline == Max(MinKey(s.timers), s.fd.since + MIN_DELAY))
  }

  ghost predicate Inv(s: Queue) { Indexed(s) && Owned(s) && Watched(s) }

  /** Adding an entry can only lower the least key to the one added. */
  lemma MinKeyAdd(m: map<int, Id>, key: int, id: Id)
    requires key !in m
    ensures key in m[key := id]
    ensures MinKey(m[key := id]) == if m == map[] || key < MinKey(m) then key else MinKey(m)
  {
    var least := if m == map[] || key < MinKey(m) then key else MinKey(m);
    assert IsLeast(m[key := id].Keys, least);
  }

  /** Allocating, restarting or renaming a timer that does not wait leaves the indexes alone. */
  lemma IndexedFrame(s: Queue, id: Id, t: Timer)
    requires Indexed(s) && id !in s.forDel
    ensures Indexed(s.(heap := s.heap[id := t]))
  {
  }

  lemma ReaddedKeeps(s: Queue, id: Id)
    requires Indexed(s) && id in s.heap && id !in s.forDel && s.heap[id].expiration !in s.timers
    ensures var n := Readded(s, id);
            && Indexed(n) && n.timers != map[] && ExactlyWatched(n)
            && n.fd.Armed? && n.fd.since == s.clock
            && n.forDel == s.forDel[id := s.heap[id].expiration]
  {
    MinKeyAdd(s.timers, s.heap[id].expiration, id);
  }

  /** Re-inserting a timer keeps the indexes in agreement exactly when its expiration is not a key
      yet: otherwise the first insertion adds nothing and the second one does. */
  lemma ReaddKeepsIndexIff(s: Queue, id: Id)
    requires Indexed(s) && id in s.heap && id !in s.forDel
    ensures Indexed(Readded(s, id)) <==> s.heap[id].expiration !in s.timers
  {
    if s.heap[id].expiration !in s.timers {
      ReaddedKeeps(s, id);
    } else {
      var n := Readded(s, id);
      assert id in n.forDel && n.timers[n.forDel[id]] != id;
    }
  }

  /** Two timers set for the same microsecond collide, and the size assertion of the next
      cancellation or expiration then fails. */
  lemma CollisionBreaksSizes(s: Queue, id: Id)
    requires Indexed(s) && |s.timers| == |s.forDel| && id in s.heap && id !in s.forDel
    requires s.heap[id].expiration in s.timers
    ensures |Readded(s, id).forDel| == |Readded(s, id).timers| + 1
  {
  }

  lemma {:induction false} InjectionFits(a: map<int, int>, b: map<int, int>)
    requires forall k :: k in a ==> a[k] in b && b[a[k]] == k
    ensures |a| <= |b|
    decreases |a|
  {
    if a != map[] {
      var k := Pick(a.Keys);
      Shrunk(a, k);
      Shrunk(b, a[k]);
      InjectionFits(a - {k}, b - {a[k]});
    }
  }

  lemma Shrunk(m: map<int, int>, k: int)
    requires k in m
    ensures |m - {k}| == |m| - 1
  {
    assert (m - {k}).Keys == m.Keys - {k};
  }

  /** The assertion `mc_timers_for_del.size() == mc_timers.size()`. */
  lemma SizesAgree(s: Queue)
    requires Indexed(s)
    ensures |s.forDel| == |s.timers|
  {
    InjectionFits(s.timers, s.forDel);
    InjectionFits(s.forDel, s.timers);
  }

  lemma PartitionAdd(heap: set<Id>, waiting: set<Id>, rest: seq<Id>, deleted: seq<Id>, issued: set<Id>, id: Id)
    requires Partition(heap, waiting, rest, deleted, issued) && id !in issued
    ensures id !in heap && id !in waiting
    ensures Partition(heap + {id}, waiting + {id}, rest, deleted, issued + {id})
  {
    assert id !in heap && id !in deleted;
  }

  lemma PartitionCancel(heap: set<Id>, waiting: set<Id>, rest: seq<Id>, deleted: seq<Id>, issued: set<Id>, id: Id)
    requires Partition(heap, waiting, rest, deleted, issued) && id in waiting
    ensures Partition(heap - {id}, waiting - {id}, rest, deleted + [id], issued)
  {
  }

  lemma AddKeeps(s: Queue, when: int, repeat: bool)
    requires Inv(s) && Legal(s, Add(when, repeat))
    ensures Inv(Added(s, when, repeat))
  {
    var id := s.counter + 1;
    PartitionAdd(s.heap.Keys, s.forDel.Keys, s.Rest(), s.deleted, s.issued, id);
    var s1 := s.(heap := s.heap[id := NewTimer(s.clock, when, repeat)], counter := id, issued := s.issued + {id});
    IndexedFrame(s, id, NewTimer(s.clock, when, repeat));
    ReaddedKeeps(s1, id);
    var n := Readded(s1, id);
    assert n.heap.Keys == s.heap.Keys + {id} && n.forDel.Keys == s.forDel.Keys + {id};
  }

  lemma CancelKeeps(s: Queue, id: Id)
    requires Inv(s) && Between(s)
    ensures Inv(Cancelled(s, id))
  {
    var n := Cancelled(s, id);
    if id in s.forDel {
      PartitionCancel(s.heap.Keys, s.forDel.Keys, s.Rest(), s.deleted, s.issued, id);
      assert n.heap.Keys == s.heap.Keys - {id} && n.forDel.Keys == s.forDel.Keys - {id};
      assert n.timers != map[] ==> MinKey(n.timers) in s.timers;
    }
  }

  predicate Due(timers: map<int, Id>, key: map<Id, int>, now: int, x: Id) {
    x in key && key[x] in timers && timers[key[x]] == x && key[x] < now
  }

  ghost predicate EarliestFirst(b: seq<Id>, key: map<Id, int>) {
    forall i, j :: 0 <= i < j < |b| ==> b[i] in key && b[j] in key && key[b[i]] < key[b[j]]
  }

  lemma {:induction false} ExpiredAreDue(timers: map<int, Id>, key: map<Id, int>, now: int)
    requires forall k :: k in timers ==> timers[k] in key && key[timers[k]] == k
    ensures forall i :: 0 <= i < |Expired(timers, now)| ==> Due(timers, key, now, Expired(timers, now)[i])
    ensures EarliestFirst(Expired(timers, now), key)
    decreases |timers|
  {
    if timers != map[] && MinKey(timers) < now {
      var k := MinKey(timers);
      Shrunk(timers, k);
      var rest := timers - {k};
      ExpiredAreDue(rest, key, now);
      var tail := Expired(rest, now);
      forall i | 0 <= i < |tail|
        ensures key[tail[i]] > k && Due(timers, key, now, tail[i])
      {
        assert Due(rest, key, now, tail[i]);
      }
      assert Due(timers, key, now, timers[k]);
    }
  }

  lemma {:induction false} DueAreExpired(timers: map<int, Id>, now: int, k: int)
    requires k in timers && k < now
    ensures timers[k] in Expired(timers, now)
    decreases |timers|
  {
    var least := MinKey(timers);
    assert k in timers.Keys;
    if k != least {
      Shrunk(timers, least);
      DueAreExpired(timers - {least}, now, k);
    }
  }

  /** The batch, in order: exactly the timers that expire before `now`, earliest first. */
  lemma ExpiredExactly(timers: map<int, Id>, key: map<Id, int>, now: int)
    requires forall k :: k in timers ==> timers[k] in key && key[timers[k]] == k
    ensures forall i :: 0 <= i < |Expired(timers, now)| ==> Due(timers, key, now, Expired(timers, now)[i])
    ensures forall k :: k in timers && k < now ==> timers[k] in Expired(timers, now)
    ensures EarliestFirst(Expired(timers, now), key)
  {
    ExpiredAreDue(timers, key, now);
    forall k | k in timers && k < now
      ensures timers[k] in Expired(timers, now)
    {
      DueAreExpired(timers, now, k);
    }
  }

  lemma ExpireKeeps(s: Queue)
    requires Inv(s) && s.phase == Idle
    ensures Inv(Extracted(s))
  {
    var batch, n := Expired(s.timers, s.clock), Extracted(s);
    ExpiredExactly(s.timers, s.forDel, s.clock);
    forall id | id in batch
      ensures id in s.forDel && s.forDel[id] < s.clock
    {
      var i :| 0 <= i < |batch| && batch[i] == id;
      assert Due(s.timers, s.forDel, s.clock, batch[i]);
    }
    assert forall id :: id in s.forDel && id !in batch ==> s.forDel[id] >= s.clock;
    PartitionExpire(s.heap.Keys, s.forDel.Keys, batch, s.deleted, s.issued);
    assert n.forDel.Keys == set id | id in s.forDel.Keys && id !in batch;
  }

  lemma PartitionExpire(heap: set<Id>, waiting: set<Id>, batch: seq<Id>, deleted: seq<Id>, issued: set<Id>)
    requires Partition(heap, waiting, [], deleted, issued)
    requires NoDup(batch) && forall id :: id in batch ==> id in waiting
    ensures Partition(heap, (set id | id in waiting && id !in batch), batch, deleted, issued)
  {
  }

  lemma PartitionRearm(heap: set<Id>, waiting: set<Id>, rest: seq<Id>, deleted: seq<Id>, issued: set<Id>)
    requires Partition(heap, waiting, rest, deleted, issued) && rest != []
    ensures rest[0] in heap && rest[0] !in waiting
    ensures Partition(heap, waiting + {rest[0]}, rest[1..], deleted, issued)
    ensures Partition(heap - {rest[0]}, waiting, rest[1..], deleted + [rest[0]], issued)
  {
    assert forall x :: x in rest <==> x == rest[0] || x in rest[1..];
    assert rest[0] !in rest[1..];
  }

  lemma RearmKeeps(s: Queue)
    requires Inv(s) && Legal(s, RearmNext)
    ensures Inv(Rearmed(s))
  {
    var id := s.phase.batch[s.phase.next];
    assert s.Rest()[0] == id && Rearmed(s).Rest() == s.Rest()[1..];
    PartitionRearm(s.heap.Keys, s.forDel.Keys, s.Rest(), s.deleted, s.issued);
    if s.heap[id].Repeat() && id !in s.willDel {
      PutBackKeeps(s, id);
    } else {
      assert Rearmed(s).heap.Keys == s.heap.Keys - {id};
    }
  }

  lemma PutBackKeeps(s: Queue, id: Id)
    requires Indexed(s) && Watched(s) && Legal(s, RearmNext)
    requires id == s.phase.batch[s.phase.next] && s.heap[id].Repeat() && id !in s.willDel && id !in s.forDel
    ensures var n := Rearmed(s);
            && Indexed(n) && Watched(n)
            && n.heap.Keys == s.heap.Keys && n.forDel.Keys == s.forDel.Keys + {id}
  {
    var t := s.heap[id].Restarted();
    IndexedFrame(s, id, t);
    ReaddedKeeps(s.(heap := s.heap[id := t]), id);
    assert s.heap[id := t].Keys == s.heap.Keys;
  }

  lemma NextKeeps(s: Queue, e: Event)
    requires Inv(s) && Legal(s, e)
    ensures Inv(Next(s, e))
  {
    match e
    case Tick(_) =>
    case Add(when, repeat) => AddKeeps(s, when, repeat);
    case Cancel(id) => CancelKeeps(s, id);
    case Expire => ExpireKeeps(s);
    case RearmNext => RearmKeeps(s);
    case EndRun => assert s.phase.batch[0..] == s.phase.batch;
    case _ =>
  }

  // ----- runs -----

  ghost predicate LegalRun(s: Queue, es: seq<Event>)
    decreases |es|
  {
    es == [] || (Legal(s, es[0]) && LegalRun(Next(s, es[0]), es[1..]))
  }

  ghost function Run(s: Queue, es: seq<Event>): Queue
    requires LegalRun(s, es)
    decreases |es|
  {
    if es == [] then s else Run(Next(s, es[0]), es[1..])
  }

  /** A new timer queue, with `mb_handling` false. */
  function Empty(clock: int): Queue {
    Queue(clock, map[], map[], {}, false, map[], 0, {}, Disarmed, Idle, 0, [], [])
  }

  lemma {:induction false} RunKeeps(s: Queue, es: seq<Event>)
    requires Inv(s) && LegalRun(s, es)
    ensures Inv(Run(s, es))
    decreases |es|
  {
    if es != [] {
      NextKeeps(s, es[0]);
      RunKeeps(Next(s, es[0]), es[1..]);
    }
  }

  /** Over every run of additions, cancellations and expirations, callbacks included, the indexes
      stay inverse and of equal size, every key is its timer's expiration, and every issued id is
      exactly one of waiting, in the current batch, or deleted once. */
  lemma IndexAgreement(clock: int, es: seq<Event>)
    requires LegalRun(Empty(clock), es)
    ensures var s := Run(Empty(clock), es);
            Indexed(s) && |s.timers| == |s.forDel| && Owned(s)
  {
    RunKeeps(Empty(clock), es);
    SizesAgree(Run(Empty(clock), es));
  }

  /** Beyond the phase, the only thing assumed of a reachable state is that an inserted expiration
      is not a key: iterators and batch entries are valid by the invariant. */
  lemma OnlyFreshnessAssumed(s: Queue, e: Event)
    requires Inv(s) && (e.Cancel? || e.RearmNext?)
    requires e.Cancel? ==> Between(s)
    requires e.RearmNext? ==> s.phase.Rearming? && s.phase.next < |s.phase.batch|
    ensures e.RearmNext? ==> s.phase.batch[s.phase.next] in s.heap
    ensures Legal(s, e) <==>
            (e.RearmNext? ==>
               var id := s.phase.batch[s.phase.next];
               s.heap[id].Repeat() && id !in s.willDel ==> s.heap[id].Restarted().expiration !in s.timers)
  {
    if e.RearmNext? {
      assert s.Rest()[0] == s.phase.batch[s.phase.next] && s.Rest()[0] in s.Rest();
    }
  }

  /** No timer is forgotten: outside `handle_expiration`, while a timer waits the timerfd is
      readable or armed for no later than the earliest expiration or, when that was closer, 100
      microseconds after it was armed, although cancelling never re-arms it. */
  lemma NoTimerForgotten(clock: int, es: seq<Event>)
    requires LegalRun(Empty(clock), es)
    ensures var s := Run(Empty(clock), es);
            s.phase == Idle && s.timers != map[] ==>
              s.fd == Pending
              || (s.fd.Armed? && s.fd.since <= s.clock
                  && s.fd.deadline <= Max(MinKey(s.timers), s.fd.since + 100))
  {
    RunKeeps(Empty(clock), es);
  }

  /** On return from `handle_expiration` it is armed for exactly the earliest expiration, unless
      that has been reached meanwhile. */
  lemma ReturnArmsExactly(s: Queue)
    requires Inv(s) && Legal(s, Return)
    ensures var n := Returned(s);
            n.timers != map[] ==>
              n.fd == Pending || (n.fd.Armed? && n.fd.deadline == Max(MinKey(n.timers), n.fd.since + 100))
    ensures s.phase.added || s.timers == map[] ==> Returned(s).fd == s.fd
    ensures !s.phase.added && s.timers != map[] ==>
              Returned(s).fd == Armed(Max(MinKey(s.timers), s.clock + 100), s.clock)
  {
  }

  /** When the earliest expiration has been reached, and 100 microseconds have passed, the timerfd
      is readable. */
  lemma TimerFires(s: Queue, t: int)
    requires Inv(s) && s.phase == Idle && s.timers != map[]
    requires MinKey(s.timers) <= t && s.clock + 100 <= t
    ensures Legal(s, Tick(t)) && Next(s, Tick(t)).fd == Pending && Next(s, Tick(t)).clock == t
  {
  }

  /** Handling an expiration reads the timerfd, and until time passes nothing makes it readable
      again, even if no timer is left to arm it. */
  lemma {:induction false} NotReadableUntilTick(s: Queue, es: seq<Event>)
    requires s.fd != Pending && LegalRun(s, es) && forall i :: 0 <= i < |es| ==> !es[i].Tick?
    ensures Run(s, es).fd != Pending
    decreases |es|
  {
    if es != [] {
      NotReadableUntilTick(Next(s, es[0]), es[1..]);
    }
  }

  lemma ExpirationReads(s: Queue, es: seq<Event>)
    requires s.phase == Idle && LegalRun(Extracted(s), es) && forall i :: 0 <= i < |es| ==> !es[i].Tick?
    ensures Run(Extracted(s), es).fd != Pending
  {
    NotReadableUntilTick(Extracted(s), es);
  }

  /** The batch of an expiration: exactly the waiting timers whose expiration lies before the
      clock, in order of expiration. */
  lemma BatchIsExact(s: Queue)
    requires Inv(s) && s.phase == Idle
    ensures var b := Extracted(s).phase.batch;
            && NoDup(b) && EarliestFirst(b, s.forDel)
            && forall id :: id in b <==> id in s.forDel && s.forDel[id] < s.clock
  {
    var b := Expired(s.timers, s.clock);
    ExpiredExactly(s.timers, s.forDel, s.clock);
    ExpireKeeps(s);
    forall id | id in b
      ensures id in s.forDel && s.forDel[id] < s.clock
    {
      var i :| 0 <= i < |b| && b[i] == id;
      assert Due(s.timers, s.forDel, s.clock, b[i]);
    }
    forall id | id in s.forDel && s.forDel[id] < s.clock
      ensures id in b
    {
      assert s.timers[s.forDel[id]] == id;
    }
  }

  // ----- cancellation -----

  function Batch(s: Queue): seq<Id> { if s.phase == Idle then [] else s.phase.batch }

  /** A cancelled timer: it is not waiting, will not be put back, and sits at most in the batch
      that was running when it was cancelled. */
  ghost predicate Dead(s: Queue, id: Id, mayRun: bool, no: nat) {
    && id in s.issued && id !in s.forDel
    && (id in s.Rest() ==> id in s.willDel)
    && (id in Batch(s) ==> mayRun && s.batchNo == no)
  }

  lemma DeadAfterExpire(s: Queue, id: Id, mayRun: bool, no: nat)
    requires Inv(s) && s.phase == Idle && Dead(s, id, mayRun, no)
    ensures Dead(Extracted(s), id, mayRun, no)
  {
    BatchIsExact(s);
  }

  lemma RestShrinks(s: Queue)
    requires Legal(s, RearmNext)
    ensures s.Rest() == [s.phase.batch[s.phase.next]] + Rearmed(s).Rest()
    ensures s.phase.batch[s.phase.next] in s.Rest()
  {
    assert s.Rest()[0] == s.phase.batch[s.phase.next];
  }

  lemma DeadAfterRearm(s: Queue, id: Id, mayRun: bool, no: nat)
    requires Inv(s) && Legal(s, RearmNext) && Dead(s, id, mayRun, no)
    ensures Dead(Rearmed(s), id, mayRun, no)
  {
    RestShrinks(s);
  }

  lemma DeadStays(s: Queue, e: Event, id: Id, mayRun: bool, no: nat)
    requires Inv(s) && Legal(s, e) && Dead(s, id, mayRun, no)
    ensures Dead(Next(s, e), id, mayRun, no)
  {
    var n := Next(s, e);
    match e
    case Expire => DeadAfterExpire(s, id, mayRun, no);
    case RearmNext => DeadAfterRearm(s, id, mayRun, no);
    case EndRun => assert s.phase.batch[0..] == s.phase.batch;
    case _ => assert n.Rest() == s.Rest() || n.Rest() == [];
  }

  /** The callbacks of `id` run since the log had length `from` are all of batch `no`. */
  ghost predicate RunsOnlyIn(ran: seq<(nat, Id)>, from: nat, id: Id, mayRun: bool, no: nat) {
    forall i :: from <= i < |ran| && ran[i].1 == id ==> mayRun && ran[i].0 == no
  }

  lemma {:induction false} DeadRuns(s: Queue, es: seq<Event>, from: nat, id: Id, mayRun: bool, no: nat)
    requires Inv(s) && LegalRun(s, es) && Dead(s, id, mayRun, no)
    requires RunsOnlyIn(s.ran, from, id, mayRun, no)
    ensures Dead(Run(s, es), id, mayRun, no) && RunsOnlyIn(Run(s, es).ran, from, id, mayRun, no)
    decreases |es|
  {
    if es != [] {
      NextKeeps(s, es[0]);
      DeadStays(s, es[0], id, mayRun, no);
      assert RunsOnlyIn(Next(s, es[0]).ran, from, id, mayRun, no) by {
        if es[0] == RunNext {
          assert s.phase.batch[s.phase.next] in Batch(s);
        }
      }
      DeadRuns(Next(s, es[0]), es[1..], from, id, mayRun, no);
    }
  }

  /** Cancellation holds over whole runs: once an issued id is cancelled, before firing, from a
      callback of its own batch, or after deletion, it never waits again, and its callback can run
      only in the batch that was running at that moment. */
  lemma CancellationHolds(s: Queue, id: Id, es: seq<Event>)
    requires Inv(s) && id in s.issued
    requires Legal(s, Cancel(id)) && LegalRun(Cancelled(s, id), es)
    ensures var r := Run(Cancelled(s, id), es);
            && id !in r.forDel
            && (forall k :: k in r.timers ==> r.timers[k] != id)
            && RunsOnlyIn(r.ran, |s.ran|, id, s.phase.Running?, s.batchNo)
  {
    var c := Cancelled(s, id);
    CancelKeeps(s, id);
    assert c.Rest() == s.Rest() == Batch(c);
    DeadRuns(c, es, |s.ran|, id, s.phase.Running?, s.batchNo);
    RunKeeps(c, es);
  }

  // ----- punctuality -----

  /** How often the callback of `id` has run. */
  function Runs(ran: seq<(nat, Id)>, id: Id): nat
    decreases |ran|
  {
    if ran == [] then 0
    else Runs(ran[..|ran| - 1], id) + if ran[|ran| - 1].1 == id then 1 else 0
  }

  lemma RunsSnoc(ran: seq<(nat, Id)>, no: nat, x: Id, id: Id)
    ensures Runs(ran + [(no, x)], id) == Runs(ran, id) + if x == id then 1 else 0
  {
    assert (ran + [(no, x)])[..|ran|] == ran;
  }

  /** The callback has run in this batch, and the timer has not been put back yet. */
  predicate Fired(s: Queue, id: Id) {
    match s.phase
    case Idle => false
    case Running(batch, next) => next <= |batch| && id in batch[..next]
    case Rearming(_, _, _) => id in s.Rest()
  }

  /** The timer as restarted `k` times. */
  function After(t: Timer, k: int): Timer { Timer(t.expiration + k * t.interval * KK, t.interval) }

  lemma RestartedOnce(t: Timer, k: int)
    ensures t.Repeat() ==> After(t, k).Restarted() == After(t, k + 1)
    ensures !t.Repeat() ==> t.Restarted() == Timer(0, 0)
  {
  }

  /** `t` is what the timer was when `base` runs of its callback had taken place. */
  ghost predicate OnSchedule(s: Queue, id: Id, t: Timer, base: nat) {
    && id in s.issued
    && (id in s.heap ==>
          s.heap[id] == After(t, Runs(s.ran, id) - base - if Fired(s, id) then 1 else 0))
  }

  lemma ScheduleAfterRun(s: Queue, id: Id, t: Timer, base: nat)
    requires Inv(s) && Legal(s, RunNext) && OnSchedule(s, id, t, base)
    ensures OnSchedule(Next(s, RunNext), id, t, base)
  {
    var batch, next := s.phase.batch, s.phase.next;
    RunsSnoc(s.ran, s.batchNo, batch[next], id);
    assert batch[..next + 1] == batch[..next] + [batch[next]];
    assert batch[next] !in batch[..next] by {
      assert s.Rest() == batch;
    }
  }

  /** Putting timer `x` of the batch back, or deleting it, ends its part in the batch and leaves
      timer `id` alone if that is another one. */
  predicate PutAway(s: Queue, n: Queue, x: Id, id: Id) {
    && Fired(s, x) && !Fired(n, x) && n.ran == s.ran && n.issued == s.issued
    && n.willDel == s.willDel
    && (x in n.heap ==> x in s.heap && s.heap[x].Repeat() && x !in s.willDel && n.heap[x] == s.heap[x].Restarted())
    && (id != x ==> (Fired(n, id) <==> Fired(s, id)))
    && (id != x && id in n.heap ==> id in s.heap && n.heap[id] == s.heap[id])
  }

  lemma RearmedAt(s: Queue, id: Id)
    requires Inv(s) && Legal(s, RearmNext)
    ensures PutAway(s, Rearmed(s), s.phase.batch[s.phase.next], id)
  {
    var rest := Rearmed(s).Rest();
    RestShrinks(s);
    assert s.phase.batch[s.phase.next] !in rest by {
      assert forall i :: 0 <= i < |rest| ==> rest[i] == s.Rest()[i + 1];
    }
  }

  lemma ScheduleAfterRearm(s: Queue, n: Queue, x: Id, id: Id, t: Timer, base: nat)
    requires PutAway(s, n, x, id) && OnSchedule(s, id, t, base)
    ensures OnSchedule(n, id, t, base)
  {
    if id == x && id in n.heap {
      var k := Runs(s.ran, id) - base - 1;
      assert s.heap[id] == After(t, k);
      RestartedOnce(t, k);
    }
  }

  lemma ScheduleKept(s: Queue, e: Event, id: Id, t: Timer, base: nat)
    requires Inv(s) && Legal(s, e) && OnSchedule(s, id, t, base)
    ensures OnSchedule(Next(s, e), id, t, base)
  {
    match e
    case RunNext => ScheduleAfterRun(s, id, t, base);
    case RearmNext =>
      RearmedAt(s, id);
      ScheduleAfterRearm(s, Rearmed(s), s.phase.batch[s.phase.next], id, t, base);
    case EndRun => assert s.phase.batch[0..] == s.phase.batch[..s.phase.next] == s.phase.batch;
    case _ =>
  }

  lemma {:induction false} OnScheduleAlways(s: Queue, es: seq<Event>, id: Id, t: Timer, base: nat)
    requires Inv(s) && LegalRun(s, es) && OnSchedule(s, id, t, base)
    ensures OnSchedule(Run(s, es), id, t, base)
    decreases |es|
  {
    if es != [] {
      NextKeeps(s, es[0]);
      ScheduleKept(s, es[0], id, t, base);
      OnScheduleAlways(Next(s, es[0]), es[1..], id, t, base);
    }
  }

  /** A repeating timer does not drift: however late its batches are handled, while it waits its
      expiration is the first one plus the interval times the number of runs in between. */
  lemma NoDrift(s: Queue, id: Id, es: seq<Event>)
    requires Inv(s) && id in s.forDel && LegalRun(s, es)
    ensures var r := Run(s, es);
            id in r.forDel ==>
              && id in r.heap && r.heap[id].interval == s.heap[id].interval
              && r.forDel[id] == r.heap[id].expiration
                 == s.heap[id].expiration + (Runs(r.ran, id) - Runs(s.ran, id)) * s.heap[id].interval * KK
  {
    assert !Fired(s, id) by {
      assert s.phase.Running? ==> s.Rest() == s.phase.batch;
    }
    OnScheduleAlways(s, es, id, s.heap[id], Runs(s.ran, id));
    RunKeeps(s, es);
    var r := Run(s, es);
    assert id in r.forDel ==> !Fired(r, id) by {
      assert r.phase.Running? ==> r.Rest() == r.phase.batch;
    }
  }

  /** The interval as an `int` holds it. */
  predicate Wraps(when: int, interval: int) {
    -0x8000_0000 <= interval < 0x8000_0000 && (when - interval) % 0x1_0000_0000 == 0
  }

  lemma NewInterval(clock: int, when: int, interval: int)
    requires Wraps(when, interval)
    ensures NewTimer(clock, when, true) == Timer(clock + 1_000_000 * when, interval)
    ensures NewTimer(clock, when, false) == Timer(clock + 1_000_000 * when, 0)
  {
  }

  /** A timer asked to repeat every `when` seconds: while it waits after k runs, it is due the delay
      and k intervals after it was added, the interval being the delay cut to 32 bits. */
  lemma WrappedSchedule(s: Queue, when: int, interval: int, es: seq<Event>)
    requires Inv(s) && Legal(s, Add(when, true)) && LegalRun(Added(s, when, true), es) && Wraps(when, interval)
    ensures var r, id := Run(Added(s, when, true), es), s.counter + 1;
            id in r.forDel ==>
              r.forDel[id] == s.clock + 1_000_000 * when
                              + (Runs(r.ran, id) - Runs(s.ran, id)) * interval * 1_000_000
  {
    AddedTimer(s, when, true);
    NewInterval(s.clock, when, interval);
    NoDrift(Added(s, when, true), s.counter + 1, es);
  }

  /** So with a delay of fewer than 2^31 seconds it is due one delay after it was added, and then
      one delay after the time it was last due. */
  lemma DueEveryDelay(s: Queue, when: int, es: seq<Event>)
    requires Inv(s) && Legal(s, Add(when, true)) && LegalRun(Added(s, when, true), es)
    requires 0 < when < 0x8000_0000
    ensures var r, id := Run(Added(s, when, true), es), s.counter + 1;
            id in r.forDel ==>
              r.forDel[id] == s.clock + when * 1_000_000 * (1 + (Runs(r.ran, id) - Runs(s.ran, id)))
  {
    WrappedSchedule(s, when, when, es);
    Delays(when, Runs(Run(Added(s, when, true), es).ran, s.counter + 1) - Runs(s.ran, s.counter + 1));
  }

  lemma Delays(when: int, k: int)
    ensures 1_000_000 * when + k * when * 1_000_000 == when * 1_000_000 * (1 + k)
  {
  }

  /** A timer that does not repeat waits for the time it was added for, whatever the delay. */
  lemma OneShotDue(s: Queue, when: int, es: seq<Event>)
    requires Inv(s) && Legal(s, Add(when, false)) && LegalRun(Added(s, when, false), es)
    ensures var r, id := Run(Added(s, when, false), es), s.counter + 1;
            id in r.forDel ==> r.forDel[id] == s.clock + when * 1_000_000
  {
    AddedTimer(s, when, false);
    assert NewTimer(s.clock, when, false).interval == 0;
    NoDrift(Added(s, when, false), s.counter + 1, es);
  }

  // ----- no timer is lost -----

  /** The callback has run more than `base` times, or the timer waits, or it is in the batch with
      its callback still to come. */
  ghost predicate Promised(s: Queue, id: Id, base: nat) {
    Runs(s.ran, id) >= base && (Total(s, id) > base || id in s.forDel)
  }

  lemma PromisedAfterUser(s: Queue, e: Event, id: Id, base: nat)
    requires Legal(s, e) && (e.Tick? || e.Elsewhere? || e.Add? || (e.Cancel? && e.id != id)) && Promised(s, id, base)
    requires Inv(s)
    ensures Promised(Next(s, e), id, base)
  {
    var n := Next(s, e);
    assert n.phase == s.phase && n.ran == s.ran;
    assert Ahead(n, id) <==> Ahead(s, id);
  }

  lemma PromisedAfterRearm(s: Queue, e: Event, id: Id, base: nat)
    requires Legal(s, e) && (e == EndRun || e == RearmNext || e == Return) && Promised(s, id, base)
    ensures Promised(Next(s, e), id, base)
  {
    var n := Next(s, e);
    assert !Ahead(s, id) && n.ran == s.ran;
  }

  lemma PromisedStays(s: Queue, e: Event, id: Id, base: nat)
    requires Inv(s) && Legal(s, e) && e != Cancel(id) && Promised(s, id, base)
    ensures Promised(Next(s, e), id, base)
  {
    match e
    case RunNext =>
      BatchNoDup(s);
      TotalAfterRun(s, id);
    case Expire => PromisedAfterExpire(s, id, base);
    case EndRun => PromisedAfterRearm(s, e, id, base);
    case RearmNext => PromisedAfterRearm(s, e, id, base);
    case Return => PromisedAfterRearm(s, e, id, base);
    case Cancel(other) => PromisedAfterUser(s, e, id, base);
    case _ => PromisedAfterUser(s, e, id, base);
  }

  lemma PromisedAfterExpire(s: Queue, id: Id, base: nat)
    requires Inv(s) && s.phase == Idle && Promised(s, id, base)
    ensures Promised(Extracted(s), id, base)
  {
    AheadAtStart(s, id);
  }

  /** A waiting timer that is not cancelled goes on waiting until its callback has run, but for
      the time it spends in the batch that is about to run it, whatever happens to other timers. */
  lemma {:induction false} WaitsUntilRun(s: Queue, id: Id, es: seq<Event>, base: nat)
    requires Inv(s) && LegalRun(s, es) && Cancel(id) !in es && Promised(s, id, base)
    ensures Promised(Run(s, es), id, base)
    decreases |es|
  {
    if es != [] {
      NextKeeps(s, es[0]);
      PromisedStays(s, es[0], id, base);
      WaitsUntilRun(Next(s, es[0]), id, es[1..], base);
    }
  }

  /** Every timer of the batch has expired. */
  ghost predicate AllExpired(s: Queue) {
    s.phase.Running? ==> forall id :: id in s.phase.batch ==> id in s.heap && s.heap[id].expiration < s.clock
  }

  lemma {:induction false} AllExpiredAlways(s: Queue, es: seq<Event>)
    requires Inv(s) && AllExpired(s) && LegalRun(s, es)
    ensures AllExpired(Run(s, es))
    decreases |es|
  {
    if es != [] {
      if s.phase == Idle {
        BatchIsExact(s);
      }
      NextKeeps(s, es[0]);
      AllExpiredAlways(Next(s, es[0]), es[1..]);
    }
  }

  /** No callback runs before its timer has expired. */
  lemma NeverEarly(clock: int, es: seq<Event>)
    requires LegalRun(Empty(clock), es) && Legal(Run(Empty(clock), es), RunNext)
    ensures var s := Run(Empty(clock), es);
            var id := s.phase.batch[s.phase.next];
            id in s.heap && s.heap[id].expiration < s.clock
  {
    AllExpiredAlways(Empty(clock), es);
    var s := Run(Empty(clock), es);
    assert s.phase.batch[s.phase.next] in s.phase.batch;
  }

  predicate AheadIn(batch: seq<Id>, next: nat, id: Id) {
    exists i :: next <= i < |batch| && batch[i] == id
  }

  /** The callback of `id` is still to run in the current batch. */
  predicate Ahead(s: Queue, id: Id) {
    s.phase.Running? && AheadIn(s.phase.batch, s.phase.next, id)
  }

  lemma AheadCons(batch: seq<Id>, next: nat, id: Id)
    requires next < |batch|
    ensures AheadIn(batch, next, id) <==> batch[next] == id || AheadIn(batch, next + 1, id)
  {
    if AheadIn(batch, next, id) {
      var i :| next <= i < |batch| && batch[i] == id;
      assert i == next || next + 1 <= i;
    }
  }

  lemma NotTwiceAhead(batch: seq<Id>, next: nat)
    requires next < |batch| && NoDup(batch)
    ensures !AheadIn(batch, next + 1, batch[next])
  {
  }

  lemma AheadStep(s: Queue, n: Queue, batch: seq<Id>, next: nat, id: Id)
    requires next < |batch| && NoDup(batch) && s.phase == Running(batch, next) && n.phase == Running(batch, next + 1)
    ensures Ahead(s, id) <==> batch[next] == id || Ahead(n, id)
    ensures !Ahead(n, batch[next])
  {
    AheadCons(batch, next, id);
    NotTwiceAhead(batch, next);
  }

  lemma AheadAtStart(s: Queue, id: Id)
    requires s.phase == Idle
    ensures Ahead(Extracted(s), id) <==> id in Extracted(s).phase.batch
  {
  }

  /** How often the callback has run or is bound to run in the current batch. */
  ghost function Total(s: Queue, id: Id): nat {
    Runs(s.ran, id) + if Ahead(s, id) then 1 else 0
  }

  lemma BatchNoDup(s: Queue)
    requires Inv(s) && s.phase.Running?
    ensures NoDup(s.phase.batch)
  {
    assert s.Rest() == s.phase.batch;
  }

  lemma TotalAfterRun(s: Queue, id: Id)
    requires Legal(s, RunNext) && NoDup(s.phase.batch)
    ensures Total(Next(s, RunNext), id) == Total(s, id) && Runs(Next(s, RunNext).ran, id) >= Runs(s.ran, id)
  {
    var batch, next := s.phase.batch, s.phase.next;
    RunsSnoc(s.ran, s.batchNo, batch[next], id);
    AheadStep(s, Next(s, RunNext), batch, next, id);
  }

  /** A timer that is not waiting and will not be put back runs no more than the batch has in
      store for it. */
  ghost predicate Spent(s: Queue, id: Id, bound: nat) {
    && id in s.issued && id !in s.forDel
    && (id in s.Rest() ==> id in s.willDel)
    && Total(s, id) <= bound
  }

  lemma SpentAfterExpire(s: Queue, id: Id, bound: nat)
    requires Inv(s) && s.phase == Idle && Spent(s, id, bound)
    ensures Spent(Extracted(s), id, bound)
  {
    BatchIsExact(s);
    AheadAtStart(s, id);
  }

  lemma SpentAfterRearm(s: Queue, id: Id, bound: nat)
    requires Inv(s) && Legal(s, RearmNext) && Spent(s, id, bound)
    ensures Spent(Rearmed(s), id, bound)
  {
    RestShrinks(s);
  }

  lemma SpentAfterUser(s: Queue, e: Event, id: Id, bound: nat)
    requires Inv(s) && Legal(s, e) && (e.Tick? || e.Elsewhere? || e.Add? || e.Cancel?) && Spent(s, id, bound)
    ensures Spent(Next(s, e), id, bound)
  {
    var n := Next(s, e);
    assert n.phase == s.phase && n.ran == s.ran && n.Rest() == s.Rest();
    assert Ahead(n, id) <==> Ahead(s, id);
  }

  lemma SpentStays(s: Queue, e: Event, id: Id, bound: nat)
    requires Inv(s) && Legal(s, e) && Spent(s, id, bound)
    ensures Spent(Next(s, e), id, bound)
  {
    match e
    case RunNext =>
      BatchNoDup(s);
      TotalAfterRun(s, id);
    case Expire => SpentAfterExpire(s, id, bound);
    case RearmNext => SpentAfterRearm(s, id, bound);
    case EndRun => assert s.phase.batch[0..] == s.phase.batch;
    case Return =>
    case _ => SpentAfterUser(s, e, id, bound);
  }

  lemma {:induction false} SpentRuns(s: Queue, es: seq<Event>, id: Id, bound: nat)
    requires Inv(s) && LegalRun(s, es) && Spent(s, id, bound)
    ensures Runs(Run(s, es).ran, id) <= bound
    decreases |es|
  {
    if es != [] {
      NextKeeps(s, es[0]);
      SpentStays(s, es[0], id, bound);
      SpentRuns(Next(s, es[0]), es[1..], id, bound);
    }
  }

  /** After an issued id is cancelled its callback runs once more if it is still to come in the
      batch under way, and otherwise never again. */
  lemma CancelStopsRuns(s: Queue, id: Id, es: seq<Event>)
    requires Inv(s) && id in s.issued && Legal(s, Cancel(id)) && LegalRun(Cancelled(s, id), es)
    ensures Runs(Run(Cancelled(s, id), es).ran, id) <= Runs(s.ran, id) + if Ahead(s, id) then 1 else 0
  {
    CancelKeeps(s, id);
    var c := Cancelled(s, id);
    assert c.Rest() == s.Rest() && (Ahead(c, id) <==> Ahead(s, id));
    SpentRuns(c, es, id, Total(s, id));
  }

  /** Batches are numbered upwards: what runs later belongs to a later batch. */
  ghost predicate Numbered(s: Queue, from: nat, base: nat) {
    && s.batchNo >= base && (s.phase.Running? ==> s.batchNo > base)
    && forall i :: from <= i < |s.ran| ==> s.ran[i].0 > base
  }

  lemma {:induction false} LaterBatches(s: Queue, es: seq<Event>, from: nat, base: nat)
    requires LegalRun(s, es) && Numbered(s, from, base)
    ensures Numbered(Run(s, es), from, base)
    decreases |es|
  {
    if es != [] {
      LaterBatches(Next(s, es[0]), es[1..], from, base);
    }
  }

  // ----- repetition -----

  /** A repeating timer without a mark for deletion. */
  predicate Repeating(s: Queue, id: Id) {
    id in s.heap && s.heap[id].Repeat() && id !in s.willDel
  }

  lemma RepeatingStays(s: Queue, e: Event, id: Id)
    requires Inv(s) && Legal(s, e) && Repeating(s, id) && e != Cancel(id)
    ensures Repeating(Next(s, e), id)
  {
    match e
    case Add(_, _) => assert id != s.counter + 1;
    case RearmNext =>
      assert id == s.phase.batch[s.phase.next] ==> s.heap[id].Restarted().Repeat();
    case _ =>
  }

  /** A repeating timer nobody cancels is never deleted, and it waits again whenever no batch is
      being handled. */
  lemma {:induction false} RepeaterStays(s: Queue, id: Id, es: seq<Event>)
    requires Inv(s) && LegalRun(s, es) && Repeating(s, id) && Cancel(id) !in es
    ensures var r := Run(s, es);
            && Repeating(r, id) && id !in r.deleted
            && (r.phase == Idle ==> id in r.forDel)
    decreases |es|
  {
    if es != [] {
      NextKeeps(s, es[0]);
      RepeatingStays(s, es[0], id);
      RepeaterStays(Next(s, es[0]), id, es[1..]);
    }
  }

  /** A timer that will not be put back has run once, or not yet, since its callback had run
      `base` times. */
  ghost predicate LastRun(s: Queue, id: Id, base: nat) {
    && id in s.issued
    && (id in s.heap ==>
          && (!s.heap[id].Repeat() || id in s.willDel)
          && Runs(s.ran, id) == base + if Fired(s, id) then 1 else 0)
    && (id !in s.heap ==> Runs(s.ran, id) <= base + 1)
  }

  lemma LastRunAfterRun(s: Queue, id: Id, base: nat)
    requires Inv(s) && Legal(s, RunNext) && LastRun(s, id, base)
    ensures LastRun(Next(s, RunNext), id, base)
  {
    var batch, next := s.phase.batch, s.phase.next;
    RunsSnoc(s.ran, s.batchNo, batch[next], id);
    assert batch[..next + 1] == batch[..next] + [batch[next]];
    assert batch[next] in s.heap && batch[next] !in batch[..next] by {
      assert s.Rest() == batch && batch[next] in batch;
    }
  }

  lemma LastRunAfterRearm(s: Queue, n: Queue, x: Id, id: Id, base: nat)
    requires PutAway(s, n, x, id) && LastRun(s, id, base)
    ensures LastRun(n, id, base)
  {
  }

  lemma LastRunKept(s: Queue, e: Event, id: Id, base: nat)
    requires Inv(s) && Legal(s, e) && LastRun(s, id, base)
    ensures LastRun(Next(s, e), id, base)
  {
    match e
    case RunNext => LastRunAfterRun(s, id, base);
    case RearmNext =>
      RearmedAt(s, id);
      LastRunAfterRearm(s, Rearmed(s), s.phase.batch[s.phase.next], id, base);
    case EndRun => assert s.phase.batch[0..] == s.phase.batch[..s.phase.next] == s.phase.batch;
    case _ =>
  }

  lemma {:induction false} RunsAtMostOnce(s: Queue, es: seq<Event>, id: Id, base: nat)
    requires Inv(s) && LegalRun(s, es) && LastRun(s, id, base)
    ensures LastRun(Run(s, es), id, base) && Runs(Run(s, es).ran, id) <= base + 1
    decreases |es|
  {
    if es != [] {
      NextKeeps(s, es[0]);
      LastRunKept(s, es[0], id, base);
      RunsAtMostOnce(Next(s, es[0]), es[1..], id, base);
    }
  }

  /** One pass of `handle_interval` puts the timer back exactly if it repeats and is not marked,
      and deletes it otherwise. */
  lemma PutBackIff(s: Queue)
    requires Inv(s) && Legal(s, RearmNext)
    ensures var n, id := Rearmed(s), s.phase.batch[s.phase.next];
            && (id in n.forDel <==> s.heap[id].Repeat() && id !in s.willDel)
            && (id in n.deleted <==> !(s.heap[id].Repeat() && id !in s.willDel))
            && (n.phase.added <==> s.phase.added || id in n.forDel)
  {
    var n, id := Rearmed(s), s.phase.batch[s.phase.next];
    RestShrinks(s);
    RearmKeeps(s);
  }

  lemma IntervalOf(clock: int, when: int)
    ensures NewTimer(clock, when, true).Repeat() <==> when % 0x1_0000_0000 != 0
  {
  }

  /** The timer just added, seen by the two arguments above. */
  lemma AddedTimer(s: Queue, when: int, repeat: bool)
    requires Inv(s) && Legal(s, Add(when, repeat))
    ensures var n, id := Added(s, when, repeat), s.counter + 1;
            && Inv(n) && n.phase == s.phase && n.ran == s.ran && n.willDel == s.willDel
            && id in n.forDel && id in n.heap && id in n.issued && !Fired(n, id)
            && n.heap[id] == NewTimer(s.clock, when, repeat)
  {
    AddKeeps(s, when, repeat);
    var n, id := Added(s, when, repeat), s.counter + 1;
    assert !Fired(n, id) by {
      assert id !in n.Rest();
      assert n.phase.Running? ==> n.Rest() == n.phase.batch;
    }
  }

  /** A timer asked to repeat, and not cancelled, is put back after every run exactly when its
      delay is no multiple of 2^32, the interval being an `int`, and its id was not marked before
      it was issued. Otherwise it runs once and is deleted. */
  lemma RepeatsIff(s: Queue, when: int, es: seq<Event>)
    requires Inv(s) && Legal(s, Add(when, true))
    requires LegalRun(Added(s, when, true), es) && Cancel(s.counter + 1) !in es
    ensures var r, id := Run(Added(s, when, true), es), s.counter + 1;
            var repeats := when % 0x1_0000_0000 != 0 && id !in s.willDel;
            && (r.phase == Idle && Runs(r.ran, id) > Runs(s.ran, id) ==>
                  (id in r.forDel <==> repeats) && (id in r.deleted <==> !repeats))
            && (repeats ==> id in r.heap)
            && (!repeats ==> Runs(r.ran, id) <= Runs(s.ran, id) + 1)
  {
    var n, id := Added(s, when, true), s.counter + 1;
    AddedTimer(s, when, true);
    IntervalOf(s.clock, when);
    RunKeeps(n, es);
    if Repeating(n, id) {
      RepeaterStays(n, id, es);
    } else {
      RunsAtMostOnce(n, es, id, Runs(s.ran, id));
    }
  }

  /** A timer that does not repeat runs at most once. */
  lemma OneShotRunsOnce(s: Queue, when: int, es: seq<Event>)
    requires Inv(s) && Legal(s, Add(when, false)) && LegalRun(Added(s, when, false), es)
    ensures Runs(Run(Added(s, when, false), es).ran, s.counter + 1) <= Runs(s.ran, s.counter + 1) + 1
  {
    AddedTimer(s, when, false);
    RunsAtMostOnce(Added(s, when, false), es, s.counter + 1, Runs(s.ran, s.counter + 1));
  }

  /** No id that is still to be issued carries a mark. */
  ghost predicate Unmarked(s: Queue) {
    forall id :: id in s.willDel ==> id <= s.counter
  }

  ghost predicate AlwaysUnmarked(s: Queue, es: seq<Event>)
    requires LegalRun(s, es)
    decreases |es|
  {
    Unmarked(s) && (es != [] ==> AlwaysUnmarked(Next(s, es[0]), es[1..]))
  }

  /** A cancellation, while callbacks run, of an id that the counter has not reached. */
  predicate CancelsUnborn(s: Queue, e: Event) { e.Cancel? && s.phase.Running? && e.id > s.counter }

  ghost predicate NeverCancelsUnborn(s: Queue, es: seq<Event>)
    requires LegalRun(s, es)
    decreases |es|
  {
    es != [] ==> !CancelsUnborn(s, es[0]) && NeverCancelsUnborn(Next(s, es[0]), es[1..])
  }

  /** On a run, no id still to be issued is ever marked exactly if none is cancelled, while
      callbacks run, before the counter has reached it. */
  lemma {:induction false} MarksAreHarmlessIff(s: Queue, es: seq<Event>)
    requires Inv(s) && Unmarked(s) && LegalRun(s, es)
    ensures AlwaysUnmarked(s, es) <==> NeverCancelsUnborn(s, es)
    decreases |es|
  {
    if es != [] {
      NextKeeps(s, es[0]);
      if CancelsUnborn(s, es[0]) {
        assert es[0].id in Next(s, es[0]).willDel;
        assert !Unmarked(Next(s, es[0]));
      } else {
        MarksAreHarmlessIff(Next(s, es[0]), es[1..]);
      }
    }
  }

  /** The addition of a timer that repeats, under the id given. */
  predicate AddsRepeating(s: Queue, e: Event, id: Id) {
    e.Add? && NewTimer(s.clock, e.when, e.repeat).Repeat() && id == s.counter + 1
  }

  /** Some repeating timer of the run is marked from the start. */
  ghost predicate Harmed(s: Queue, es: seq<Event>)
    requires LegalRun(s, es)
    decreases |es|
  {
    es != [] &&
    ((AddsRepeating(s, es[0], s.counter + 1) && s.counter + 1 in s.willDel) || Harmed(Next(s, es[0]), es[1..]))
  }

  /** The run adds a repeating timer under this id. */
  ghost predicate LaterRepeating(s: Queue, es: seq<Event>, id: Id)
    requires LegalRun(s, es)
    decreases |es|
  {
    es != [] && (AddsRepeating(s, es[0], id) || LaterRepeating(Next(s, es[0]), es[1..], id))
  }

  lemma LaterStep(s: Queue, es: seq<Event>, id: Id)
    requires LegalRun(s, es) && es != []
    ensures LaterRepeating(s, es, id) <==> AddsRepeating(s, es[0], id) || LaterRepeating(Next(s, es[0]), es[1..], id)
  {
  }

  /** The run cancels, while callbacks run, an id under which it adds a repeating timer later. */
  ghost predicate CancelsTooEarly(s: Queue, es: seq<Event>)
    requires LegalRun(s, es)
    decreases |es|
  {
    es != [] &&
    ((CancelsUnborn(s, es[0]) && LaterRepeating(Next(s, es[0]), es[1..], es[0].id))
     || CancelsTooEarly(Next(s, es[0]), es[1..]))
  }

  lemma CounterGrows(s: Queue, e: Event)
    requires Legal(s, e)
    ensures s.counter <= Next(s, e).counter
  {
  }

  lemma {:induction false} IdsAreNotReused(s: Queue, es: seq<Event>, id: Id)
    requires LegalRun(s, es) && id <= s.counter
    ensures !LaterRepeating(s, es, id)
    decreases |es|
  {
    if es != [] {
      CounterGrows(s, es[0]);
      IdsAreNotReused(Next(s, es[0]), es[1..], id);
    }
  }

  /** Some id that is marked already gets a repeating timer later. */
  ghost predicate MarkedLater(s: Queue, es: seq<Event>)
    requires LegalRun(s, es)
  {
    exists id :: id in s.willDel && LaterRepeating(s, es, id)
  }

  /** A step adds at most the mark of the id it cancels. */
  lemma MarksAfter(s: Queue, e: Event)
    requires Inv(s) && Legal(s, e)
    ensures var n := Next(s, e);
            && n.willDel == (if e.Cancel? && s.phase.Running? && e.id !in s.forDel then s.willDel + {e.id} else s.willDel)
            && (e.Cancel? && e.id in s.forDel ==> e.id <= s.counter)
            && (CancelsUnborn(s, e) ==> e.id !in s.forDel)
  {
  }

  lemma HarmIsMarked(s: Queue, es: seq<Event>)
    requires Inv(s) && LegalRun(s, es) && es != []
    requires (AddsRepeating(s, es[0], s.counter + 1) && s.counter + 1 in s.willDel) || MarkedLater(Next(s, es[0]), es[1..])
    ensures MarkedLater(s, es) || (CancelsUnborn(s, es[0]) && LaterRepeating(Next(s, es[0]), es[1..], es[0].id))
  {
    var e, n, rest := es[0], Next(s, es[0]), es[1..];
    MarksAfter(s, e);
    CounterGrows(s, e);
    if MarkedLater(n, rest) {
      var id :| id in n.willDel && LaterRepeating(n, rest, id);
      if id !in s.willDel && id <= s.counter {
        IdsAreNotReused(n, rest, id);
      }
      assert id in s.willDel ==> LaterRepeating(s, es, id);
    } else {
      assert LaterRepeating(s, es, s.counter + 1);
    }
  }

  lemma MarkedIsHarm(s: Queue, es: seq<Event>)
    requires Inv(s) && LegalRun(s, es) && es != []
    requires MarkedLater(s, es) || (CancelsUnborn(s, es[0]) && LaterRepeating(Next(s, es[0]), es[1..], es[0].id))
    ensures (AddsRepeating(s, es[0], s.counter + 1) && s.counter + 1 in s.willDel) || MarkedLater(Next(s, es[0]), es[1..])
  {
    var e, n, rest := es[0], Next(s, es[0]), es[1..];
    MarksAfter(s, e);
    if MarkedLater(s, es) {
      var id :| id in s.willDel && LaterRepeating(s, es, id);
      LaterStep(s, es, id);
      assert id in n.willDel;
    } else {
      assert e.id in n.willDel;
    }
  }

  lemma {:induction false} HarmedFromMarks(s: Queue, es: seq<Event>)
    requires Inv(s) && LegalRun(s, es)
    ensures Harmed(s, es) <==> MarkedLater(s, es) || CancelsTooEarly(s, es)
    decreases |es|
  {
    if es != [] {
      var n, rest := Next(s, es[0]), es[1..];
      NextKeeps(s, es[0]);
      HarmedFromMarks(n, rest);
      if (AddsRepeating(s, es[0], s.counter + 1) && s.counter + 1 in s.willDel) || MarkedLater(n, rest) {
        HarmIsMarked(s, es);
      }
      if MarkedLater(s, es) || (CancelsUnborn(s, es[0]) && LaterRepeating(n, rest, es[0].id)) {
        MarkedIsHarm(s, es);
      }
    }
  }

  /** That the marks are never cleared harms a repeating timer exactly on the runs that cancel its
      id, while callbacks run, before the timer is added. */
  lemma HarmIff(s: Queue, es: seq<Event>)
    requires Inv(s) && Unmarked(s) && LegalRun(s, es)
    ensures Harmed(s, es) <==> CancelsTooEarly(s, es)
  {
    HarmedFromMarks(s, es);
    forall id | id in s.willDel
      ensures !LaterRepeating(s, es, id)
    {
      IdsAreNotReused(s, es, id);
    }
  }

  /** Cancelled before it is issued, a repeating timer added next is marked, and runs only once. */
  lemma UnbornMarkStopsRepeating(s: Queue, when: int, es: seq<Event>)
    requires Inv(s) && s.phase.Running? && Legal(s, Add(when, true))
    ensures var c := Cancelled(s, s.counter + 1);
            && Legal(s, Cancel(s.counter + 1)) && Legal(c, Add(when, true))
            && (LegalRun(Added(c, when, true), es) ==>
                  Runs(Run(Added(c, when, true), es).ran, s.counter + 1) <= Runs(s.ran, s.counter + 1) + 1)
  {
    var id := s.counter + 1;
    assert id !in s.issued && id !in s.forDel;
    var c := Cancelled(s, id);
    CancelKeeps(s, id);
    AddedTimer(c, when, true);
    if LegalRun(Added(c, when, true), es) {
      RunsAtMostOnce(Added(c, when, true), es, id, Runs(s.ran, id));
    }
  }

  /** Two timers added in the same microsecond with the same delay collide: the hypothesis on
      inserted expirations is needed. */
  lemma TwoTimersCollide(s: Queue, when: int, repeat: bool)
    requires Inv(s) && Legal(s, Add(when, repeat))
    ensures var n := Added(s, when, repeat);
            && !Legal(n, Add(when, repeat))
            && !Indexed(Added(n, when, repeat))
            && |Added(n, when, repeat).forDel| == |Added(n, when, repeat).timers| + 1
  {
    AddedAt(s, when, repeat);
    AddAgain(Added(s, when, repeat), when, repeat);
  }

  lemma AddedAt(s: Queue, when: int, repeat: bool)
    requires Inv(s) && Legal(s, Add(when, repeat))
    ensures var n := Added(s, when, repeat);
            Indexed(n) && n.clock + when * KK in n.timers && n.counter + 1 !in n.forDel
  {
    AddKeeps(s, when, repeat);
    var n := Added(s, when, repeat);
    PartitionAdd(n.heap.Keys, n.forDel.Keys, n.Rest(), n.deleted, n.issued, n.counter + 1);
  }

  lemma AddAgain(s: Queue, when: int, repeat: bool)
    requires Indexed(s) && s.clock + when * KK in s.timers && s.counter + 1 !in s.forDel
    ensures !Legal(s, Add(when, repeat)) && !Indexed(Added(s, when, repeat))
    ensures |Added(s, when, repeat).forDel| == |Added(s, when, repeat).timers| + 1
  {
    var id := s.counter + 1;
    IndexedFrame(s, id, NewTimer(s.clock, when, repeat));
    var s1 := s.(heap := s.heap[id := NewTimer(s.clock, when, repeat)], counter := id, issued := s.issued + {id});
    Collides(s1, id);
  }

  lemma Collides(s: Queue, id: Id)
    requires Indexed(s) && id in s.heap && id !in s.forDel && s.heap[id].expiration in s.timers
    ensures !Indexed(Readded(s, id))
    ensures |Readded(s, id).forDel| == |Readded(s, id).timers| + 1
  {
    SizesAgree(s);
    ReaddKeepsIndexIff(s, id);
    CollisionBreaksSizes(s, id);
  }

  // ----- the class -----

  predicate ByUser(e: Event) { e.Tick? || e.Elsewhere? || e.Add? || e.Cancel? }

  ghost predicate ByUsers(es: seq<Event>) {
    forall i :: 0 <= i < |es| ==> ByUser(es[i])
  }

  /** The steps of `handle_expiration` when the i-th callback does `scripts[i]`. */
  function CallbackEvents(scripts: seq<seq<Event>>): seq<Event>
    decreases |scripts|
  {
    if scripts == [] then [] else [RunNext] + (scripts[0] + CallbackEvents(scripts[1..]))
  }

  function RearmEvents(n: nat): seq<Event> {
    if n == 0 then [Return] else [RearmNext] + RearmEvents(n - 1)
  }

  function ExpirationEvents(scripts: seq<seq<Event>>): seq<Event> {
    [Expire] + (CallbackEvents(scripts) + ([EndRun] + RearmEvents(|scripts|)))
  }

  lemma {:induction false} RunSplit(s: Queue, a: seq<Event>, b: seq<Event>)
    requires LegalRun(s, a + b)
    ensures LegalRun(s, a) && LegalRun(Run(s, a), b) && Run(s, a + b) == Run(Run(s, a), b)
    decreases |a|
  {
    if a == [] {
      assert a + b == b;
    } else {
      assert (a + b)[1..] == a[1..] + b;
      RunSplit(Next(s, a[0]), a[1..], b);
    }
  }

  lemma RunFirst(s: Queue, e: Event, rest: seq<Event>)
    requires LegalRun(s, [e] + rest)
    ensures Legal(s, e) && LegalRun(Next(s, e), rest) && Run(s, [e] + rest) == Run(Next(s, e), rest)
  {
    assert ([e] + rest)[1..] == rest;
  }

  function Tagged(no: nat, ids: seq<Id>): seq<(nat, Id)> {
    seq(|ids|, i requires 0 <= i < |ids| => (no, ids[i]))
  }

  lemma TaggedCons(ran: seq<(nat, Id)>, no: nat, batch: seq<Id>, i: nat)
    requires i < |batch|
    ensures ran + [(no, batch[i])] + Tagged(no, batch[i + 1..]) == ran + Tagged(no, batch[i..])
  {
    assert [(no, batch[i])] + Tagged(no, batch[i + 1..]) == Tagged(no, batch[i..]);
  }

  lemma {:induction false} UserKeepsBatch(s: Queue, es: seq<Event>)
    requires ByUsers(es) && LegalRun(s, es)
    ensures var r := Run(s, es); r.phase == s.phase && r.batchNo == s.batchNo && r.ran == s.ran
    decreases |es|
  {
    if es != [] {
      assert ByUser(es[0]);
      UserKeepsBatch(Next(s, es[0]), es[1..]);
    }
  }

  /** Whatever the callbacks of a batch add or cancel, each timer of the batch runs exactly once,
      in the order of the batch. */
  lemma {:induction false} BatchRunsInOrder(s: Queue, batch: seq<Id>, i: nat, scripts: seq<seq<Event>>)
    requires i + |scripts| == |batch| && s.phase == Running(batch, i)
    requires forall j :: 0 <= j < |scripts| ==> ByUsers(scripts[j])
    requires LegalRun(s, CallbackEvents(scripts))
    ensures Run(s, CallbackEvents(scripts)).ran == s.ran + Tagged(s.batchNo, batch[i..])
    decreases |scripts|
  {
    if scripts != [] {
      var rest := CallbackEvents(scripts[1..]);
      RunFirst(s, RunNext, scripts[0] + rest);
      var n := Next(s, RunNext);
      RunSplit(n, scripts[0], rest);
      UserKeepsBatch(n, scripts[0]);
      BatchRunsInOrder(Run(n, scripts[0]), batch, i + 1, scripts[1..]);
      TaggedCons(s.ran, s.batchNo, batch, i);
    }
  }

  lemma ExpiredStep(m: map<int, Id>, now: int)
    requires m != map[] && MinKey(m) < now
    ensures var k := MinKey(m);
            && |m - {k}| < |m| && Later(m, now) == Later(m - {k}, now)
            && Expired(m, now) == [m[k]] + Expired(m - {k}, now)
  {
    Shrunk(m, MinKey(m));
  }

  lemma NoneExpired(m: map<int, Id>, now: int)
    requires m == map[] || MinKey(m) >= now
    ensures Expired(m, now) == [] && Later(m, now) == m
  {
    forall k | k in m
      ensures k >= now
    {
      assert k in m.Keys;
    }
  }

  lemma CallbackCons(scripts: seq<seq<Event>>, i: nat)
    requires i < |scripts|
    ensures CallbackEvents(scripts[i..]) == [RunNext] + (scripts[i] + CallbackEvents(scripts[i + 1..]))
  {
    assert scripts[i..][1..] == scripts[i + 1..];
  }

  class TimerQueue {
    var timers: map<int, Id>
    var forDel: map<Id, int>
    var willDel: set<Id>
    var handling: bool
    // the allocated timers, the shared counter and the ids of this queue, the clock and the timerfd
    var heap: map<Id, Timer>
    var counter: nat
    var issued: set<Id>
    var clock: int
    var fd: TimerFd
    // where the loop thread is, and what has happened
    var phase: Phase
    var batchNo: nat
    var ran: seq<(nat, Id)>
    var deleted: seq<Id>

    function View(): Queue
      reads this
    {
      Queue(clock, timers, forDel, willDel, handling, heap, counter, issued, fd, phase, batchNo, ran, deleted)
    }

    constructor (now: int)
      ensures View() == Empty(now)
    {
      timers, forDel, willDel, handling := map[], map[], {}, false;
      heap, counter, issued, clock, fd := map[], 0, {}, now, Disarmed;
      phase, batchNo, ran, deleted := Idle, 0, [], [];
    }

    method ResetTimerFd(expiration: int)
      modifies this`fd
      ensures fd == ArmFor(clock, expiration)
    {
      var remain := expiration - clock;
      if remain < MIN_DELAY {
        remain := MIN_DELAY;
      }
      fd := Armed(clock + remain, clock);
    }

    method Readd(id: Id)
      requires id in heap
      modifies this
      ensures View() == Readded(old(View()), id)
    {
      var newRun, firstRun, begin := false, false, 0;
      if timers == map[] {
        newRun := true;
      } else {
        begin := MinKey(timers);
        if heap[id].expiration < begin {
          newRun := true;
        } else {
          firstRun := true;
        }
      }
      if heap[id].expiration !in timers {
        timers := timers[heap[id].expiration := id];
      }
      if id !in forDel {
        forDel := forDel[id := heap[id].expiration];
      }
      if newRun {
        ResetTimerFd(heap[id].expiration);
      } else if firstRun {
        ResetTimerFd(begin);
      }
    }

    method AddTimer(when: int, repeat: bool) returns (id: Id)
      modifies this
      ensures id == old(counter) + 1
      ensures View() == Added(old(View()), when, repeat)
    {
      counter := counter + 1;
      id := counter;
      issued := issued + {id};
      heap := heap[id := NewTimer(clock, when, repeat)];
      Readd(id);
    }

    method CancelTimer(id: Id)
      requires id in forDel ==> forDel[id] in timers
      modifies this
      ensures View() == Cancelled(old(View()), id)
    {
      if id in forDel {
        var key := forDel[id];
        heap := heap - {timers[key]};
        deleted := deleted + [timers[key]];
        timers := timers - {key};
        forDel := forDel - {id};
      } else if handling {
        willDel := willDel + {id};
      }
    }

    /** Extracts the expired timers from both indexes, earliest first. */
    method GetExpired(now: int) returns (batch: seq<Id>)
      modifies this`timers, this`forDel
      ensures batch == Expired(old(timers), now)
      ensures timers == Later(old(timers), now) && forDel == Without(old(forDel), batch)
    {
      batch, timers := SplitExpired(timers, now);
      EraseAll(batch);
    }

    static method SplitExpired(all: map<int, Id>, now: int) returns (batch: seq<Id>, rest: map<int, Id>)
      ensures batch == Expired(all, now) && rest == Later(all, now)
    {
      batch, rest := [], all;
      while rest != map[] && MinKey(rest) < now
        invariant Expired(all, now) == batch + Expired(rest, now)
        invariant Later(all, now) == Later(rest, now)
        decreases |rest|
      {
        var k := MinKey(rest);
        ExpiredStep(rest, now);
        batch := batch + [rest[k]];
        rest := rest - {k};
      }
      NoneExpired(rest, now);
    }

    method EraseAll(ids: seq<Id>)
      modifies this`forDel
      ensures forDel == Without(old(forDel), ids)
    {
      var i := 0;
      assert forDel == Without(forDel, ids[..0]);
      while i < |ids|
        invariant 0 <= i <= |ids|
        invariant forDel == Without(old(forDel), ids[..i])
      {
        forDel := forDel - {ids[i]};
        assert ids[..i + 1] == ids[..i] + [ids[i]];
        i := i + 1;
      }
      assert ids[..i] == ids;
    }

    /** One pass of the loop in `handle_interval`. */
    method PutBack(batch: seq<Id>, i: nat, add: bool) returns (added: bool)
      requires i < |batch| && phase == Rearming(batch, i, add) && batch[i] in heap
      modifies this
      ensures View() == Rearmed(old(View())) && phase == Rearming(batch, i + 1, added)
    {
      var id := batch[i];
      if heap[id].Repeat() && id !in willDel {
        added := true;
        heap := heap[id := heap[id].Restarted()];
        phase := Rearming(batch, i + 1, true);
        Readd(id);
      } else {
        added := add;
        phase := Rearming(batch, i + 1, add);
        heap := heap - {id};
        deleted := deleted + [id];
      }
    }

    /** Puts the repeating, uncancelled timers of the batch back and deletes the others. */
    method HandleInterval(batch: seq<Id>)
      requires phase == Rearming(batch, 0, false) && LegalRun(View(), RearmEvents(|batch|))
      modifies this
      ensures View() == Run(old(View()), RearmEvents(|batch|))
    {
      var add := false;
      var i := 0;
      while i < |batch|
        invariant 0 <= i <= |batch| && phase == Rearming(batch, i, add)
        invariant LegalRun(View(), RearmEvents(|batch| - i))
        invariant Run(View(), RearmEvents(|batch| - i)) == Run(old(View()), RearmEvents(|batch|))
      {
        RunFirst(View(), RearmNext, RearmEvents(|batch| - i - 1));
        add := PutBack(batch, i, add);
        i := i + 1;
      }
      RunFirst(View(), Return, []);
      if !add {
        if timers != map[] {
          ResetTimerFd(MinKey(timers));
        }
      }
      phase := Idle;
    }

    /** One thing a callback does: time passes, other queues draw ids, timers are added and
        cancelled. */
    method CallbackStep(e: Event)
      requires ByUser(e) && Legal(View(), e)
      modifies this
      ensures View() == Next(old(View()), e) && phase == old(phase)
    {
      match e {
        case Tick(t) =>
          clock := t;
          if fd.Armed? && fd.deadline <= t {
            fd := Pending;
          }
        case Elsewhere(n) =>
          counter := n;
        case Add(when, repeat) =>
          var id := AddTimer(when, repeat);
        case Cancel(id) =>
          CancelTimer(id);
      }
    }

    method Callback(script: seq<Event>)
      requires ByUsers(script) && LegalRun(View(), script)
      modifies this
      ensures View() == Run(old(View()), script) && phase == old(phase)
    {
      var j := 0;
      while j < |script|
        invariant 0 <= j <= |script| && phase == old(phase)
        invariant LegalRun(View(), script[j..]) && Run(View(), script[j..]) == Run(old(View()), script)
      {
        assert script[j..] == [script[j]] + script[j + 1..];
        RunFirst(View(), script[j], script[j + 1..]);
        CallbackStep(script[j]);
        j := j + 1;
      }
    }

    /** Runs the i-th timer of the batch; `rest` is what happens after its callback. */
    method RunOne(batch: seq<Id>, i: nat, script: seq<Event>, ghost rest: seq<Event>)
      requires i < |batch| && phase == Running(batch, i) && ByUsers(script)
      requires LegalRun(View(), [RunNext] + (script + rest))
      modifies this
      ensures phase == Running(batch, i + 1) && LegalRun(View(), rest)
      ensures Run(View(), rest) == Run(old(View()), [RunNext] + (script + rest))
    {
      RunFirst(View(), RunNext, script + rest);
      EnterCallback(batch, i);
      RunSplit(View(), script, rest);
      Callback(script);
    }

    method EnterCallback(batch: seq<Id>, i: nat)
      requires i < |batch| && phase == Running(batch, i)
      modifies this`ran, this`phase
      ensures View() == Next(old(View()), RunNext) && phase == Running(batch, i + 1)
    {
      ran := ran + [(batchNo, batch[i])];
      phase := Running(batch, i + 1);
    }

    method RunBatch(batch: seq<Id>, scripts: seq<seq<Event>>)
      requires phase == Running(batch, 0) && |scripts| == |batch|
      requires forall i :: 0 <= i < |scripts| ==> ByUsers(scripts[i])
      requires LegalRun(View(), CallbackEvents(scripts))
      modifies this
      ensures View() == Run(old(View()), CallbackEvents(scripts))
      ensures phase == Running(batch, |batch|)
    {
      var i := 0;
      while i < |batch|
        invariant 0 <= i <= |batch| && phase == Running(batch, i)
        invariant LegalRun(View(), CallbackEvents(scripts[i..]))
        invariant Run(View(), CallbackEvents(scripts[i..])) == Run(old(View()), CallbackEvents(scripts))
      {
        CallbackCons(scripts, i);
        RunOne(batch, i, scripts[i], CallbackEvents(scripts[i + 1..]));
        i := i + 1;
      }
    }

    /** `handle_expiration` up to the return of `get_expired`. */
    method BeginExpiration() returns (batch: seq<Id>)
      modifies this
      ensures View() == Extracted(old(View())) && batch == Expired(old(timers), clock)
    {
      handling := true;
      var now := clock;
      if fd == Pending {
        fd := Disarmed;
      }
      batch := GetExpired(now);
      phase := Running(batch, 0);
      batchNo := batchNo + 1;
    }

    /** `handle_expiration` from the read of the timerfd to the last re-insertion. */
    method HandleExpiration(scripts: seq<seq<Event>>)
      requires phase == Idle && |scripts| == |Expired(timers, clock)|
      requires forall i :: 0 <= i < |scripts| ==> ByUsers(scripts[i])
      requires LegalRun(View(), ExpirationEvents(scripts))
      modifies this
      ensures View() == Run(old(View()), ExpirationEvents(scripts))
    {
      var rearm := [EndRun] + RearmEvents(|scripts|);
      RunFirst(View(), Expire, CallbackEvents(scripts) + rearm);
      var batch := BeginExpiration();
      RunSplit(View(), CallbackEvents(scripts), rearm);
      RunBatch(batch, scripts);
      RunFirst(View(), EndRun, RearmEvents(|scripts|));
      handling := false;
      phase := Rearming(batch, 0, false);
      HandleInterval(batch);
    }
  }
}
