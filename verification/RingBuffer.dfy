/** The byte buffer of net/RingBuffer.h: one array, a read cursor and a write cursor.
    `Ring` is the buffer seen as a value, `Next` what each operation does to it, and the
    class performs the same operations in place on an array. */
module RingBuffers {

  import opened Common

  const PREPEND: nat := 64
  const EXTRA: nat := 65536
  const WORD: nat := 0x1_0000_0000_0000_0000

  /** Capacity, read cursor and readable bytes; the write cursor is `rd + |data|`. */
  datatype Ring = Ring(cap: nat, rd: nat, data: seq<char>) {
    function Wr(): nat { rd + |data| }

    predicate Ok() { PREPEND <= cap && Wr() <= cap }

    function Free(): nat
      requires Ok()
    {
      cap - Wr()
    }
  }

  /** `write_size() + prepend_size() - s_prepend` in unsigned 64-bit arithmetic. */
  function Slack(free: nat, rd: nat): nat {
    if free + rd >= PREPEND then free + rd - PREPEND else WORD + free + rd - PREPEND
  }

  function Rearranged(v: Ring, len: nat): Ring
    requires v.Ok()
  {
    if Slack(v.Free(), v.rd) < len then v.(cap := v.Wr() + len) else v.(rd := PREPEND)
  }

  function WithRoom(v: Ring, len: nat): Ring
    requires v.Ok()
  {
    if v.Free() < len then Rearranged(v, len) else v
  }

  function Appended(v: Ring, s: seq<char>): Ring
    requires v.Ok()
  {
    var e := WithRoom(v, |s|);
    e.(data := e.data + s)
  }

  /** The bytes one `readv` can deliver: the free space, and 64 KiB more when that is short. */
  function ReadLimit(v: Ring): nat
    requires v.Ok()
  {
    if v.Free() < EXTRA then v.Free() + EXTRA else v.Free()
  }

  function Received(v: Ring, s: seq<char>): Ring
    requires v.Ok()
  {
    if |s| <= v.Free() then v.(data := v.data + s)
    else Appended(v.(data := v.data + s[..v.Free()]), s[v.Free()..])
  }

  function Skipped(v: Ring, n: nat): Ring
    requires n <= |v.data|
  {
    if n < |v.data| then Ring(v.cap, v.rd + n, v.data[n..]) else Ring(v.cap, PREPEND, [])
  }

  datatype Op =
    | AppendOp(s: seq<char>)
    | PrependOp(s: seq<char>)
    | SkipOp(n: nat)
    | ReadFdOp(s: seq<char>)

  /** `re_ring` may run only while at least 64 bytes are free outside the readable part. */
  predicate CanGrow(v: Ring, len: nat)
    requires v.Ok()
  {
    v.Free() < len ==> v.Free() + v.rd >= PREPEND
  }

  /** What the source's assertions (and the unsigned subtraction) demand of the caller. */
  predicate Legal(v: Ring, op: Op)
    requires v.Ok()
  {
    match op
    case AppendOp(s) => CanGrow(v, |s|)
    case PrependOp(s) => |s| <= v.rd
    case SkipOp(n) => n <= |v.data|
    case ReadFdOp(s) => |s| <= ReadLimit(v) && (v.Free() < |s| ==> v.rd >= PREPEND)
  }

  function Next(v: Ring, op: Op): (r: Ring)
    requires v.Ok() && Legal(v, op)
    ensures r.Ok()
  {
    match op
    case AppendOp(s) => Appended(v, s)
    case PrependOp(s) => Ring(v.cap, v.rd - |s|, s + v.data)
    case SkipOp(n) => Skipped(v, n)
    case ReadFdOp(s) => Received(v, s)
  }

  /** The same operations on a plain queue of bytes. */
  function QueueNext(q: seq<char>, op: Op): seq<char> {
    match op
    case AppendOp(s) => q + s
    case PrependOp(s) => s + q
    case SkipOp(n) => if n <= |q| then q[n..] else []
    case ReadFdOp(s) => q + s
  }

  lemma NextRefines(v: Ring, op: Op)
    requires v.Ok() && Legal(v, op)
    ensures Next(v, op).data == QueueNext(v.data, op)
  {
    if op.ReadFdOp? && |op.s| > v.Free() {
      var f := v.Free();
      assert v.data + op.s[..f] + op.s[f..] == v.data + op.s;
    }
  }

  ghost predicate LegalRun(v: Ring, ops: seq<Op>)
    requires v.Ok()
    decreases |ops|
  {
    ops == [] || (Legal(v, ops[0]) && LegalRun(Next(v, ops[0]), ops[1..]))
  }

  ghost function Run(v: Ring, ops: seq<Op>): (r: Ring)
    requires v.Ok() && LegalRun(v, ops)
    ensures r.Ok()
    decreases |ops|
  {
    if ops == [] then v else Run(Next(v, ops[0]), ops[1..])
  }

  function QueueRun(q: seq<char>, ops: seq<Op>): seq<char>
    decreases |ops|
  {
    if ops == [] then q else QueueRun(QueueNext(q, ops[0]), ops[1..])
  }

  /** Every run of buffer operations leaves exactly the bytes the plain queue would hold,
      through compaction, growth and both segments of the scatter read. */
  lemma {:induction false} RunRefinesQueue(v: Ring, ops: seq<Op>)
    requires v.Ok() && LegalRun(v, ops)
    ensures Run(v, ops).data == QueueRun(v.data, ops)
    decreases |ops|
  {
    if ops != [] {
      NextRefines(v, ops[0]);
      RunRefinesQueue(Next(v, ops[0]), ops[1..]);
    }
  }

  /** The largest number of readable bytes seen along a run. */
  ghost function Peak(v: Ring, ops: seq<Op>): (p: nat)
    requires v.Ok() && LegalRun(v, ops)
    ensures |v.data| <= p
    decreases |ops|
  {
    if ops == [] then |v.data| else Max(|v.data|, Peak(Next(v, ops[0]), ops[1..]))
  }

  /** A growing append gives a buffer smaller than 64 + readable + 2 * appended. */
  lemma GrowthBound(v: Ring, s: seq<char>)
    requires v.Ok() && CanGrow(v, |s|)
    ensures Appended(v, s).cap == v.cap || v.cap < Appended(v, s).cap < PREPEND + |v.data| + 2 * |s|
  {
  }

  lemma NextBound(v: Ring, op: Op)
    requires v.Ok() && v.rd >= PREPEND && Legal(v, op) && !op.PrependOp?
    ensures Next(v, op).rd >= PREPEND
    ensures Next(v, op).cap <= Max(v.cap, 63 + 2 * |Next(v, op).data|)
  {
    if op.ReadFdOp? && |op.s| > v.Free() {
      var f := v.Free();
      GrowthBound(v.(data := v.data + op.s[..f]), op.s[f..]);
    }
  }

  /** Without `prepend`, the capacity never exceeds the larger of the initial size and
      63 + 2 * the peak contents. */
  lemma {:induction false} SpaceBound(v: Ring, ops: seq<Op>)
    requires v.Ok() && v.rd >= PREPEND && LegalRun(v, ops)
    requires forall i :: 0 <= i < |ops| ==> !ops[i].PrependOp?
    ensures Run(v, ops).cap <= Max(v.cap, 63 + 2 * Peak(v, ops))
    decreases |ops|
  {
    if ops != [] {
      NextBound(v, ops[0]);
      SpaceBound(Next(v, ops[0]), ops[1..]);
    }
  }

  /** Without `prepend`, an append is always legal: the read cursor never drops below 64. */
  lemma {:induction false} NoPrependIsSafe(v: Ring, ops: seq<Op>, s: seq<char>)
    requires v.Ok() && v.rd >= PREPEND && LegalRun(v, ops)
    requires forall i :: 0 <= i < |ops| ==> !ops[i].PrependOp?
    ensures Legal(Run(v, ops), AppendOp(s))
    decreases |ops|
  {
    if ops != [] {
      NextBound(v, ops[0]);
      NoPrependIsSafe(Next(v, ops[0]), ops[1..], s);
    }
  }

  /** A drained buffer is like a new one of its size, however it was used. */
  lemma DrainedIsNew(v: Ring)
    requires v.Ok()
    ensures Next(v, SkipOp(|v.data|)) == Ring(v.cap, 64, [])
  {
  }

  /** Bytes put in front take no room from those to come, and skipping them undoes it. */
  lemma SkipUndoesPrepend(v: Ring, s: seq<char>)
    requires v.Ok() && Legal(v, PrependOp(s)) && v.data != []
    ensures Next(v, PrependOp(s)).Free() == v.Free() && Next(v, PrependOp(s)).cap == v.cap
    ensures Next(Next(v, PrependOp(s)), SkipOp(|s|)) == v
  {
    assert (s + v.data)[|s|..] == v.data;
  }

  /** An append that finds room, and a skip that leaves bytes, move nothing. */
  lemma RoomIsEnough(v: Ring, s: seq<char>, n: nat)
    requires v.Ok() && |s| <= v.cap - (v.rd + |v.data|) && n < |v.data|
    ensures Next(v, AppendOp(s)).cap == v.cap && Next(v, AppendOp(s)).rd == v.rd
    ensures Next(v, SkipOp(n)).cap == v.cap && Next(v, SkipOp(n)).rd == v.rd + n
  {
  }

  /** One read is offered at least 64 KiB, and the free space if that is more. */
  lemma ReadIsOffered(v: Ring, s: seq<char>)
    requires v.Ok() && v.rd >= 64
    ensures |s| <= 65536 || |s| <= v.cap - (v.rd + |v.data|) ==> Legal(v, ReadFdOp(s))
    ensures Legal(v, ReadFdOp(s)) ==> |s| < v.cap - (v.rd + |v.data|) + 65537
    ensures Legal(v, ReadFdOp(s)) && v.cap - (v.rd + |v.data|) >= 65536 ==> |s| <= v.cap - (v.rd + |v.data|)
  {
  }

  /** When `re_ring` is needed it makes room exactly if 64 bytes are free outside the readable
      part; otherwise the unsigned difference wraps and the compaction overruns the array. */
  lemma ReRingMakesRoom(v: Ring, len: nat)
    requires v.Ok() && v.Free() < len <= WORD - PREPEND
    ensures (Rearranged(v, len).Ok() && Rearranged(v, len).Free() >= len) <==> v.Free() + v.rd >= PREPEND
  {
  }

  /** The failing case is reachable: fill the 64-byte header by `prepend`, then append. */
  lemma PrependThenAppendOverruns()
    ensures exists s: seq<char> ::
              var v := Ring(PREPEND, PREPEND, []);
              && Legal(v, PrependOp(s))
              && !Legal(Next(v, PrependOp(s)), AppendOp("x"))
              && !Rearranged(Next(v, PrependOp(s)), 1).Ok()
  {
    var s := seq(PREPEND, i => 'h');
    var v := Next(Ring(PREPEND, PREPEND, []), PrependOp(s));
    assert v == Ring(PREPEND, 0, s + []) && |v.data| == PREPEND;
  }

  predicate CrlfAt(s: seq<char>, i: nat) {
    i + 1 < |s| && s[i] == '\r' && s[i + 1] == '\n'
  }

  /** Index of the first CRLF at or after `from`, or None. */
  function CrlfFrom(s: seq<char>, from: nat): (r: Option<nat>)
    requires from <= |s|
    ensures r.Some? ==> from <= r.value && CrlfAt(s, r.value)
    ensures forall i :: from <= i && CrlfAt(s, i) ==> r.Some? && r.value <= i
    decreases |s| - from
  {
    if from + 2 > |s| then None
    else if CrlfAt(s, from) then Some(from)
    else CrlfFrom(s, from + 1)
  }

  class RingBuffer {
    var buffer: array<char>
    var readStart: nat
    var writeStart: nat

    ghost predicate Valid()
      reads this
    {
      PREPEND <= buffer.Length && readStart <= writeStart <= buffer.Length
    }

    ghost function View(): (v: Ring)
      requires Valid()
      reads this, buffer
      ensures v.Ok() && v.Wr() == writeStart
    {
      Ring(buffer.Length, readStart, buffer[readStart..writeStart])
    }

    /** A buffer smaller than its header is out of shape from the start. */
    constructor (size: nat)
      ensures fresh(buffer)
      ensures Valid() <==> PREPEND <= size
      ensures Valid() ==> View() == Ring(size, PREPEND, [])
    {
      buffer := new char[size];
      readStart := PREPEND;
      writeStart := PREPEND;
    }

    /** The bytes between `read_ptr()` and `write_ptr()`. */
    function Readable(): seq<char>
      requires Valid()
      reads this, buffer
    {
      buffer[readStart..writeStart]
    }

    function ReadSize(): nat
      requires Valid()
      reads this
    {
      writeStart - readStart
    }

    function WriteSize(): nat
      requires Valid()
      reads this
    {
      buffer.Length - writeStart
    }

    method ReadSkipAll()
      requires Valid()
      modifies this
      ensures Valid() && buffer == old(buffer)
      ensures View() == Skipped(old(View()), |old(View()).data|) && Readable() == "" && readStart == PREPEND
    {
      readStart := PREPEND;
      writeStart := PREPEND;
    }

    method ReadSkip(len: nat)
      requires Valid() && len <= |Readable()|
      modifies this
      ensures Valid() && buffer == old(buffer)
      ensures View() == Next(old(View()), SkipOp(len)) && Readable() == old(Readable())[len..]
    {
      if len < ReadSize() {
        readStart := readStart + len;
      } else {
        ReadSkipAll();
      }
    }

    method ToString(len: nat) returns (s: seq<char>)
      requires Valid() && len <= |View().data|
      modifies this
      ensures Valid() && buffer == old(buffer)
      ensures s == old(View()).data[..len]
      ensures View() == Next(old(View()), SkipOp(len))
    {
      s := buffer[readStart..readStart + len];
      assert s == Readable()[..len];
      ReadSkip(len);
    }

    method ReadAllAsString() returns (s: seq<char>)
      requires Valid()
      modifies this
      ensures Valid() && buffer == old(buffer)
      ensures s == old(View()).data
      ensures View() == Next(old(View()), SkipOp(|s|))
    {
      s := buffer[readStart..writeStart];
      ReadSkipAll();
    }

    method ReRing(len: nat)
      requires Valid() && View().Free() < len
      requires CanGrow(View(), len)
      modifies this, buffer
      ensures Valid() && (buffer == old(buffer) || fresh(buffer))
      ensures View() == Rearranged(old(View()), len)
    {
      if Slack(WriteSize(), readStart) < len {
        var bigger := new char[writeStart + len];
        forall i | 0 <= i < buffer.Length {
          bigger[i] := buffer[i];
        }
        assert bigger[readStart..writeStart] == buffer[readStart..writeStart];
        buffer := bigger;
      } else {
        var readable := ReadSize();
        var from := readStart;
        forall i | 0 <= i < readable {
          buffer[PREPEND + i] := buffer[from + i];
        }
        readStart := PREPEND;
        writeStart := PREPEND + readable;
        assert buffer[readStart..writeStart] == old(buffer[readStart..writeStart]);
      }
    }

    method EnsureWrite(len: nat)
      requires Valid() && CanGrow(View(), len)
      modifies this, buffer
      ensures Valid() && (buffer == old(buffer) || fresh(buffer))
      ensures View() == WithRoom(old(View()), len)
      ensures WriteSize() >= len
    {
      if WriteSize() < len {
        ReRing(len);
      }
    }

    /** `std::copy` to the write cursor followed by `write_skip`. */
    method Put(s: seq<char>)
      requires Valid() && |s| <= View().Free()
      modifies this, buffer
      ensures Valid() && buffer == old(buffer)
      ensures View() == old(View()).(data := old(View()).data + s)
    {
      forall i | 0 <= i < |s| {
        buffer[writeStart + i] := s[i];
      }
      writeStart := writeStart + |s|;
      assert buffer[readStart..writeStart] == old(buffer[readStart..writeStart]) + s;
    }

    method Append(s: seq<char>)
      requires Valid() && Legal(View(), AppendOp(s))
      modifies this, buffer
      ensures Valid() && (buffer == old(buffer) || fresh(buffer))
      ensures View() == Next(old(View()), AppendOp(s))
    {
      EnsureWrite(|s|);
      Put(s);
    }

    method Prepend(s: seq<char>)
      requires Valid() && Legal(View(), PrependOp(s))
      modifies this, buffer
      ensures Valid() && buffer == old(buffer)
      ensures View() == Next(old(View()), PrependOp(s))
    {
      ghost var was, from := Readable(), readStart;
      readStart := readStart - |s|;
      forall i | 0 <= i < |s| {
        buffer[readStart + i] := s[i];
      }
      assert buffer[readStart..from] == s && buffer[from..writeStart] == was;
      assert buffer[readStart..writeStart] == buffer[readStart..from] + buffer[from..writeStart];
    }

    /** `incoming` is what `readv` delivers, None its failure. */
    method ReadFromFd(incoming: Option<seq<char>>) returns (n: int)
      requires Valid() && (incoming.Some? ==> Legal(View(), ReadFdOp(incoming.value)))
      modifies this, buffer
      ensures Valid() && (buffer == old(buffer) || fresh(buffer))
      ensures incoming.None? ==> n < 0 && View() == old(View())
      ensures incoming.Some? ==> n == |incoming.value| && View() == Next(old(View()), ReadFdOp(incoming.value))
    {
      if incoming.None? {
        return -1;
      }
      var s := incoming.value;
      n := |s|;
      var writable := WriteSize();
      if n <= writable {
        Put(s);
      } else {
        Put(s[..writable]);
        Append(s[writable..]);
      }
    }

    /** `std::search` for CRLF. */
    static method Search(s: seq<char>) returns (r: Option<nat>)
      ensures r == CrlfFrom(s, 0)
    {
      var i := 0;
      while i + 2 <= |s|
        invariant 0 <= i <= |s|
        invariant CrlfFrom(s, 0) == CrlfFrom(s, i)
      {
        if s[i] == '\r' && s[i + 1] == '\n' {
          return Some(i);
        }
        i := i + 1;
      }
      r := None;
    }

    /** Offset of the first CRLF from the read cursor, None where the source returns null. */
    method FindCrlf() returns (r: Option<nat>)
      requires Valid()
      ensures r == CrlfFrom(Readable(), 0)
    {
      r := Search(Readable());
    }
  }
}
