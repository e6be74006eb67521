/** Stream and message buffers: a ring of bytes, and on top of it discrete messages, each after its length. */
module StreamBuffer {

  type Byte = x: nat | x < 256

  // ---------------------------------------------------------------- framing

  /** sbBYTES_TO_STORE_MESSAGE_LENGTH for the default 32-bit length type. */
  const LENGTH_BYTES: nat := 4

  /** The bytes of a 32-bit length, lowest first. */
  function LengthBytes(n: nat): (b: seq<Byte>)
    ensures |b| == LENGTH_BYTES
  {
    [n % 0x100, n / 0x100 % 0x100, n / 0x1_0000 % 0x100, n / 0x100_0000 % 0x100]
  }

  function LengthOf(b: seq<Byte>): nat
    requires |b| == LENGTH_BYTES
  {
    b[0] as nat + 0x100 * b[1] as nat + 0x1_0000 * b[2] as nat + 0x100_0000 * b[3] as nat
  }

  lemma LengthRoundTrip(n: nat)
    ensures n < 0x1_0000_0000 <==> LengthOf(LengthBytes(n)) == n
  {
    assert n / 0x1_0000 == n / 0x100 / 0x100;
    assert n / 0x100_0000 == n / 0x1_0000 / 0x100;
  }

  function Frame(m: seq<Byte>): (f: seq<Byte>)
    ensures |f| == LENGTH_BYTES + |m|
  {
    LengthBytes(|m|) + m
  }

  /** The contents of a buffer that holds the messages `ms`. */
  function Frames(ms: seq<seq<Byte>>): seq<Byte> {
    if ms == [] then [] else Frame(ms[0]) + Frames(ms[1..])
  }

  // ---------------------------------------------------------------- what sending and receiving do to the contents

  /** How many bytes of `data` go into a buffer of `capacity` bytes that holds `c`. */
  function Accepted(c: seq<Byte>, capacity: nat, isMessage: bool, data: seq<Byte>): (n: nat)
    requires |c| <= capacity
    ensures n <= |data|
  {
    var space := capacity - |c|;
    if space == 0 then 0
    else if !isMessage then (if |data| < space then |data| else space)
    else if space >= |data| + LENGTH_BYTES then |data|
    else 0
  }

  function AfterSend(c: seq<Byte>, capacity: nat, isMessage: bool, data: seq<Byte>): seq<Byte>
    requires |c| <= capacity
  {
    var n := Accepted(c, capacity, isMessage, data);
    if n == 0 then c else if isMessage then c + LengthBytes(n) + data[..n] else c + data[..n]
  }

  datatype Received = Received(data: seq<Byte>, rest: seq<Byte>)

  function Least(a: nat, b: nat): nat {
    if a < b then a else b
  }

  /** Receiving into `room` bytes. */
  function AfterReceive(c: seq<Byte>, isMessage: bool, room: nat): Received {
    if !isMessage then
      var n := Least(|c|, room);
      Received(c[..n], c[n..])
    else if |c| <= LENGTH_BYTES || LengthOf(c[..LENGTH_BYTES]) > room then Received([], c)
    else
      var n := Least(|c| - LENGTH_BYTES, LengthOf(c[..LENGTH_BYTES]));
      Received(c[LENGTH_BYTES..LENGTH_BYTES + n], c[LENGTH_BYTES + n..])
  }

  // ---------------------------------------------------------------- a queue of whole messages

  datatype Op = Send(data: seq<Byte>) | Receive(room: nat)

  /** The messages held, and all that have been handed out. */
  datatype Queue = Queue(held: seq<seq<Byte>>, out: seq<seq<Byte>>)

  function Occupied(ms: seq<seq<Byte>>): nat {
    if ms == [] then 0 else LENGTH_BYTES + |ms[0]| + Occupied(ms[1..])
  }

  predicate OpOk(op: Op) {
    op.Send? ==> 0 < |op.data| < 0x1_0000_0000
  }

  /** A bounded queue of messages: a message is taken whole or not at all, the oldest message is handed out
      whole if there is room for it. */
  function QueueStep(q: Queue, capacity: nat, op: Op): Queue {
    match op
    case Send(m) => if Occupied(q.held) + LENGTH_BYTES + |m| <= capacity then q.(held := q.held + [m]) else q
    case Receive(room) =>
      if q.held != [] && |q.held[0]| <= room then Queue(q.held[1..], q.out + [q.held[0]]) else q.(out := q.out + [[]])
  }

  function QueueRun(q: Queue, capacity: nat, ops: seq<Op>): Queue
    decreases |ops|
  {
    if ops == [] then q else QueueRun(QueueStep(q, capacity, ops[0]), capacity, ops[1..])
  }

  /** The same on the contents of the buffer. */
  datatype Buffered = Buffered(c: seq<Byte>, out: seq<seq<Byte>>)

  function BufferStep(b: Buffered, capacity: nat, op: Op): Buffered
    requires |b.c| <= capacity
  {
    match op
    case Send(m) => b.(c := AfterSend(b.c, capacity, true, m))
    case Receive(room) => Buffered(AfterReceive(b.c, true, room).rest, b.out + [AfterReceive(b.c, true, room).data])
  }

  function BufferRun(b: Buffered, capacity: nat, ops: seq<Op>): Buffered
    requires |b.c| <= capacity
    decreases |ops|
  {
    if ops == [] then b
    else BufferStepFits(b, capacity, ops[0]); BufferRun(BufferStep(b, capacity, ops[0]), capacity, ops[1..])
  }

  lemma BufferStepFits(b: Buffered, capacity: nat, op: Op)
    requires |b.c| <= capacity
    ensures |BufferStep(b, capacity, op).c| <= capacity
  {
  }

  ghost predicate MessagesOk(ms: seq<seq<Byte>>) {
    forall i | 0 <= i < |ms| :: 0 < |ms[i]| < 0x1_0000_0000
  }

  lemma {:induction false} FramesLength(ms: seq<seq<Byte>>)
    ensures |Frames(ms)| == Occupied(ms)
    decreases |ms|
  {
    if ms != [] {
      FramesLength(ms[1..]);
    }
  }

  lemma {:induction false} FramesOneMore(ms: seq<seq<Byte>>, m: seq<Byte>)
    ensures Frames(ms + [m]) == Frames(ms) + Frame(m)
    decreases |ms|
  {
    if ms == [] {
      assert (ms + [m])[1..] == [];
      assert Frames([m]) == Frame(m) + [];
    } else {
      assert (ms + [m])[1..] == ms[1..] + [m];
      FramesOneMore(ms[1..], m);
      assert Frame(ms[0]) + (Frames(ms[1..]) + Frame(m)) == Frame(ms[0]) + Frames(ms[1..]) + Frame(m);
    }
  }

  /** A send stores all of the message or nothing. */
  lemma SendIsWhole(ms: seq<seq<Byte>>, capacity: nat, m: seq<Byte>)
    requires Occupied(ms) <= capacity && 0 < |m| < 0x1_0000_0000
    ensures |Frames(ms)| == Occupied(ms)
    ensures Accepted(Frames(ms), capacity, true, m) == if Occupied(ms) + LENGTH_BYTES + |m| <= capacity then |m| else 0
    ensures AfterSend(Frames(ms), capacity, true, m) ==
            Frames(if Occupied(ms) + LENGTH_BYTES + |m| <= capacity then ms + [m] else ms)
  {
    FramesLength(ms);
    FramesOneMore(ms, m);
    assert m[..|m|] == m;
    assert Frames(ms) + LengthBytes(|m|) + m == Frames(ms) + Frame(m);
  }

  lemma FrameSplits(m: seq<Byte>, rest: seq<Byte>)
    requires |m| < 0x1_0000_0000
    ensures var c := Frame(m) + rest;
            && LengthOf(c[..LENGTH_BYTES]) == |m|
            && c[LENGTH_BYTES..LENGTH_BYTES + |m|] == m && c[LENGTH_BYTES + |m|..] == rest
  {
    var c := Frame(m) + rest;
    assert c[..LENGTH_BYTES] == LengthBytes(|m|);
    LengthRoundTrip(|m|);
  }

  /** A receive hands out the oldest message, or nothing. */
  lemma ReceiveIsWhole(ms: seq<seq<Byte>>, room: nat)
    requires MessagesOk(ms)
    ensures AfterReceive(Frames(ms), true, room) ==
            if ms != [] && |ms[0]| <= room then Received(ms[0], Frames(ms[1..])) else Received([], Frames(ms))
  {
    if ms != [] {
      FrameSplits(ms[0], Frames(ms[1..]));
    }
  }

  lemma QueueStepKeeps(q: Queue, capacity: nat, op: Op)
    requires Occupied(q.held) <= capacity && MessagesOk(q.held) && OpOk(op)
    ensures Occupied(QueueStep(q, capacity, op).held) <= capacity && MessagesOk(QueueStep(q, capacity, op).held)
  {
    match op {
      case Send(m) =>
        FramesLength(q.held);
        FramesLength(q.held + [m]);
        FramesOneMore(q.held, m);
      case Receive(_) =>
    }
  }

  lemma BufferRefines(q: Queue, capacity: nat, op: Op)
    requires Occupied(q.held) <= capacity && MessagesOk(q.held) && OpOk(op)
    ensures |Frames(q.held)| <= capacity
    ensures var q' := QueueStep(q, capacity, op);
            BufferStep(Buffered(Frames(q.held), q.out), capacity, op) == Buffered(Frames(q'.held), q'.out)
  {
    FramesLength(q.held);
    match op {
      case Send(m) => SendIsWhole(q.held, capacity, m);
      case Receive(room) => ReceiveIsWhole(q.held, room);
    }
  }

  /** Over every run of sends and receives a message buffer behaves as a bounded queue of whole messages. */
  lemma {:induction false} MessageBufferIsQueue(q: Queue, capacity: nat, ops: seq<Op>)
    requires Occupied(q.held) <= capacity && MessagesOk(q.held) && forall k | 0 <= k < |ops| :: OpOk(ops[k])
    ensures |Frames(q.held)| <= capacity
    ensures var q' := QueueRun(q, capacity, ops);
            BufferRun(Buffered(Frames(q.held), q.out), capacity, ops) == Buffered(Frames(q'.held), q'.out)
    decreases |ops|
  {
    FramesLength(q.held);
    if ops != [] {
      BufferRefines(q, capacity, ops[0]);
      QueueStepKeeps(q, capacity, ops[0]);
      MessageBufferIsQueue(QueueStep(q, capacity, ops[0]), capacity, ops[1..]);
    }
  }

  // ---------------------------------------------------------------- a queue of bytes

  /** A stream buffer takes from the beginning of the data what there is space for, behind what it holds. */
  lemma StreamSendIsExact(c: seq<Byte>, capacity: nat, data: seq<Byte>)
    requires |c| <= capacity
    ensures var n := Accepted(c, capacity, false, data);
            && n <= |data| && |c| + n <= capacity && (n < |data| ==> |c| + n == capacity)
            && AfterSend(c, capacity, false, data) == c + data[..n]
  {
  }

  /** It hands out from the beginning of what it holds as much as there is room for. */
  lemma StreamReceiveIsExact(c: seq<Byte>, room: nat)
    ensures var r := AfterReceive(c, false, room);
            c == r.data + r.rest && |r.data| <= room && (|r.data| < room ==> r.rest == [])
  {
    assert c == c[..Least(|c|, room)] + c[Least(|c|, room)..];
  }

  /** The bytes held, all that have been taken, and all that have been handed out. */
  datatype Streamed = Streamed(c: seq<Byte>, taken: seq<Byte>, out: seq<Byte>)

  function StreamStep(b: Streamed, capacity: nat, op: Op): Streamed
    requires |b.c| <= capacity
  {
    match op
    case Send(data) =>
      Streamed(AfterSend(b.c, capacity, false, data), b.taken + data[..Accepted(b.c, capacity, false, data)], b.out)
    case Receive(room) =>
      var r := AfterReceive(b.c, false, room);
      Streamed(r.rest, b.taken, b.out + r.data)
  }

  function StreamRun(b: Streamed, capacity: nat, ops: seq<Op>): Streamed
    requires |b.c| <= capacity
    decreases |ops|
  {
    if ops == [] then b else StreamRun(StreamStep(b, capacity, ops[0]), capacity, ops[1..])
  }

  /** Over every run of sends and receives, what a stream buffer has handed out, with what it holds, is what it has taken,
      in order, and it never holds more than it can. */
  lemma {:induction false} StreamBufferIsByteQueue(b: Streamed, capacity: nat, ops: seq<Op>)
    requires |b.c| <= capacity && b.taken == b.out + b.c
    ensures var b' := StreamRun(b, capacity, ops);
            && b'.taken == b'.out + b'.c && |b'.c| <= capacity && b.taken <= b'.taken && b.out <= b'.out
    decreases |ops|
  {
    if ops != [] {
      var b1 := StreamStep(b, capacity, ops[0]);
      match ops[0] {
        case Send(data) => StreamSendIsExact(b.c, capacity, data);
        case Receive(room) => StreamReceiveIsExact(b.c, room);
      }
      assert b1.taken == b1.out + b1.c;
      StreamBufferIsByteQueue(b1, capacity, ops[1..]);
    }
  }

  // ---------------------------------------------------------------- the ring

  function Wrap(i: nat, length: nat): nat
    requires i < 2 * length
  {
    if i >= length then i - length else i
  }

  function RingAt(b: seq<Byte>, tail: nat, i: nat): Byte
    requires tail < |b| && i < |b|
  {
    b[Wrap(tail + i, |b|)]
  }

  /** The `n` bytes of the ring `b` from `tail` on. */
  function Ring(b: seq<Byte>, tail: nat, n: nat): (r: seq<Byte>)
    requires tail < |b| && n <= |b|
    ensures |r| == n
    ensures forall i {:trigger r[i]} | 0 <= i < n :: r[i] == RingAt(b, tail, i)
  {
    seq(n, i requires 0 <= i < n => RingAt(b, tail, i))
  }

  /** Overwriting part of a sequence. */
  function Patched(b: seq<Byte>, at: nat, data: seq<Byte>): (r: seq<Byte>)
    requires at + |data| <= |b|
    ensures |r| == |b|
    ensures forall i | 0 <= i < |b| :: r[i] == if at <= i < at + |data| then data[i - at] else b[i]
  {
    b[..at] + data + b[at + |data|..]
  }

  /** The two copies of prvReadBytesFromBuffer. */
  lemma ReadInTwo(b: seq<Byte>, tail: nat, n: nat)
    requires tail < |b| && n <= |b|
    ensures Ring(b, tail, n) == if tail + n <= |b| then b[tail..tail + n] else b[tail..] + b[..tail + n - |b|]
  {
  }

  /** The two copies of prvWriteBytesToBuffer. */
  function Written(b: seq<Byte>, head: nat, data: seq<Byte>): (r: seq<Byte>)
    requires head < |b| && |data| <= |b|
    ensures |r| == |b|
  {
    var first := Least(|b| - head, |data|);
    Patched(Patched(b, head, data[..first]), 0, data[first..])
  }

  lemma WrittenAt(b: seq<Byte>, head: nat, data: seq<Byte>, i: nat)
    requires head < |b| && |data| <= |b| && i < |b|
    ensures RingAt(Written(b, head, data), head, i) == if i < |data| then data[i] else RingAt(b, head, i)
  {
  }

  lemma WriteAppendsAt(b: seq<Byte>, tail: nat, n: nat, data: seq<Byte>, i: nat)
    requires tail < |b| && n + |data| <= |b| && n < |b| && i < n + |data|
    ensures var w := Written(b, Wrap(tail + n, |b|), data);
            RingAt(w, tail, i) == if i < n then RingAt(b, tail, i) else data[i - n]
  {
    var j := if i < n then |b| - n + i else i - n;
    SameSlot(|b|, tail, n, i, j);
    WrittenAt(b, Wrap(tail + n, |b|), data, j);
  }

  /** Slot `i` from the tail is slot `j` from the head. */
  lemma SameSlot(length: nat, tail: nat, n: nat, i: nat, j: nat)
    requires tail < length && n < length && i < length && j == if i < n then length - n + i else i - n
    ensures Wrap(tail + n, length) < length && Wrap(Wrap(tail + n, length) + j, length) == Wrap(tail + i, length)
  {
  }

  lemma RingsAgree(w: seq<Byte>, b: seq<Byte>, tail: nat, n: nat, data: seq<Byte>)
    requires |w| == |b| && tail < |b| && n + |data| <= |b|
    requires forall i {:trigger RingAt(w, tail, i)} | 0 <= i < n + |data| ::
               RingAt(w, tail, i) == if i < n then RingAt(b, tail, i) else data[i - n]
    ensures Ring(w, tail, n + |data|) == Ring(b, tail, n) + data
  {
  }

  /** Written behind the contents, the data is appended to them. */
  lemma WriteAppends(b: seq<Byte>, tail: nat, n: nat, data: seq<Byte>)
    requires tail < |b| && n + |data| <= |b| && n < |b|
    ensures Ring(Written(b, Wrap(tail + n, |b|), data), tail, n + |data|) == Ring(b, tail, n) + data
  {
    var w := Written(b, Wrap(tail + n, |b|), data);
    forall i | 0 <= i < n + |data|
      ensures RingAt(w, tail, i) == if i < n then RingAt(b, tail, i) else data[i - n]
    {
      WriteAppendsAt(b, tail, n, data, i);
    }
    RingsAgree(w, b, tail, n, data);
  }

  /** Moving the tail on drops the bytes that were read. */
  lemma ReadDrops(b: seq<Byte>, tail: nat, n: nat, k: nat)
    requires tail < |b| && k <= n < |b|
    ensures Ring(b, tail, k) == Ring(b, tail, n)[..k]
    ensures Ring(b, Wrap(tail + k, |b|), n - k) == Ring(b, tail, n)[k..]
  {
    var tail' := Wrap(tail + k, |b|);
    forall i | 0 <= i < n - k
      ensures Ring(b, tail', n - k)[i] == Ring(b, tail, n)[k..][i]
    {
      assert Wrap(tail' + i, |b|) == Wrap(tail + k + i, |b|);
    }
  }

  // ---------------------------------------------------------------- the object

  /** prvBytesInBuffer */
  function BytesIn(length: nat, head: nat, tail: nat): (n: nat)
    requires head < length && tail < length
    ensures n < length && Wrap(tail + n, length) == head
  {
    var count := length + head - tail;
    if count >= length then count - length else count
  }

  /** xStreamBufferSpacesAvailable */
  function SpacesIn(length: nat, head: nat, tail: nat): (n: nat)
    requires head < length && tail < length
    ensures n + BytesIn(length, head, tail) == length - 1
  {
    var space := length + tail - head - 1;
    if space >= length then space - length else space
  }

  lemma HeadMoves(length: nat, head: nat, tail: nat, k: nat)
    requires head < length && tail < length && BytesIn(length, head, tail) + k < length
    ensures var head' := Wrap(head + k, length);
            head' < length && BytesIn(length, head', tail) == BytesIn(length, head, tail) + k
  {
  }

  lemma WrittenIsAppended(b: seq<Byte>, b': seq<Byte>, head: nat, tail: nat, data: seq<Byte>)
    requires head < |b| && tail < |b| && BytesIn(|b|, head, tail) + |data| < |b| && b' == Written(b, head, data)
    ensures var head' := Wrap(head + |data|, |b|);
            head' < |b| && Ring(b', tail, BytesIn(|b|, head', tail)) == Ring(b, tail, BytesIn(|b|, head, tail)) + data
  {
    HeadMoves(|b|, head, tail, |data|);
    WriteAppends(b, tail, BytesIn(|b|, head, tail), data);
  }

  /** memcpy into the ring. */
  method Copy(buffer: array<Byte>, at: nat, data: seq<Byte>)
    requires at + |data| <= buffer.Length
    modifies buffer
    ensures buffer[..] == Patched(old(buffer[..]), at, data)
  {
    ghost var was := buffer[..];
    for i := 0 to |data|
      invariant forall k | 0 <= k < buffer.Length :: buffer[k] == if at <= k < at + i then data[k - at] else was[k]
    {
      buffer[at + i] := data[i];
    }
  }

  class StreamBuffer {
    const buffer: array<Byte>
    const isMessage: bool
    var head: nat
    var tail: nat

    ghost predicate Valid()
      reads this
    {
      head < buffer.Length && tail < buffer.Length
    }

    ghost function Contents(): seq<Byte>
      requires Valid()
      reads this, buffer
    {
      Ring(buffer[..], tail, BytesIn(buffer.Length, head, tail))
    }

    ghost function Capacity(): nat
      requires Valid()
      reads this
    {
      buffer.Length - 1
    }

    constructor (size: nat, isMessage: bool)
      requires size > if isMessage then LENGTH_BYTES else 0
      ensures Valid() && fresh(buffer) && Contents() == [] && Capacity() == size && this.isMessage == isMessage
    {
      buffer := new Byte[size + 1];
      this.isMessage := isMessage;
      head, tail := 0, 0;
    }

    /** The two copies of prvWriteBytesToBuffer: up to the end of the storage, and from its start. */
    method CopyAround(data: seq<Byte>)
      requires Valid() && |data| <= buffer.Length
      modifies buffer
      ensures buffer[..] == Written(old(buffer[..]), head, data)
    {
      var first := Least(buffer.Length - head, |data|);
      Copy(buffer, head, data[..first]);
      if |data| > first {
        Copy(buffer, 0, data[first..]);
      }
    }

    /** prvWriteBytesToBuffer */
    method WriteBytes(data: seq<Byte>)
      requires Valid() && |data| > 0 && |Contents()| + |data| <= Capacity()
      modifies this`head, buffer
      ensures Valid() && Contents() == old(Contents()) + data
    {
      ghost var b := buffer[..];
      CopyAround(data);
      WrittenIsAppended(b, buffer[..], head, tail, data);
      head := Wrap(head + |data|, buffer.Length);
    }

    /** prvReadBytesFromBuffer */
    method ReadBytes(max: nat, available: nat) returns (data: seq<Byte>)
      requires Valid() && available <= |Contents()|
      modifies this`tail
      ensures Valid()
      ensures var n := Least(available, max); data == old(Contents())[..n] && Contents() == old(Contents())[n..]
    {
      var count := Least(available, max);
      data := [];
      ReadDrops(buffer[..], tail, BytesIn(buffer.Length, head, tail), count);
      if count > 0 {
        var first := Least(buffer.Length - tail, count);
        data := buffer[tail..tail + first];
        if count > first {
          data := data + buffer[..count - first];
        }
        ReadInTwo(buffer[..], tail, count);
        tail := Wrap(tail + count, buffer.Length);
      }
    }

    /** xStreamBufferSendFromISR with prvWriteMessageToBuffer; empty data is refused by an assertion. */
    method Send(data: seq<Byte>) returns (sent: nat)
      requires Valid() && 0 < |data| < 0x1_0000_0000
      modifies this`head, buffer
      ensures Valid() && sent == Accepted(old(Contents()), Capacity(), isMessage, data)
      ensures Contents() == AfterSend(old(Contents()), Capacity(), isMessage, data)
      ensures |Contents()| + SpacesIn(buffer.Length, head, tail) == Capacity()
    {
      var space := SpacesIn(buffer.Length, head, tail);
      if space == 0 || (isMessage && space < |data| + LENGTH_BYTES) {
        return 0;
      }
      sent := |data|;
      if isMessage {
        WriteBytes(LengthBytes(|data|));
      } else {
        sent := Least(|data|, space);
      }
      WriteBytes(data[..sent]);
    }

    /** The message branch of prvReadMessageFromBuffer: the length is read first, and put back if there is not
        room for so much. */
    method ReadMessage(room: nat) returns (data: seq<Byte>)
      requires Valid() && |Contents()| > LENGTH_BYTES
      modifies this`tail
      ensures Valid() && Received(data, Contents()) == AfterReceive(old(Contents()), true, room)
    {
      var originalTail := tail;
      ghost var c := Contents();
      var available := BytesIn(buffer.Length, head, tail);
      var lengthBytes := ReadBytes(LENGTH_BYTES, available);
      var length := LengthOf(lengthBytes);
      if length > room {
        tail := originalTail;
        data := [];
      } else {
        data := ReadBytes(length, available - LENGTH_BYTES);
        AfterLength(c, length);
      }
    }

    /** xStreamBufferReceiveFromISR */
    method Receive(room: nat) returns (data: seq<Byte>)
      requires Valid()
      modifies this`tail
      ensures Valid() && Received(data, Contents()) == AfterReceive(old(Contents()), isMessage, room)
      ensures |Contents()| + SpacesIn(buffer.Length, head, tail) == Capacity()
    {
      var available := BytesIn(buffer.Length, head, tail);
      data := [];
      if available > if isMessage then LENGTH_BYTES else 0 {
        if isMessage {
          data := ReadMessage(room);
        } else {
          data := ReadBytes(room, available);
        }
      }
    }
  }

  lemma AfterLength(c: seq<Byte>, length: nat)
    requires |c| > LENGTH_BYTES
    ensures var n := Least(|c| - LENGTH_BYTES, length);
            c[LENGTH_BYTES..][..n] == c[LENGTH_BYTES..LENGTH_BYTES + n] && c[LENGTH_BYTES..][n..] == c[LENGTH_BYTES + n..]
  {
  }
}
