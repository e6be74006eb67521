/** One writer and one reader on a stream buffer at the same time, without a lock. Each samples the other's
    index, copies byte by byte, and only then publishes its own index; between any two of these the other may
    do anything. */
module StreamProtocol {
  import opened Modular
  import B = StreamBuffer

  type Byte = B.Byte

  /** The writer is copying `data`, of which `done` bytes are in place. */
  datatype Writer = WIdle | WCopying(data: seq<Byte>, done: nat)

  /** The reader is to copy `count` bytes and has `got` so far. */
  datatype Reader = RIdle | RCopying(count: nat, got: seq<Byte>)

  /** `sent` is everything published by the writer, `received` everything handed out by the reader. */
  datatype State = State(
    buffer: seq<Byte>, head: nat, tail: nat, writer: Writer, reader: Reader, sent: seq<Byte>, received: seq<Byte>)

  datatype Event =
    | WriterSamples(data: seq<Byte>)   // takes as much of `data` as there is space for now
    | WriterCopies                     // one byte
    | WriterPublishes
    | ReaderSamples(room: nat)
    | ReaderCopies
    | ReaderPublishes

  predicate Enabled(s: State, e: Event) {
    && s.head < |s.buffer| && s.tail < |s.buffer|
    && match e
       case WriterSamples(data) => s.writer.WIdle?
       case WriterCopies => s.writer.WCopying? && s.writer.done < |s.writer.data| <= |s.buffer|
       case WriterPublishes => s.writer.WCopying? && s.writer.done == |s.writer.data| <= |s.buffer|
       case ReaderSamples(room) => s.reader.RIdle?
       case ReaderCopies => s.reader.RCopying? && |s.reader.got| < s.reader.count <= |s.buffer|
       case ReaderPublishes => s.reader.RCopying? && |s.reader.got| == s.reader.count <= |s.buffer|
  }

  function Step(s: State, e: Event): State {
    if !Enabled(s, e) then s else
      match e
      case WriterSamples(data) =>
        var n := B.Least(|data|, B.SpacesIn(|s.buffer|, s.head, s.tail));
        if n == 0 then s else s.(writer := WCopying(data[..n], 0))
      case WriterCopies =>
        s.(buffer := s.buffer[B.Wrap(s.head + s.writer.done, |s.buffer|) := s.writer.data[s.writer.done]],
           writer := s.writer.(done := s.writer.done + 1))
      case WriterPublishes =>
        s.(head := B.Wrap(s.head + |s.writer.data|, |s.buffer|), sent := s.sent + s.writer.data, writer := WIdle)
      case ReaderSamples(room) =>
        var n := B.Least(room, B.BytesIn(|s.buffer|, s.head, s.tail));
        if n == 0 then s else s.(reader := RCopying(n, []))
      case ReaderCopies =>
        s.(reader := s.reader.(got := s.reader.got + [s.buffer[B.Wrap(s.tail + |s.reader.got|, |s.buffer|)]]))
      case ReaderPublishes =>
        s.(tail := B.Wrap(s.tail + s.reader.count, |s.buffer|), received := s.received + s.reader.got, reader := RIdle)
  }

  function Exec(s: State, es: seq<Event>): State
    decreases |es|
  {
    if es == [] then s else Exec(Step(s, es[0]), es[1..])
  }

  function Init(length: nat): State {
    State(seq(length, _ => 0), 0, 0, WIdle, RIdle, [], [])
  }

  // ---------------------------------------------------------------- positions

  /** Where the byte number `i` of the whole stream is kept. */
  function Slot(i: nat, length: nat): nat
    requires length > 0
  {
    i % length
  }

  predicate Stored(buffer: seq<Byte>, i: nat, b: Byte)
    requires |buffer| > 0
  {
    buffer[Slot(i, |buffer|)] == b
  }

  /** The bytes of the stream from number `from` on are `data`. */
  ghost predicate Holds(buffer: seq<Byte>, from: nat, data: seq<Byte>)
    requires |buffer| > 0
  {
    forall j {:trigger data[j]} | 0 <= j < |data| :: Stored(buffer, from + j, data[j])
  }

  /** The index that is `i` places on from where byte number `a` is kept. */
  lemma WrapIsSlot(a: nat, i: nat, length: nat)
    requires length > 0 && i <= length
    ensures B.Wrap(Slot(a, length) + i, length) == Slot(a + i, length)
  {
    ModPlus(a, i, length);
  }

  lemma BytesAre(w: nat, r: nat, length: nat)
    requires length > 0 && r <= w < r + length
    ensures B.BytesIn(length, Slot(w, length), Slot(r, length)) == w - r
    ensures B.SpacesIn(length, Slot(w, length), Slot(r, length)) == length - 1 - (w - r)
  {
    WrapIsSlot(r, w - r, length);
  }

  /** Writing byte number `p` leaves those of less than a round before it. */
  lemma WriteLeaves(buffer: seq<Byte>, p: nat, b: Byte, from: nat, data: seq<Byte>)
    requires |buffer| > 0 && Holds(buffer, from, data) && from + |data| <= p < from + |buffer|
    ensures Holds(buffer[Slot(p, |buffer|) := b], from, data)
  {
    forall j | 0 <= j < |data|
      ensures Stored(buffer[Slot(p, |buffer|) := b], from + j, data[j])
    {
      assert Stored(buffer, from + j, data[j]);
      ModDiffers(from + j, p, |buffer|);
    }
  }

  lemma WriteExtends(buffer: seq<Byte>, from: nat, data: seq<Byte>, k: nat)
    requires k < |data| < |buffer| && Holds(buffer, from, data[..k])
    ensures Holds(buffer[Slot(from + k, |buffer|) := data[k]], from, data[..k + 1])
  {
    var buffer' := buffer[Slot(from + k, |buffer|) := data[k]];
    var longer := data[..k + 1];
    WriteLeaves(buffer, from + k, data[k], from, data[..k]);
    forall j | 0 <= j < |longer|
      ensures Stored(buffer', from + j, longer[j])
    {
      assert j < k ==> Stored(buffer', from + j, data[..k][j]);
    }
  }

  lemma HoldsBoth(buffer: seq<Byte>, from: nat, a: seq<Byte>, b: seq<Byte>)
    requires |buffer| > 0 && Holds(buffer, from, a) && Holds(buffer, from + |a|, b)
    ensures Holds(buffer, from, a + b)
  {
    forall j | 0 <= j < |a + b|
      ensures Stored(buffer, from + j, (a + b)[j])
    {
      if j >= |a| {
        assert Stored(buffer, from + |a| + (j - |a|), b[j - |a|]);
      } else {
        assert Stored(buffer, from + j, a[j]);
      }
    }
  }

  lemma HoldsTail(buffer: seq<Byte>, from: nat, a: seq<Byte>, k: nat)
    requires |buffer| > 0 && Holds(buffer, from, a) && k <= |a|
    ensures Holds(buffer, from + k, a[k..])
  {
    forall j | 0 <= j < |a[k..]|
      ensures Stored(buffer, from + k + j, a[k..][j])
    {
      assert Stored(buffer, from + (k + j), a[k + j]);
    }
  }

  // ---------------------------------------------------------------- what every step keeps

  /** The indices are the counts of bytes published and handed out, the bytes in between are in the buffer,
      and what has been handed out is the beginning of what was sent. */
  ghost predicate RingOk(s: State) {
    var length, w, r := |s.buffer|, |s.sent|, |s.received|;
    && length > 0 && r <= w < r + length && s.head == Slot(w, length) && s.tail == Slot(r, length)
    && s.received == s.sent[..r] && Holds(s.buffer, r, s.sent[r..])
  }

  /** The writer has room for all it is copying, however long ago it looked. */
  ghost predicate WriterOk(s: State)
    requires |s.buffer| > 0
  {
    s.writer.WCopying? ==>
      && 0 < |s.writer.data| && s.writer.done <= |s.writer.data|
      && |s.sent| + |s.writer.data| < |s.received| + |s.buffer|
      && Holds(s.buffer, |s.sent|, s.writer.data[..s.writer.done])
  }

  /** The reader is copying bytes that were published. */
  ghost predicate ReaderOk(s: State) {
    s.reader.RCopying? ==>
      && 0 < s.reader.count && |s.received| + s.reader.count <= |s.sent| && |s.reader.got| <= s.reader.count
      && s.reader.got == s.sent[|s.received|..|s.received| + |s.reader.got|]
  }

  ghost predicate Inv(s: State) {
    RingOk(s) && WriterOk(s) && ReaderOk(s)
  }

  lemma WriterSamplesKeeps(s: State, data: seq<Byte>)
    requires Inv(s)
    ensures Inv(Step(s, WriterSamples(data)))
  {
    BytesAre(|s.sent|, |s.received|, |s.buffer|);
  }

  lemma WriterCopiesKeeps(s: State)
    requires Inv(s) && Enabled(s, WriterCopies)
    ensures Inv(Step(s, WriterCopies))
  {
    var w, r, k, data := |s.sent|, |s.received|, s.writer.done, s.writer.data;
    WrapIsSlot(w, k, |s.buffer|);
    WriteLeaves(s.buffer, w + k, data[k], r, s.sent[r..]);
    WriteExtends(s.buffer, w, data, k);
  }

  lemma PublishKeepsRing(s: State)
    requires Inv(s) && Enabled(s, WriterPublishes)
    ensures RingOk(Step(s, WriterPublishes))
  {
    var r, data := |s.received|, s.writer.data;
    WrapIsSlot(|s.sent|, |data|, |s.buffer|);
    assert data[..s.writer.done] == data;
    HoldsBoth(s.buffer, r, s.sent[r..], data);
    assert (s.sent + data)[r..] == s.sent[r..] + data;
    assert (s.sent + data)[..r] == s.sent[..r];
  }

  lemma PublishKeepsReader(s: State)
    requires ReaderOk(s) && s.writer.WCopying?
    ensures ReaderOk(s.(sent := s.sent + s.writer.data))
  {
    if s.reader.RCopying? {
      var r, k := |s.received|, |s.received| + |s.reader.got|;
      assert (s.sent + s.writer.data)[r..k] == s.sent[r..k];
    }
  }

  lemma WriterPublishesKeeps(s: State)
    requires Inv(s) && Enabled(s, WriterPublishes)
    ensures Inv(Step(s, WriterPublishes))
  {
    PublishKeepsRing(s);
    PublishKeepsReader(s);
  }

  lemma ReaderSamplesKeeps(s: State, room: nat)
    requires Inv(s)
    ensures Inv(Step(s, ReaderSamples(room)))
  {
    BytesAre(|s.sent|, |s.received|, |s.buffer|);
  }

  lemma ReaderCopiesKeeps(s: State)
    requires Inv(s) && Enabled(s, ReaderCopies)
    ensures Inv(Step(s, ReaderCopies))
  {
    var r, k := |s.received|, |s.reader.got|;
    WrapIsSlot(r, k, |s.buffer|);
    assert Stored(s.buffer, r + k, s.sent[r..][k]);
    assert s.sent[r..r + k] + [s.sent[r + k]] == s.sent[r..r + k + 1];
  }

  lemma ReaderPublishesKeeps(s: State)
    requires Inv(s) && Enabled(s, ReaderPublishes)
    ensures Inv(Step(s, ReaderPublishes))
  {
    var r, k := |s.received|, s.reader.count;
    WrapIsSlot(r, k, |s.buffer|);
    HoldsTail(s.buffer, r, s.sent[r..], k);
    assert s.sent[r..][k..] == s.sent[r + k..];
    assert s.sent[..r] + s.sent[r..r + k] == s.sent[..r + k];
  }

  lemma StepKeepsInv(s: State, e: Event)
    requires Inv(s)
    ensures Inv(Step(s, e))
  {
    if Enabled(s, e) {
      match e {
        case WriterSamples(data) => WriterSamplesKeeps(s, data);
        case WriterCopies => WriterCopiesKeeps(s);
        case WriterPublishes => WriterPublishesKeeps(s);
        case ReaderSamples(room) => ReaderSamplesKeeps(s, room);
        case ReaderCopies => ReaderCopiesKeeps(s);
        case ReaderPublishes => ReaderPublishesKeeps(s);
      }
    }
  }

  lemma {:induction false} ExecKeepsInv(s: State, es: seq<Event>)
    requires Inv(s)
    ensures Inv(Exec(s, es))
    decreases |es|
  {
    if es != [] {
      StepKeepsInv(s, es[0]);
      ExecKeepsInv(Step(s, es[0]), es[1..]);
    }
  }

  lemma InitIsOk(length: nat)
    requires length > 0
    ensures Inv(Init(length))
  {
  }

  /** The writer takes the beginning of what it is given, as much as the space not yet sent and unread allows; the
      reader takes as much as was sent and is unread, up to the room it has. */
  lemma SamplesAreExact(s: State, data: seq<Byte>, room: nat)
    requires Inv(s)
    ensures var unread := |s.sent| - |s.received|;
            var n, k := B.Least(|data|, |s.buffer| - 1 - unread), B.Least(room, unread);
            && (s.writer.WIdle? ==> Step(s, WriterSamples(data)) == if n == 0 then s else s.(writer := WCopying(data[..n], 0)))
            && (s.reader.RIdle? ==> Step(s, ReaderSamples(room)) == if k == 0 then s else s.(reader := RCopying(k, [])))
  {
    BytesAre(|s.sent|, |s.received|, |s.buffer|);
  }

  // ---------------------------------------------------------------- main theorems

  /** In every interleaving, what has been received is a prefix of what was sent, and everything sent and not
      yet received is in the buffer. */
  lemma ReceivedIsPrefix(length: nat, es: seq<Event>)
    requires length > 0
    ensures var s := Exec(Init(length), es);
            && |s.buffer| > 0 && |s.received| <= |s.sent| < |s.received| + |s.buffer|
            && s.received == s.sent[..|s.received|]
            && Holds(s.buffer, |s.received|, s.sent[|s.received|..])
  {
    InitIsOk(length);
    ExecKeepsInv(Init(length), es);
  }

  /** In every interleaving, a byte that the writer puts into the buffer lands on no byte that was sent and has
      not been handed out, nor on one that the reader is about to copy. */
  lemma NoUnreadByteIsOverwritten(length: nat, es: seq<Event>, i: nat)
    requires length > 0
    ensures var s := Exec(Init(length), es);
            Enabled(s, WriterCopies) && |s.received| <= i < |s.sent| ==>
              Slot(i, |s.buffer|) != B.Wrap(s.head + s.writer.done, |s.buffer|)
  {
    InitIsOk(length);
    ExecKeepsInv(Init(length), es);
    var s := Exec(Init(length), es);
    if Enabled(s, WriterCopies) && |s.received| <= i < |s.sent| {
      WrapIsSlot(|s.sent|, s.writer.done, |s.buffer|);
      ModDiffers(i, |s.sent| + s.writer.done, |s.buffer|);
    }
  }
}
