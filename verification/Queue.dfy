/** A queue object: a ring of slots, two lock counts and two waiting lists. Each method is one critical
    section, and its contract ties it to the step of the same name in the protocol. */
module Queue {
  import opened Lists
  import opened Modular
  import opened Wrappers
  import opened QP = QueueProtocol

  // ---------------------------------------------------------------- the ring of slots

  function Wrapped(x: nat, n: nat): nat {
    if x < n then x else x - n
  }

  /** The slot of item `i` when `read` is the slot last read from. */
  function Slot(read: nat, i: nat, n: nat): (r: nat)
    requires read < n && i <= n
    ensures r < n
  {
    Wrapped(Wrapped(read + 1, n) + i, n)
  }

  lemma SlotIsModular(read: nat, i: nat, n: nat)
    requires read < n && i <= n
    ensures Slot(read, i, n) == (read + 1 + i) % n
  {
    ModIs(read, 0, read, n);
    ModNext(read, n);
    ModPlus(read + 1, i, n);
  }

  function Ring<T>(data: seq<T>, read: nat, count: nat): seq<T>
    requires read < |data| && count <= |data|
  {
    seq(count, i requires 0 <= i < count => data[Slot(read, i, |data|)])
  }

  function NextSlot(p: nat, n: nat): nat {
    if p + 1 >= n then 0 else p + 1
  }

  function PreviousSlot(p: nat, n: nat): nat
    requires p < n
  {
    if p == 0 then n - 1 else p - 1
  }

  lemma PutBackRefines<T>(data: seq<T>, read: nat, count: nat, x: T)
    requires read < |data| && count < |data|
    ensures Ring(data[Slot(read, count, |data|) := x], read, count + 1) == Ring(data, read, count) + [x]
    ensures Slot(read, count + 1, |data|) == NextSlot(Slot(read, count, |data|), |data|)
  {
  }

  lemma PutFrontRefines<T>(data: seq<T>, read: nat, count: nat, x: T)
    requires read < |data| && count < |data|
    ensures Ring(data[read := x], PreviousSlot(read, |data|), count + 1) == [x] + Ring(data, read, count)
    ensures Slot(PreviousSlot(read, |data|), count + 1, |data|) == Slot(read, count, |data|)
  {
    var n, read' := |data|, PreviousSlot(read, |data|);
    var r := Ring(data[read := x], read', count + 1);
    forall i | 0 <= i < count
      ensures r[i + 1] == Ring(data, read, count)[i]
    {
      assert Slot(read', i + 1, n) == Slot(read, i, n) != read;
    }
  }

  lemma TakeRefines<T>(data: seq<T>, read: nat, count: nat)
    requires read < |data| && 0 < count <= |data|
    ensures data[NextSlot(read, |data|)] == Ring(data, read, count)[0]
    ensures Ring(data, NextSlot(read, |data|), count - 1) == Ring(data, read, count)[1..]
    ensures Slot(NextSlot(read, |data|), count - 1, |data|) == Slot(read, count, |data|)
  {
  }

  // ---------------------------------------------------------------- the object

  class Queue<T(0)> {
    const storage: array<T>
    var writeTo: nat
    var readFrom: nat
    var messages: nat
    var rxLock: int
    var txLock: int
    var receivers: seq<Item>
    var senders: seq<Item>

    ghost predicate Valid()
      reads this, storage
    {
      && readFrom < storage.Length && messages <= storage.Length
      && writeTo == Slot(readFrom, messages, storage.Length)
    }

    ghost function Contents(): seq<T>
      requires Valid()
      reads this, storage
    {
      Ring(storage[..], readFrom, messages)
    }

    /** This object is the queue that the protocol is in state `s` with. */
    ghost predicate Matches(s: QP.State<T>)
      reads this, storage
    {
      && Valid() && s.length == storage.Length && s.contents == Contents()
      && s.rxLock == rxLock && s.txLock == txLock && s.receivers == receivers && s.senders == senders
    }

    constructor (length: nat)
      requires length > 0
      ensures Valid() && fresh(storage) && storage.Length == length
      ensures forall now :: Matches(QP.Init<T>(length, now))
    {
      storage := new T[length];
      writeTo, readFrom, messages := 0, length - 1, 0;
      rxLock, txLock, receivers, senders := UNLOCKED, UNLOCKED, [], [];
      new;
      ModIs(length, 1, 0, length);
    }

    method WriteBack(item: T)
      requires Valid() && messages < storage.Length
      modifies this`writeTo, this`messages, storage
      ensures Valid() && Contents() == old(Contents()) + [item]
    {
      ghost var data := storage[..];
      PutBackRefines(data, readFrom, messages, item);
      storage[writeTo] := item;
      assert storage[..] == data[writeTo := item];
      writeTo := if writeTo + 1 >= storage.Length then 0 else writeTo + 1;
      messages := messages + 1;
    }

    method WriteFront(item: T, count: nat)
      requires Valid() && count <= messages && count < storage.Length
      requires writeTo == Slot(readFrom, count, storage.Length)
      modifies this`readFrom, this`messages, storage
      ensures Valid() && Contents() == [item] + old(Contents())[..count]
    {
      ghost var data, read := storage[..], readFrom;
      PutFrontRefines(data, read, count, item);
      assert Ring(data, read, count) == Contents()[..count];
      storage[readFrom] := item;
      assert storage[..] == data[read := item];
      readFrom := if readFrom == 0 then storage.Length - 1 else readFrom - 1;
      messages := count + 1;
    }

    /** prvCopyDataToQueue: one deque operation, whatever slot it lands in. */
    method CopyDataToQueue(item: T, position: Position)
      requires Valid()
      requires if position == Overwrite then storage.Length == 1 else messages < storage.Length
      modifies this`writeTo, this`readFrom, this`messages, storage
      ensures Valid() && Contents() == Store(old(Contents()), item, position)
      ensures match position
              case Back => Contents() == old(Contents()) + [item]
              case Front => Contents() == [item] + old(Contents())
              case Overwrite => Contents() == [item]
    {
      if position == Back {
        WriteBack(item);
      } else {
        var count := messages;
        if position == Overwrite && count > 0 {
          count := count - 1;
        }
        WriteFront(item, count);
      }
    }

    /** prvCopyDataFromQueue, with the count taken down as all its callers but the peeking ones do. */
    method CopyDataFromQueue() returns (item: T)
      requires Valid() && messages > 0
      modifies this`readFrom, this`messages
      ensures Valid() && item == old(Contents())[0] && Contents() == old(Contents())[1..]
    {
      TakeRefines(storage[..], readFrom, messages);
      readFrom := if readFrom + 1 >= storage.Length then 0 else readFrom + 1;
      item := storage[readFrom];
      messages := messages - 1;
    }

    /** The peeking use of prvCopyDataFromQueue: the read position is put back. */
    method PeekData() returns (item: T)
      requires Valid() && messages > 0
      modifies this`readFrom
      ensures Valid() && item == Contents()[0] && Contents() == old(Contents()) && readFrom == old(readFrom)
    {
      TakeRefines(storage[..], readFrom, messages);
      var original := readFrom;
      readFrom := if readFrom + 1 >= storage.Length then 0 else readFrom + 1;
      item := storage[readFrom];
      readFrom := original;
    }

    // -------------------------------------------------------------- critical sections

    /** xTaskRemoveFromEventList on the list of waiting receivers, if there are any. */
    method WakeReceiver() returns (woken: seq<nat>)
      modifies this`receivers
      ensures receivers == if old(receivers) == [] then [] else old(receivers)[1..]
      ensures woken == if old(receivers) == [] then [] else [old(receivers)[0].owner]
    {
      woken := [];
      if receivers != [] {
        woken := [receivers[0].owner];
        receivers := receivers[1..];
      }
    }

    method WakeSender() returns (woken: seq<nat>)
      modifies this`senders
      ensures senders == if old(senders) == [] then [] else old(senders)[1..]
      ensures woken == if old(senders) == [] then [] else [old(senders)[0].owner]
    {
      woken := [];
      if senders != [] {
        woken := [senders[0].owner];
        senders := senders[1..];
      }
    }

    /** xQueueGenericSendFromISR */
    method SendFromIsr(item: T, position: Position, ghost s: QP.State<T>) returns (done: bool, woken: seq<nat>)
      requires Matches(s) && PositionOk(s, position) && txLock != INT8_MAX
      modifies this, storage
      ensures Matches(QP.SendFromIsr(s, item, position))
      ensures QP.SendFromIsr(s, item, position).wokenReceivers == s.wokenReceivers + (set t | t in woken)
      ensures done == (|old(Contents())| < storage.Length || position == Overwrite)
      ensures if !done then Contents() == old(Contents())
              else match position
                   case Back => Contents() == old(Contents()) + [item]
                   case Front => Contents() == [item] + old(Contents())
                   case Overwrite => Contents() == [item]
    {
      done, woken := false, [];
      if messages < storage.Length || position == Overwrite {
        CopyDataToQueue(item, position);
        if txLock == UNLOCKED {
          woken := WakeReceiver();
        } else {
          txLock := txLock + 1;
        }
        done := true;
      }
    }

    /** xQueueReceiveFromISR */
    method ReceiveFromIsr(ghost s: QP.State<T>) returns (r: Option<T>, woken: seq<nat>)
      requires Matches(s) && rxLock != INT8_MAX
      modifies this
      ensures Matches(QP.ReceiveFromIsr(s))
      ensures QP.ReceiveFromIsr(s).wokenSenders == s.wokenSenders + (set t | t in woken)
      ensures r == if old(Contents()) == [] then None else Some(old(Contents())[0])
      ensures Contents() == if old(Contents()) == [] then [] else old(Contents())[1..]
    {
      r, woken := None, [];
      if messages > 0 {
        var item := CopyDataFromQueue();
        r := Some(item);
        if rxLock == UNLOCKED {
          woken := WakeSender();
        } else {
          rxLock := rxLock + 1;
        }
      }
    }

    /** The first loop of prvUnlockQueue. */
    method UnlockTx(ghost s: QP.State<T>) returns (woken: seq<nat>)
      requires Matches(s)
      modifies this`txLock, this`receivers
      ensures Matches(DrainReceivers(s))
      ensures DrainReceivers(s).wokenReceivers == s.wokenReceivers + (set t | t in woken)
    {
      woken := [];
      var lock := txLock;
      ghost var all := receivers;
      while lock > 0
        invariant |woken| <= |all| && receivers == all[|woken|..]
        invariant forall i | 0 <= i < |woken| :: woken[i] == all[i].owner
        invariant txLock == s.txLock && lock == txLock - |woken| && (lock >= 0 || woken == [])
      {
        if receivers == [] {
          break;
        }
        var w := WakeReceiver();
        woken := woken + w;
        lock := lock - 1;
      }
      assert |woken| == Drained(txLock, all);
      OwnersAre(all, woken);
      txLock := UNLOCKED;
    }

    /** The second loop of prvUnlockQueue. */
    method UnlockRx(ghost s: QP.State<T>) returns (woken: seq<nat>)
      requires Matches(s)
      modifies this`rxLock, this`senders
      ensures Matches(DrainSenders(s))
      ensures DrainSenders(s).wokenSenders == s.wokenSenders + (set t | t in woken)
    {
      woken := [];
      var lock := rxLock;
      ghost var all := senders;
      while lock > 0
        invariant |woken| <= |all| && senders == all[|woken|..]
        invariant forall i | 0 <= i < |woken| :: woken[i] == all[i].owner
        invariant rxLock == s.rxLock && lock == rxLock - |woken| && (lock >= 0 || woken == [])
      {
        if senders == [] {
          break;
        }
        var w := WakeSender();
        woken := woken + w;
        lock := lock - 1;
      }
      assert |woken| == Drained(rxLock, all);
      OwnersAre(all, woken);
      rxLock := UNLOCKED;
    }
  }

  lemma OwnersAre(all: seq<Item>, woken: seq<nat>)
    requires |woken| <= |all| && forall i | 0 <= i < |woken| :: woken[i] == all[i].owner
    ensures Owners(all[..|woken|]) == set t | t in woken
  {
    var front := all[..|woken|];
    assert forall i | 0 <= i < |front| :: front[i] == all[i];
    forall t | t in woken
      ensures t in Owners(front)
    {
      var i :| 0 <= i < |woken| && woken[i] == t;
      assert front[i].owner == t;
    }
  }
}
