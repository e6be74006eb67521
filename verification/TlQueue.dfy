/** The singly linked priority queue of the common library. */
module TlQueue {
  import opened Sequences

  // ---------------------------------------------------------------- what the queue holds

  /** `arrival` numbers the items in the order in which they were put into the queue. */
  datatype Entry = Entry(priority: nat, arrival: nat)

  /** The order in which entries leave: a small priority value first, and first come first served among equals;
      without a priority callback just first come first served. */
  predicate Before(a: Entry, b: Entry, prioritised: bool) {
    if prioritised && a.priority != b.priority then a.priority < b.priority else a.arrival < b.arrival
  }

  ghost predicate Ordered(q: seq<Entry>, prioritised: bool) {
    forall i, j {:trigger q[i], q[j]} | 0 <= i < j < |q| :: Before(q[i], q[j], prioritised)
  }

  ghost predicate AllBefore(q: seq<Entry>, arrival: nat) {
    forall i {:trigger q[i]} | 0 <= i < |q| :: q[i].arrival < arrival
  }

  /** The search of queue_enq: the first entry of lower rank than `priority`. */
  function Place(q: seq<Entry>, priority: nat, from: nat): (p: nat)
    requires from <= |q|
    ensures from <= p <= |q| && (p < |q| ==> priority < q[p].priority)
    ensures forall i | from <= i < p :: q[i].priority <= priority
    decreases |q| - from
  {
    if from == |q| || priority < q[from].priority then from else Place(q, priority, from + 1)
  }

  /** queue_enq */
  function Enqueued(q: seq<Entry>, e: Entry, prioritised: bool): seq<Entry> {
    InsertAt(q, if prioritised then Place(q, e.priority, 0) else |q|, e)
  }

  // ---------------------------------------------------------------- the order is kept

  /** An entry that has just arrived fits in at `p`: what is before it has no greater priority value, and what
      comes after it has. */
  predicate Fits(q: seq<Entry>, p: nat, e: Entry, prioritised: bool)
    requires p <= |q|
  {
    if prioritised then (p > 0 ==> q[p - 1].priority <= e.priority) && (p < |q| ==> e.priority < q[p].priority) else p == |q|
  }

  lemma InsertAtKeepsOrderIff(q: seq<Entry>, p: nat, e: Entry, prioritised: bool)
    requires Ordered(q, prioritised) && p <= |q| && AllBefore(q, e.arrival)
    ensures Ordered(InsertAt(q, p, e), prioritised) <==> Fits(q, p, e, prioritised)
  {
    var r := InsertAt(q, p, e);
    if Fits(q, p, e, prioritised) {
      forall i, j | 0 <= i < j < |r|
        ensures Before(r[i], r[j], prioritised)
      {
        FitsBetween(q, p, e, prioritised, i, j);
      }
    }
    if Ordered(r, prioritised) {
      assert p > 0 ==> Before(r[p - 1], r[p], prioritised);
      assert p < |q| ==> Before(r[p], r[p + 1], prioritised);
    }
  }

  lemma FitsBetween(q: seq<Entry>, p: nat, e: Entry, prioritised: bool, i: nat, j: nat)
    requires Ordered(q, prioritised) && p <= |q| && AllBefore(q, e.arrival) && Fits(q, p, e, prioritised) && i < j <= |q|
    ensures Before(InsertAt(q, p, e)[i], InsertAt(q, p, e)[j], prioritised)
  {
    var r := InsertAt(q, p, e);
    assert i < p - 1 ==> Before(q[i], q[p - 1], prioritised);
    assert p < j - 1 ==> Before(q[p], q[j - 1], prioritised);
    if i != p && j != p {
      assert Before(q[if i < p then i else i - 1], q[if j < p then j else j - 1], prioritised);
    }
  }

  lemma EnqueueKeepsOrder(q: seq<Entry>, e: Entry, prioritised: bool)
    requires Ordered(q, prioritised) && AllBefore(q, e.arrival)
    ensures Ordered(Enqueued(q, e, prioritised), prioritised)
  {
    InsertAtKeepsOrderIff(q, if prioritised then Place(q, e.priority, 0) else |q|, e, prioritised);
  }

  /** queue_insert, at `p`: behind the tail it is queue_enq, which looks for the place itself. */
  function Inserted(q: seq<Entry>, p: nat, e: Entry, prioritised: bool): seq<Entry>
    requires p <= |q|
  {
    if p == |q| then Enqueued(q, e, prioritised) else InsertAt(q, p, e)
  }

  /** queue_insert keeps the order exactly if it is called for the place behind the tail, or the item fits in
      where it is put. */
  lemma InsertKeepsOrderIff(q: seq<Entry>, p: nat, e: Entry, prioritised: bool)
    requires Ordered(q, prioritised) && p <= |q| && AllBefore(q, e.arrival)
    ensures Ordered(Inserted(q, p, e, prioritised), prioritised) <==> p == |q| || Fits(q, p, e, prioritised)
  {
    if p == |q| {
      EnqueueKeepsOrder(q, e, prioritised);
    } else {
      InsertAtKeepsOrderIff(q, p, e, prioritised);
    }
  }

  /** In front of a queue of priorities 1 and 2 an item of priority 5 breaks the order, and so does an item of
      priority 0 in the middle of it. */
  lemma InsertCanBreakOrder()
    ensures var q := [Entry(1, 0), Entry(2, 1)];
            && Ordered(q, true)
            && !Ordered(Inserted(q, 0, Entry(5, 2), true), true) && !Ordered(Inserted(q, 1, Entry(0, 2), true), true)
  {
    var q := [Entry(1, 0), Entry(2, 1)];
    InsertKeepsOrderIff(q, 0, Entry(5, 2), true);
    InsertKeepsOrderIff(q, 1, Entry(0, 2), true);
  }

  lemma RemoveKeepsOrder(q: seq<Entry>, p: nat, prioritised: bool)
    requires Ordered(q, prioritised) && p < |q|
    ensures Ordered(RemoveAt(q, p), prioritised)
  {
    var r := RemoveAt(q, p);
    forall i, j | 0 <= i < j < |r|
      ensures Before(r[i], r[j], prioritised)
    {
      assert Before(q[if i < p then i else i + 1], q[if j < p then j else j + 1], prioritised);
    }
  }

  // ---------------------------------------------------------------- every run

  /** Removal is by position; taking from the front is the removal at 0. */
  datatype Op = Enq(priority: nat) | RemoveOp(p: nat)

  /** `taken` is what has left the queue, in order of leaving. */
  datatype Run = Run(q: seq<Entry>, arrivals: nat, taken: seq<Entry>)

  function RunStep(s: Run, op: Op, prioritised: bool): Run {
    match op
    case Enq(priority) => Run(Enqueued(s.q, Entry(priority, s.arrivals), prioritised), s.arrivals + 1, s.taken)
    case RemoveOp(p) => if p < |s.q| then Run(RemoveAt(s.q, p), s.arrivals, s.taken + [s.q[p]]) else s
  }

  function RunAll(s: Run, ops: seq<Op>, prioritised: bool): Run
    decreases |ops|
  {
    if ops == [] then s else RunAll(RunStep(s, ops[0], prioritised), ops[1..], prioritised)
  }

  /** The entries that `ops` put into the queue, in order of arrival, `n` being the number of the first. */
  function Came(ops: seq<Op>, n: nat): seq<Entry> {
    if ops == [] then []
    else if ops[0].Enq? then [Entry(ops[0].priority, n)] + Came(ops[1..], n + 1)
    else Came(ops[1..], n)
  }

  ghost predicate RunOk(s: Run, prioritised: bool) {
    Ordered(s.q, prioritised) && AllBefore(s.q, s.arrivals)
  }

  lemma RunStepKeeps(s: Run, op: Op, prioritised: bool)
    requires RunOk(s, prioritised)
    ensures RunOk(RunStep(s, op, prioritised), prioritised)
  {
    match op {
      case Enq(priority) => EnqueueKeepsOrder(s.q, Entry(priority, s.arrivals), prioritised);
      case RemoveOp(p) =>
        if p < |s.q| {
          RemoveKeepsOrder(s.q, p, prioritised);
        }
    }
  }

  /** What is in the queue and what has left it. */
  ghost function Bag(s: Run): multiset<Entry> {
    multiset(s.q) + multiset(s.taken)
  }

  lemma RunStepBag(s: Run, op: Op, prioritised: bool)
    ensures Bag(RunStep(s, op, prioritised)) == Bag(s) + if op.Enq? then multiset{Entry(op.priority, s.arrivals)} else multiset{}
  {
    match op {
      case Enq(priority) =>
        InsertAtBag(s.q, if prioritised then Place(s.q, priority, 0) else |s.q|, Entry(priority, s.arrivals));
      case RemoveOp(p) =>
        if p < |s.q| {
          RemoveAtBag(s.q, p);
        }
    }
  }

  lemma {:induction false} RunKeeps(s: Run, ops: seq<Op>, prioritised: bool)
    requires RunOk(s, prioritised)
    ensures RunOk(RunAll(s, ops, prioritised), prioritised)
    decreases |ops|
  {
    if ops != [] {
      RunStepKeeps(s, ops[0], prioritised);
      RunKeeps(RunStep(s, ops[0], prioritised), ops[1..], prioritised);
    }
  }

  function Later(op: Op, n: nat): nat {
    if op.Enq? then n + 1 else n
  }

  lemma CameFirst(ops: seq<Op>, n: nat)
    requires ops != []
    ensures multiset(Came(ops, n)) ==
            (if ops[0].Enq? then multiset{Entry(ops[0].priority, n)} else multiset{}) + multiset(Came(ops[1..], Later(ops[0], n)))
  {
  }

  lemma {:induction false} RunBag(s: Run, ops: seq<Op>, prioritised: bool)
    ensures Bag(RunAll(s, ops, prioritised)) == Bag(s) + multiset(Came(ops, s.arrivals))
    decreases |ops|
  {
    if ops != [] {
      RunStepBag(s, ops[0], prioritised);
      CameFirst(ops, s.arrivals);
      assert RunStep(s, ops[0], prioritised).arrivals == Later(ops[0], s.arrivals);
      RunBag(RunStep(s, ops[0], prioritised), ops[1..], prioritised);
    }
  }

  /** After any run of queue_enq, queue_deq, queue_remove and queue_delete on a new queue, whatever is in front
      goes before everything behind it, and the entries in the queue and those that left it are together exactly
      those that were put in, each with its priority and number of arrival. */
  lemma QueueIsStable(ops: seq<Op>, prioritised: bool)
    ensures var s := RunAll(Run([], 0, []), ops, prioritised);
            Ordered(s.q, prioritised) && multiset(s.q) + multiset(s.taken) == multiset(Came(ops, 0))
  {
    RunKeeps(Run([], 0, []), ops, prioritised);
    RunBag(Run([], 0, []), ops, prioritised);
  }

  // ---------------------------------------------------------------- the linked items

  datatype Status = Success | ParamInvalid | IsEmpty | NotFound

  /** `priority` is what the callback of the queue computes for the item. */
  class QueueItem {
    const priority: nat
    var next: QueueItem?

    constructor (priority: nat)
      ensures this.priority == priority && next == null
    {
      this.priority, next := priority, null;
    }
  }

  ghost predicate NextAt(items: seq<QueueItem>, i: nat)
    requires i < |items|
    reads items
  {
    items[i].next == if i + 1 < |items| then items[i + 1] else null
  }

  ghost predicate Chained(items: seq<QueueItem>)
    reads items
  {
    forall i {:trigger NextAt(items, i)} | 0 <= i < |items| :: NextAt(items, i)
  }

  ghost predicate Describes(q: seq<Entry>, items: seq<QueueItem>) {
    |q| == |items| && forall i {:trigger q[i]} {:trigger items[i]} | 0 <= i < |q| :: q[i].priority == items[i].priority
  }

  lemma WithIsChained(items: seq<QueueItem>, p: nat, x: QueueItem)
    requires p <= |items| && x.next == if p < |items| then items[p] else null
    requires p > 0 ==> items[p - 1].next == x
    requires forall i {:trigger NextAt(items, i)} | 0 <= i < |items| && i != p - 1 :: NextAt(items, i)
    ensures Chained(InsertAt(items, p, x))
  {
    var r := InsertAt(items, p, x);
    forall i | 0 <= i < |r|
      ensures NextAt(r, i)
    {
      if i < p - 1 {
        assert NextAt(items, i);
      } else if i > p {
        assert NextAt(items, i - 1);
      }
    }
  }

  lemma LessIsChained(items: seq<QueueItem>, p: nat)
    requires p < |items|
    requires p > 0 ==> items[p - 1].next == if p + 1 < |items| then items[p + 1] else null
    requires forall i {:trigger NextAt(items, i)} | 0 <= i < |items| && i != p - 1 :: NextAt(items, i)
    ensures Chained(RemoveAt(items, p))
  {
    var r := RemoveAt(items, p);
    forall i | 0 <= i < |r|
      ensures NextAt(r, i)
    {
      if i < p - 1 {
        assert NextAt(items, i);
      } else if i >= p {
        assert NextAt(items, i + 1);
      }
    }
  }

  lemma WithMembers(items: seq<QueueItem>, p: nat, x: QueueItem)
    requires p <= |items| && NoDuplicates(items) && x !in items
    ensures NoDuplicates(InsertAt(items, p, x))
  {
  }

  lemma LessMembers(items: seq<QueueItem>, p: nat)
    requires p < |items| && NoDuplicates(items)
    ensures NoDuplicates(RemoveAt(items, p)) && items[p] !in RemoveAt(items, p)
  {
  }

  /** `items` are the queued items in order and `q` says what they are; `arrivals` counts all that ever came. */
  class Queue {
    const prioritised: bool
    var head: QueueItem?
    var tail: QueueItem?
    var curNum: nat
    ghost var items: seq<QueueItem>
    ghost var q: seq<Entry>
    ghost var arrivals: nat

    ghost predicate Valid()
      reads this, items
    {
      && NoDuplicates(items) && Chained(items) && Describes(q, items) && curNum == |items|
      && (if items == [] then head == null && tail == null else head == items[0] && tail == items[|items| - 1])
    }

    /** queue_init */
    constructor (prioritised: bool)
      ensures Valid() && items == [] && q == [] && arrivals == 0 && this.prioritised == prioritised
    {
      this.prioritised := prioritised;
      head, tail, curNum := null, null, 0;
      items, q, arrivals := [], [], 0;
    }

    /** The newly linked item becomes part of what the queue is said to hold. */
    ghost method Adopt(item: QueueItem, p: nat)
      requires p <= |items| == |q| && NoDuplicates(items) && item !in items && Describes(q, items)
      requires Chained(InsertAt(items, p, item)) && curNum == |items| + 1
      requires head == InsertAt(items, p, item)[0] && tail == InsertAt(items, p, item)[|items|]
      modifies this`items, this`q, this`arrivals
      ensures Valid() && items == InsertAt(old(items), p, item) && arrivals == old(arrivals) + 1
      ensures q == InsertAt(old(q), p, Entry(item.priority, old(arrivals)))
    {
      WithMembers(items, p, item);
      items := InsertAt(items, p, item);
      q := InsertAt(q, p, Entry(item.priority, arrivals));
      arrivals := arrivals + 1;
    }

    ghost method Release(p: nat)
      requires p < |items| == |q| && NoDuplicates(items) && Describes(q, items)
      requires Chained(RemoveAt(items, p)) && curNum == |items| - 1
      requires if |items| == 1 then head == null && tail == null
               else head == RemoveAt(items, p)[0] && tail == RemoveAt(items, p)[|items| - 2]
      modifies this`items, this`q
      ensures Valid() && items == RemoveAt(old(items), p) && q == RemoveAt(old(q), p)
    {
      LessMembers(items, p);
      items := RemoveAt(items, p);
      q := RemoveAt(q, p);
    }

    /** The search loop of queue_enq. */
    method Search(priority: nat) returns (previous: QueueItem?, current: QueueItem?, ghost p: nat)
      requires Valid() && items != []
      ensures p == Place(q, priority, 0)
      ensures current == if Place(q, priority, 0) < |items| then items[Place(q, priority, 0)] else null
      ensures previous == if Place(q, priority, 0) > 0 then items[Place(q, priority, 0) - 1] else null
    {
      previous, current, p := null, head, 0;
      while current != null
        invariant p <= |items| && current == if p < |items| then items[p] else null
        invariant previous == if p > 0 then items[p - 1] else null
        invariant Place(q, priority, 0) == Place(q, priority, p)
        decreases |items| - p
      {
        if priority < current.priority {
          break;
        }
        assert NextAt(items, p);
        previous, current, p := current, current.next, p + 1;
      }
    }

    /** The pointer writes that put `item` between two neighbours. */
    method LinkBetween(previous: QueueItem?, item: QueueItem, current: QueueItem?, ghost p: nat)
      requires Valid() && items != [] && item !in items && p <= |items|
      requires current == (if p < |items| then items[p] else null) && previous == if p > 0 then items[p - 1] else null
      modifies this`head, this`tail, items`next, item`next
      ensures Chained(InsertAt(items, p, item)) && head == InsertAt(items, p, item)[0] && tail == InsertAt(items, p, item)[|items|]
    {
      if previous == null {
        head := item;
      } else {
        previous.next := item;
      }
      item.next := current;
      if current == null {
        tail := item;
      }
      forall i | 0 <= i < |items| && i != p - 1
        ensures NextAt(items, i)
      {
        assert old(NextAt(items, i));
      }
      WithIsChained(items, p, item);
    }

    /** The three ways in which queue_enq links an item. */
    method LinkNew(item: QueueItem) returns (ghost p: nat)
      requires Valid() && item !in items
      modifies this`head, this`tail, items`next, item`next
      ensures p == if prioritised then Place(q, item.priority, 0) else |items|
      ensures Chained(InsertAt(items, p, item)) && head == InsertAt(items, p, item)[0] && tail == InsertAt(items, p, item)[|items|]
    {
      p := |items|;
      if head == null {
        head, tail := item, item;
        item.next := null;
        WithIsChained(items, 0, item);
      } else if !prioritised {
        LinkBetween(tail, item, null, p);
      } else {
        var previous, current;
        previous, current, p := Search(item.priority);
        LinkBetween(previous, item, current, p);
      }
    }

    /** queue_enq */
    method Enq(item: QueueItem?) returns (r: Status)
      requires Valid() && (item != null ==> item !in items)
      modifies this, items, item
      ensures Valid() && r == if item == null then ParamInvalid else Success
      ensures item == null ==> items == old(items) && q == old(q) && arrivals == old(arrivals)
      ensures item != null ==>
                && q == Enqueued(old(q), Entry(item.priority, old(arrivals)), prioritised)
                && items == InsertAt(old(items), if prioritised then Place(old(q), item.priority, 0) else |old(items)|, item)
                && arrivals == old(arrivals) + 1
    {
      if item == null {
        return ParamInvalid;
      }
      ghost var p := LinkNew(item);
      curNum := curNum + 1;
      Adopt(item, p);
      r := Success;
    }

    /** queue_deq */
    method Deq() returns (item: QueueItem?)
      requires Valid()
      modifies this
      ensures Valid() && arrivals == old(arrivals)
      ensures item == if old(items) == [] then null else old(items)[0]
      ensures if old(items) == [] then items == [] && q == old(q) else items == RemoveAt(old(items), 0) && q == RemoveAt(old(q), 0)
    {
      item := head;
      if item != null {
        assert NextAt(items, 0);
        head := item.next;
        if head == null {
          tail := null;
        }
        curNum := curNum - 1;
        LessIsChained(items, 0);
        Release(0);
      }
    }

    /** queue_insert: `p` is the place after `prev`. Behind the tail it is the same as queue_enq, which puts the
        item where its priority belongs. */
    method Insert(item: QueueItem?, prev: QueueItem?, ghost p: nat) returns (r: Status)
      requires Valid() && p <= |items| && prev == (if p > 0 then items[p - 1] else null) && (item != null ==> item !in items)
      modifies this, items, item
      ensures Valid() && r == if item == null then ParamInvalid else Success
      ensures item == null ==> items == old(items) && q == old(q) && arrivals == old(arrivals)
      ensures item != null ==> arrivals == old(arrivals) + 1
      ensures item != null ==> q == Inserted(old(q), p, Entry(item.priority, old(arrivals)), prioritised)
      ensures item != null ==>
                items == InsertAt(old(items), if p == |old(items)| && prioritised then Place(old(q), item.priority, 0) else p, item)
    {
      if item == null {
        return ParamInvalid;
      }
      if head == null || prev == tail {
        r := Enq(item);
      } else {
        if prev == null {
          LinkBetween(prev, item, head, p);
        } else {
          assert NextAt(items, p - 1);
          LinkBetween(prev, item, prev.next, p);
        }
        curNum := curNum + 1;
        Adopt(item, p);
        r := Success;
      }
    }

    /** The pointer writes that take out the item after `previous`. */
    method Unlink(previous: QueueItem?, item: QueueItem, ghost p: nat)
      requires Valid() && p < |items| && items[p] == item && previous == if p > 0 then items[p - 1] else null
      modifies this`head, this`tail, items`next
      ensures Chained(RemoveAt(items, p))
      ensures if |items| == 1 then head == null && tail == null
              else head == RemoveAt(items, p)[0] && tail == RemoveAt(items, p)[|items| - 2]
    {
      assert NextAt(items, p);
      if head == item {
        head := item.next;
      } else if previous != null {
        previous.next := item.next;
      }
      if tail == item {
        tail := previous;
      }
      forall i | 0 <= i < |items| && i != p - 1
        ensures NextAt(items, i)
      {
        assert old(NextAt(items, i));
      }
      LessIsChained(items, p);
    }

    /** queue_remove: the caller names the item before the one to be removed. */
    method Remove(item: QueueItem?, prev: QueueItem?, ghost p: nat) returns (r: Status)
      requires Valid()
      requires items != [] && item != null ==> p < |items| && items[p] == item && prev == if p > 0 then items[p - 1] else null
      modifies this, items
      ensures Valid() && arrivals == old(arrivals) && r == if old(items) == [] || item == null then ParamInvalid else Success
      ensures r == ParamInvalid ==> items == old(items) && q == old(q)
      ensures r == Success ==> p < |old(items)| && items == RemoveAt(old(items), p) && q == RemoveAt(old(q), p)
    {
      if head == null || item == null {
        return ParamInvalid;
      }
      Unlink(prev, item, p);
      curNum := curNum - 1;
      Release(p);
      r := Success;
    }

    /** The search loop of queue_delete. */
    method Find(item: QueueItem) returns (previous: QueueItem?, current: QueueItem?, ghost p: nat)
      requires Valid() && items != []
      ensures current == if item in items then item else null
      ensures p <= |items| && (item in items <==> p < |items|) && (p < |items| ==> items[p] == item)
      ensures previous == (if p > 0 then items[p - 1] else null) && (p == |items| ==> item !in items)
    {
      previous, current, p := null, head, 0;
      while current != null && current != item
        invariant p <= |items| && current == if p < |items| then items[p] else null
        invariant previous == if p > 0 then items[p - 1] else null
        invariant item !in items[..p]
        decreases |items| - p
      {
        assert NextAt(items, p);
        previous, current, p := current, current.next, p + 1;
      }
    }

    /** queue_delete */
    method Delete(item: QueueItem?) returns (r: Status, ghost p: nat)
      requires Valid()
      modifies this, items
      ensures Valid() && arrivals == old(arrivals)
      ensures r == if item == null then ParamInvalid else if old(items) == [] then IsEmpty
                   else if item in old(items) then Success else NotFound
      ensures r != Success ==> items == old(items) && q == old(q)
      ensures r == Success ==> p < |old(items)| && old(items)[p] == item && items == RemoveAt(old(items), p) && q == RemoveAt(old(q), p)
    {
      p := 0;
      if item == null {
        return ParamInvalid, 0;
      }
      if head == null {
        return IsEmpty, 0;
      }
      var previous, current;
      previous, current, p := Find(item);
      if current == null {
        return NotFound, p;
      }
      Unlink(previous, item, p);
      curNum := curNum - 1;
      Release(p);
      r := Success;
    }
  }
}
