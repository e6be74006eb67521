/** The abstract value of the kernel's lists: the items in order, and the position of `pxIndex`. */
module Lists {
  import opened Sequences

  datatype Item = Item(owner: nat, value: nat)

  // ---------------------------------------------------------------- items in order

  ghost predicate Sorted(s: seq<Item>) {
    forall i, j | 0 <= i < j < |s| :: s[i].value <= s[j].value
  }

  ghost predicate Distinct(s: seq<Item>) {
    forall i, j | 0 <= i < j < |s| :: s[i].owner != s[j].owner
  }

  predicate Has(s: seq<Item>, t: nat) {
    exists i :: 0 <= i < |s| && s[i].owner == t
  }

  /** The place that the search loop of vListInsert finds: after every item whose value is not greater. */
  function InsertPoint(s: seq<Item>, v: nat): (p: nat)
    ensures p <= |s| && forall i | 0 <= i < p :: s[i].value <= v
    ensures p < |s| ==> s[p].value > v
  {
    SearchFrom(s, v, 0)
  }

  function SearchFrom(s: seq<Item>, v: nat, from: nat): (p: nat)
    requires from <= |s|
    ensures from <= p <= |s| && forall i | from <= i < p :: s[i].value <= v
    ensures p < |s| ==> s[p].value > v
    decreases |s| - from
  {
    if from == |s| || s[from].value > v then from else SearchFrom(s, v, from + 1)
  }

  /** vListInsert */
  function InsertSorted(s: seq<Item>, x: Item): seq<Item> {
    InsertAt(s, InsertPoint(s, x.value), x)
  }

  function Find(s: seq<Item>, t: nat): (p: nat)
    requires Has(s, t)
    ensures p < |s| && s[p].owner == t
  {
    FindFrom(s, t, 0)
  }

  function FindFrom(s: seq<Item>, t: nat, from: nat): (p: nat)
    requires exists i :: from <= i < |s| && s[i].owner == t
    ensures p < |s| && s[p].owner == t
    decreases |s| - from
  {
    if s[from].owner == t then from else FindFrom(s, t, from + 1)
  }

  /** uxListRemove, for the item owned by `t`. */
  function Remove(s: seq<Item>, t: nat): seq<Item>
    requires Has(s, t)
  {
    RemoveAt(s, Find(s, t))
  }

  lemma InsertKeepsMembers(s: seq<Item>, p: nat, x: Item)
    requires p <= |s| && Distinct(s) && !Has(s, x.owner)
    ensures Distinct(InsertAt(s, p, x))
    ensures forall t :: Has(InsertAt(s, p, x), t) <==> Has(s, t) || t == x.owner
  {
    var r := InsertAt(s, p, x);
    forall t
      ensures Has(r, t) <==> Has(s, t) || t == x.owner
    {
      if i :| 0 <= i < |s| && s[i].owner == t {
        assert r[if i < p then i else i + 1].owner == t;
      }
      if t == x.owner {
        assert r[p].owner == t;
      }
    }
  }

  lemma RemoveKeepsMembers(s: seq<Item>, t: nat)
    requires Distinct(s) && Has(s, t)
    ensures Distinct(Remove(s, t))
    ensures forall u :: Has(Remove(s, t), u) <==> Has(s, u) && u != t
    ensures Sorted(s) ==> Sorted(Remove(s, t))
  {
    var p := Find(s, t);
    var r := Remove(s, t);
    forall u
      ensures Has(r, u) <==> Has(s, u) && u != t
    {
      if i :| 0 <= i < |s| && s[i].owner == u && u != t {
        assert r[if i < p then i else i - 1].owner == u;
      }
    }
  }

  lemma TailKeepsMembers(s: seq<Item>)
    requires s != [] && Distinct(s)
    ensures Distinct(s[1..]) && (Sorted(s) ==> Sorted(s[1..]))
    ensures Has(s, s[0].owner)
    ensures forall u :: Has(s[1..], u) <==> Has(s, u) && u != s[0].owner
  {
    forall u
      ensures Has(s[1..], u) <==> Has(s, u) && u != s[0].owner
    {
      if i :| 0 <= i < |s| && s[i].owner == u && u != s[0].owner {
        assert s[1..][i - 1].owner == u;
      }
    }
  }

  lemma InsertAtKeepsOrder(s: seq<Item>, p: nat, x: Item)
    requires Sorted(s) && p <= |s|
    requires p > 0 ==> s[p - 1].value <= x.value
    requires p < |s| ==> x.value <= s[p].value
    ensures Sorted(InsertAt(s, p, x))
  {
    var r := InsertAt(s, p, x);
    forall i, j | 0 <= i < j < |r|
      ensures r[i].value <= r[j].value
    {
      if i < p {
        assert r[i] == s[i] && s[i].value <= s[p - 1].value;
      }
      if j > p {
        assert r[j] == s[j - 1] && s[p].value <= s[j - 1].value;
      }
    }
  }

  /** A sorted insert keeps the order, and comes after everything that was there with the same value. */
  lemma InsertSortedIsStable(s: seq<Item>, x: Item)
    requires Sorted(s)
    ensures var p := InsertPoint(s, x.value);
            && Sorted(InsertSorted(s, x))
            && InsertSorted(s, x)[p] == x
            && forall i | p <= i < |s| :: s[i].value > x.value
  {
    InsertAtKeepsOrder(s, InsertPoint(s, x.value), x);
  }

  /** Removing an item undoes its insertion, wherever it went. */
  lemma RemoveUndoesInsert(s: seq<Item>, p: nat, x: Item)
    requires p <= |s| && Distinct(s) && !Has(s, x.owner)
    ensures Has(InsertAt(s, p, x), x.owner)
    ensures Remove(InsertAt(s, p, x), x.owner) == s
  {
    InsertKeepsMembers(s, p, x);
    var r := InsertAt(s, p, x);
    assert r[p].owner == x.owner;
    assert Find(r, x.owner) == p;
    assert RemoveAt(r, p) == s;
  }

  /** The item of `t` gets another value where it is: the list is not sorted again. */
  function Revalued(w: seq<Item>, t: nat, value: nat): (r: seq<Item>)
    ensures |r| == |w|
  {
    seq(|w|, i requires 0 <= i < |w| => if w[i].owner == t then Item(t, value) else w[i])
  }

  lemma RevaluedMembers(w: seq<Item>, t: nat, value: nat)
    ensures forall u :: Has(Revalued(w, t, value), u) <==> Has(w, u)
    ensures Distinct(w) ==> Distinct(Revalued(w, t, value))
  {
    var r := Revalued(w, t, value);
    assert forall i | 0 <= i < |w| :: r[i].owner == w[i].owner;
    forall u
      ensures Has(r, u) <==> Has(w, u)
    {
      if i :| 0 <= i < |w| && w[i].owner == u {
        assert r[i].owner == u;
      }
    }
  }

  /** The new value is between those of the neighbours. */
  predicate FitsIn(w: seq<Item>, t: nat, value: nat) {
    Has(w, t) ==>
      var p := Find(w, t);
      (p > 0 ==> w[p - 1].value <= value) && (p + 1 < |w| ==> value <= w[p + 1].value)
  }

  /** Revaluing an item where it is leaves a sorted list sorted exactly if the new value fits in. */
  lemma RevalueKeepsOrderIff(w: seq<Item>, t: nat, value: nat)
    requires Sorted(w) && Distinct(w)
    ensures Sorted(Revalued(w, t, value)) <==> FitsIn(w, t, value)
  {
    var r := Revalued(w, t, value);
    if Has(w, t) {
      var p := Find(w, t);
      assert forall i | 0 <= i < |w| :: r[i] == if i == p then Item(t, value) else w[i];
      if FitsIn(w, t, value) {
        forall i, j | 0 <= i < j < |r|
          ensures r[i].value <= r[j].value
        {
          assert i < p - 1 ==> w[i].value <= w[p - 1].value;
          assert p + 1 < j ==> w[p + 1].value <= w[j].value;
        }
      }
    } else {
      assert forall i | 0 <= i < |w| :: r[i] == w[i];
    }
  }

  // ---------------------------------------------------------------- the walking index

  /** `index` is 0 when pxIndex is at the end marker, and k when it is at `items[k - 1]`. */
  datatype KList = KList(items: seq<Item>, index: nat)

  const EMPTY: KList := KList([], 0)

  ghost predicate WellFormed(l: KList) {
    l.index <= |l.items| && Distinct(l.items)
  }

  /** vListInsertEnd: just behind pxIndex, so that it is the last item the index comes to. */
  function InsertEnd(l: KList, x: Item): KList
    requires l.index <= |l.items|
  {
    if l.index == 0 then KList(InsertAt(l.items, |l.items|, x), 0)
    else KList(InsertAt(l.items, l.index - 1, x), l.index + 1)
  }

  function InsertInOrder(l: KList, x: Item): KList {
    var p := InsertPoint(l.items, x.value);
    KList(InsertAt(l.items, p, x), if l.index > p then l.index + 1 else l.index)
  }

  /** uxListRemove: an index on the removed item steps back. */
  function RemoveItem(l: KList, t: nat): KList
    requires Has(l.items, t)
  {
    var p := Find(l.items, t);
    KList(RemoveAt(l.items, p), if l.index > p then l.index - 1 else l.index)
  }

  /** listGET_OWNER_OF_NEXT_ENTRY */
  function Advance(l: KList): (r: KList)
    requires l.items != [] && l.index <= |l.items|
    ensures r.items == l.items && 0 < r.index <= |l.items|
  {
    KList(l.items, if l.index == |l.items| then 1 else l.index + 1)
  }

  function Selected(l: KList): nat
    requires 0 < l.index <= |l.items|
  {
    l.items[l.index - 1].owner
  }

  // ---------------------------------------------------------------- round robin

  /** How many advances it takes until `t` is selected. */
  function Distance(l: KList, t: nat): nat
    requires l.index <= |l.items| && Has(l.items, t)
  {
    Steps(Find(l.items, t), l.index, |l.items|)
  }

  function Steps(p: nat, index: nat, n: nat): nat
    requires p < n && index <= n
  {
    if p + 1 > index then p + 1 - index else p + 1 + n - index
  }

  predicate AtIndex(l: KList, t: nat) {
    0 < l.index <= |l.items| && l.items[l.index - 1].owner == t
  }

  lemma FindIsUnique(s: seq<Item>, p: nat)
    requires Distinct(s) && p < |s|
    ensures Has(s, s[p].owner) && Find(s, s[p].owner) == p
  {
  }

  lemma AdvanceBringsCloser(l: KList, t: nat)
    requires WellFormed(l) && Has(l.items, t)
    ensures AtIndex(Advance(l), t) <==> Distance(l, t) == 1
    ensures !AtIndex(Advance(l), t) ==> Distance(Advance(l), t) == Distance(l, t) - 1
  {
    FindIsUnique(l.items, Advance(l).index - 1);
  }

  lemma AtIndexIs(l: KList, u: nat)
    requires WellFormed(l) && Has(l.items, u)
    ensures AtIndex(l, u) <==> l.index == Find(l.items, u) + 1
  {
    if 0 < l.index <= |l.items| {
      FindIsUnique(l.items, l.index - 1);
    }
  }

  lemma PositionAfterRemove(l: KList, u: nat, t: nat)
    requires WellFormed(l) && Has(l.items, t) && Has(l.items, u) && t != u
    ensures var p, q, r := Find(l.items, t), Find(l.items, u), RemoveItem(l, u);
            && WellFormed(r) && Has(r.items, t) && Find(r.items, t) == (if p < q then p else p - 1)
            && |r.items| == |l.items| - 1 && r.index == if l.index > q then l.index - 1 else l.index
  {
    RemoveKeepsMembers(l.items, u);
    var p, q := Find(l.items, t), Find(l.items, u);
    FindIsUnique(RemoveItem(l, u).items, if p < q then p else p - 1);
  }

  lemma NotHasAfterRemove(l: KList, u: nat, t: nat)
    requires WellFormed(l) && Has(l.items, u) && !Has(l.items, t)
    ensures !Has(RemoveItem(l, u).items, t)
  {
    RemoveKeepsMembers(l.items, u);
  }

  lemma PositionAfterInsertEnd(l: KList, x: Item, t: nat)
    requires WellFormed(l) && Has(l.items, t) && !Has(l.items, x.owner)
    ensures var at, p, r := if l.index == 0 then |l.items| else l.index - 1, Find(l.items, t), InsertEnd(l, x);
            && WellFormed(r) && Has(r.items, t) && Find(r.items, t) == (if p < at then p else p + 1)
            && |r.items| == |l.items| + 1 && r.index == if l.index == 0 then 0 else l.index + 1
  {
    var at, p := if l.index == 0 then |l.items| else l.index - 1, Find(l.items, t);
    InsertKeepsMembers(l.items, at, x);
    FindIsUnique(InsertEnd(l, x).items, if p < at then p else p + 1);
  }

  /** A task made ready queues up behind everyone who is waiting; only the task at the index itself is put off. */
  lemma InsertEndDelaysNobodyWaiting(l: KList, x: Item, t: nat)
    requires WellFormed(l) && Has(l.items, t) && !Has(l.items, x.owner)
    ensures WellFormed(InsertEnd(l, x)) && Has(InsertEnd(l, x).items, t)
    ensures AtIndex(InsertEnd(l, x), t) <==> AtIndex(l, t)
    ensures Distance(InsertEnd(l, x), t) == Distance(l, t) + if AtIndex(l, t) then 1 else 0
  {
    PositionAfterInsertEnd(l, x, t);
    AtIndexIs(l, t);
    AtIndexIs(InsertEnd(l, x), t);
  }

  /** Its own turn comes after everybody's but that of the task at the index, which has just had it. */
  lemma InsertedIsLast(l: KList, x: Item)
    requires WellFormed(l) && !Has(l.items, x.owner)
    ensures var r := InsertEnd(l, x);
            && WellFormed(r) && Has(r.items, x.owner) && !AtIndex(r, x.owner)
            && Distance(r, x.owner) == |l.items| + if l.index == 0 then 1 else 0
  {
    var at, r := if l.index == 0 then |l.items| else l.index - 1, InsertEnd(l, x);
    InsertKeepsMembers(l.items, at, x);
    assert r.items[at] == x;
    FindIsUnique(r.items, at);
    AtIndexIs(r, x.owner);
  }

  /** All of `w`, added one after the other. */
  function EndAll(l: KList, w: seq<nat>): KList
    decreases |w|
  {
    if w == [] || l.index > |l.items| then l else EndAll(InsertEnd(l, Item(w[0], 0)), w[1..])
  }

  lemma EndOne(l: KList, u: nat, w: seq<nat>)
    requires l.index <= |l.items|
    ensures EndAll(l, [u] + w) == EndAll(InsertEnd(l, Item(u, 0)), w)
    ensures [] + w == w
  {
    assert ([u] + w)[1..] == w;
  }

  lemma {:induction false} EndAllDelaysNobody(l: KList, w: seq<nat>, t: nat)
    requires WellFormed(l) && NoDuplicates(w) && (forall u | u in w :: !Has(l.items, u)) && Has(l.items, t) && !AtIndex(l, t)
    ensures var r := EndAll(l, w); WellFormed(r) && Has(r.items, t) && Distance(r, t) == Distance(l, t)
    decreases |w|
  {
    if w != [] {
      InsertEndDelaysNobodyWaiting(l, Item(w[0], 0), t);
      InsertKeepsMembers(l.items, if l.index == 0 then |l.items| else l.index - 1, Item(w[0], 0));
      EndAllDelaysNobody(InsertEnd(l, Item(w[0], 0)), w[1..], t);
    }
  }

  lemma {:induction false} EndAllGoesBehind(l: KList, w: seq<nat>, j: nat)
    requires WellFormed(l) && NoDuplicates(w) && (forall u | u in w :: !Has(l.items, u)) && j < |w|
    ensures var r := EndAll(l, w);
            WellFormed(r) && Has(r.items, w[j]) && Distance(r, w[j]) == |l.items| + j + if l.index == 0 then 1 else 0
    decreases |w|
  {
    var x := Item(w[0], 0);
    InsertedIsLast(l, x);
    InsertKeepsMembers(l.items, if l.index == 0 then |l.items| else l.index - 1, x);
    if j == 0 {
      EndAllDelaysNobody(InsertEnd(l, x), w[1..], w[0]);
    } else {
      EndAllGoesBehind(InsertEnd(l, x), w[1..], j - 1);
    }
  }

  lemma RemoveDelaysNobody(l: KList, u: nat, t: nat)
    requires WellFormed(l) && Has(l.items, t) && Has(l.items, u) && t != u
    ensures WellFormed(RemoveItem(l, u)) && Has(RemoveItem(l, u).items, t)
    ensures !AtIndex(l, t) && !AtIndex(l, u) ==> !AtIndex(RemoveItem(l, u), t)
    ensures Distance(RemoveItem(l, u), t) <= Distance(l, t)
  {
    PositionAfterRemove(l, u, t);
    FindIsUnique(l.items, Find(l.items, u));
    AtIndexIs(l, t);
    AtIndexIs(l, u);
    AtIndexIs(RemoveItem(l, u), t);
  }

  /** Removing the item at the index can put the index on a task that has not had its turn, and then a
      newcomer does go in front of it. */
  lemma RemovalAtIndexCanDelay()
    ensures var l := KList([Item(0, 0), Item(1, 0)], 2);
            && WellFormed(l) && Has(l.items, 0) && Has(l.items, 1) && AtIndex(l, 1)
            && var l' := InsertEnd(RemoveItem(l, 1), Item(2, 0));
            Has(l'.items, 0) && Distance(l, 0) == 1 && Distance(l', 0) == 2
  {
    var s := [Item(0, 0), Item(1, 0)];
    FindIsUnique(s, 0);
    FindIsUnique(s, 1);
    assert Distinct([Item(2, 0), Item(0, 0)]);
    FindIsUnique([Item(2, 0), Item(0, 0)], 1);
    assert RemoveAt(s, 1) == [Item(0, 0)];
    assert InsertAt([Item(0, 0)], 0, Item(2, 0)) == [Item(2, 0), Item(0, 0)];
  }

  /** The positions alone: of `t` at `p` and `u` at `q` among `n` items. */
  lemma PositionsDelayIff(p: nat, q: nat, index: nat, n: nat, p1: nat, index1: nat, p2: nat, index2: nat)
    requires p < n && q < n && p != q && index <= n && index != p + 1
    requires p1 == (if p < q then p else p - 1) && index1 == if index > q then index - 1 else index
    requires p2 == (if p1 < (if index1 == 0 then n - 1 else index1 - 1) then p1 else p1 + 1)
    requires index2 == if index1 == 0 then 0 else index1 + 1
    ensures Steps(p2, index2, n) > Steps(p, index, n) <==> index == q + 1 && p + 1 == q
  {
  }

  /** Where `t` and the index are after the pair. */
  lemma PositionAfterPair(l: KList, u: nat, x: Item, t: nat) returns (p1: nat, index1: nat, p2: nat, index2: nat)
    requires WellFormed(l) && Has(l.items, t) && Has(l.items, u) && t != u && !Has(l.items, x.owner)
    ensures RemoveItem(l, u).index <= |RemoveItem(l, u).items|
    ensures var p, q, n, r := Find(l.items, t), Find(l.items, u), |l.items|, InsertEnd(RemoveItem(l, u), x);
            && p != q && p1 == (if p < q then p else p - 1) && index1 == (if l.index > q then l.index - 1 else l.index)
            && p2 == (if p1 < (if index1 == 0 then n - 1 else index1 - 1) then p1 else p1 + 1)
            && index2 == (if index1 == 0 then 0 else index1 + 1)
            && |r.items| == n && r.index == index2 <= n && Has(r.items, t) && Find(r.items, t) == p2
  {
    PositionAfterRemove(l, u, t);
    NotHasAfterRemove(l, u, x.owner);
    var l1 := RemoveItem(l, u);
    p1, index1 := Find(l1.items, t), l1.index;
    PositionAfterInsertEnd(l1, x, t);
    p2, index2 := Find(InsertEnd(l1, x).items, t), InsertEnd(l1, x).index;
  }

  /** A removal followed by an insertion pushes a waiting task later exactly if the removed item was at the
      index and the task is the one just before it. */
  lemma RemovalDelaysIff(l: KList, u: nat, x: Item, t: nat)
    requires WellFormed(l) && Has(l.items, t) && Has(l.items, u) && t != u && !AtIndex(l, t) && !Has(l.items, x.owner)
    ensures RemoveItem(l, u).index <= |RemoveItem(l, u).items|
    ensures var r := InsertEnd(RemoveItem(l, u), x);
            && r.index <= |r.items| && Has(r.items, t)
            && (Distance(r, t) > Distance(l, t) <==> AtIndex(l, u) && Find(l.items, t) + 1 == Find(l.items, u))
  {
    var p1, index1, p2, index2 := PositionAfterPair(l, u, x, t);
    AtIndexIs(l, t);
    AtIndexIs(l, u);
    PositionsDelayIff(Find(l.items, t), Find(l.items, u), l.index, |l.items|, p1, index1, p2, index2);
  }

  datatype Op = Select | Insert(x: Item) | Drop(u: nat)

  predicate Allowed(l: KList, t: nat, op: Op) {
    match op
    case Select => l.items != []
    case Insert(x) => !Has(l.items, x.owner)
    case Drop(u) => Has(l.items, u) && u != t
  }

  function Apply(l: KList, t: nat, op: Op): KList
    requires l.index <= |l.items| && Allowed(l, t, op)
  {
    match op
    case Select => Advance(l)
    case Insert(x) => InsertEnd(l, x)
    case Drop(u) => RemoveItem(l, u)
  }

  /** `ops` can be carried out on a ready list from `l` without removing `t`. */
  ghost predicate CanRun(l: KList, t: nat, ops: seq<Op>)
    decreases |ops|
  {
    l.index <= |l.items| &&
    (ops == [] || (Allowed(l, t, ops[0]) && CanRun(Apply(l, t, ops[0]), t, ops[1..])))
  }

  ghost predicate GetsSelected(l: KList, t: nat, ops: seq<Op>)
    requires CanRun(l, t, ops)
    decreases |ops|
  {
    ops != [] &&
    var l' := Apply(l, t, ops[0]);
    (ops[0].Select? && AtIndex(l', t)) || GetsSelected(l', t, ops[1..])
  }

  function Selections(ops: seq<Op>): nat {
    if ops == [] then 0 else (if ops[0].Select? then 1 else 0) + Selections(ops[1..])
  }

  /** How often an item is added while the index is on `t`, where the removal of another item can put it. */
  ghost function Displacements(l: KList, t: nat, ops: seq<Op>): nat
    requires CanRun(l, t, ops)
    decreases |ops|
  {
    if ops == [] then 0
    else (if ops[0].Insert? && AtIndex(l, t) then 1 else 0) + Displacements(Apply(l, t, ops[0]), t, ops[1..])
  }

  /** One operation and the turn of `t`. */
  lemma ApplyDistance(l: KList, t: nat, op: Op)
    requires WellFormed(l) && Has(l.items, t) && Allowed(l, t, op)
    ensures var l' := Apply(l, t, op);
            && WellFormed(l') && Has(l'.items, t)
            && (op.Insert? ==> Distance(l', t) == Distance(l, t) + if AtIndex(l, t) then 1 else 0)
            && (op.Drop? ==> Distance(l', t) <= Distance(l, t))
            && (op.Select? ==> AtIndex(l', t) || Distance(l', t) == Distance(l, t) - 1)
            && (op.Select? ==> (AtIndex(l', t) <==> Distance(l, t) == 1))
  {
    match op {
      case Select => AdvanceBringsCloser(l, t);
      case Insert(x) => InsertEndDelaysNobodyWaiting(l, x, t);
      case Drop(u) => RemoveDelaysNobody(l, u, t);
    }
  }

  /** Round robin: whatever is added or removed meanwhile, also at the index, a member of a list that holds n
      items is selected by the time n switches have been made, and one more for every item that was added while
      the index was on it. */
  lemma {:induction false} RoundRobin(l: KList, t: nat, ops: seq<Op>)
    requires WellFormed(l) && Has(l.items, t) && CanRun(l, t, ops)
    ensures Distance(l, t) <= |l.items|
    ensures Selections(ops) >= Distance(l, t) + Displacements(l, t, ops) ==> GetsSelected(l, t, ops)
    decreases |ops|
  {
    if ops != [] {
      ApplyDistance(l, t, ops[0]);
      RoundRobin(Apply(l, t, ops[0]), t, ops[1..]);
    }
  }

  /** No operation removes the item at the index. */
  ghost predicate SparesIndex(l: KList, t: nat, ops: seq<Op>)
    requires CanRun(l, t, ops)
    decreases |ops|
  {
    ops == [] || (!(ops[0].Drop? && AtIndex(l, ops[0].u)) && SparesIndex(Apply(l, t, ops[0]), t, ops[1..]))
  }

  lemma ApplySparing(l: KList, t: nat, op: Op)
    requires WellFormed(l) && Has(l.items, t) && !AtIndex(l, t) && Allowed(l, t, op) && !(op.Drop? && AtIndex(l, op.u))
    ensures var l' := Apply(l, t, op); WellFormed(l') && Has(l'.items, t) && (op.Select? || !AtIndex(l', t))
  {
    match op {
      case Select =>
      case Insert(x) => InsertEndDelaysNobodyWaiting(l, x, t);
      case Drop(u) => RemoveDelaysNobody(l, u, t);
    }
  }

  lemma {:induction false} NotDisplaced(l: KList, t: nat, ops: seq<Op>)
    requires WellFormed(l) && Has(l.items, t) && !AtIndex(l, t) && CanRun(l, t, ops) && SparesIndex(l, t, ops)
    ensures GetsSelected(l, t, ops) || Displacements(l, t, ops) == 0
    decreases |ops|
  {
    if ops != [] {
      ApplySparing(l, t, ops[0]);
      if !AtIndex(Apply(l, t, ops[0]), t) {
        NotDisplaced(Apply(l, t, ops[0]), t, ops[1..]);
      }
    }
  }

  /** If the item at the index is not removed, a waiting member of a list of n items is selected within n
      switches. */
  lemma RoundRobinUndisturbed(l: KList, t: nat, ops: seq<Op>)
    requires WellFormed(l) && Has(l.items, t) && !AtIndex(l, t) && CanRun(l, t, ops) && SparesIndex(l, t, ops)
    ensures Selections(ops) >= |l.items| ==> GetsSelected(l, t, ops)
  {
    RoundRobin(l, t, ops);
    NotDisplaced(l, t, ops);
  }
}
