/** The circular doubly linked list that everything in the kernel is kept on. Each operation is proved to do
    to the linked items what the operation of the same name in `Lists` does to the abstract value. */
module IntrusiveList {
  import opened Clock
  import opened Sequences
  import L = Lists

  class ListItem {
    var value: nat
    var owner: nat
    var next: ListItem?
    var prev: ListItem?
    var container: KernelList?

    /** vListInitialiseItem */
    constructor (value: nat, owner: nat)
      ensures this.value == value && this.owner == owner && container == null
    {
      this.value, this.owner := value, owner;
      next, prev, container := null, null, null;
    }
  }

  function Succ(n: nat, i: nat): (r: nat)
    requires i < n
    ensures r < n
  {
    if i + 1 < n then i + 1 else 0
  }

  function Pred(n: nat, i: nat): (r: nat)
    requires i < n
    ensures r < n
  {
    if i > 0 then i - 1 else n - 1
  }

  ghost predicate NextAt(ring: seq<ListItem>, i: nat)
    requires i < |ring|
    reads ring
  {
    ring[i].next == ring[Succ(|ring|, i)]
  }

  ghost predicate PrevAt(ring: seq<ListItem>, i: nat)
    requires i < |ring|
    reads ring
  {
    ring[i].prev == ring[Pred(|ring|, i)]
  }

  /** The nodes of `ring` are linked both ways, the last with the first. */
  ghost predicate Linked(ring: seq<ListItem>)
    reads ring
  {
    && (forall i {:trigger NextAt(ring, i)} | 0 <= i < |ring| :: NextAt(ring, i))
    && (forall i {:trigger PrevAt(ring, i)} | 0 <= i < |ring| :: PrevAt(ring, i))
  }

  /** Every item but the marker names `list` as its container, and is what `items` says. */
  ghost predicate Holds(ring: seq<ListItem>, items: seq<L.Item>, list: KernelList)
    requires |ring| == |items| + 1
    reads ring
  {
    forall i {:trigger HoldsAt(ring, items, list, i)} | 1 <= i < |ring| :: HoldsAt(ring, items, list, i)
  }

  ghost predicate HoldsAt(ring: seq<ListItem>, items: seq<L.Item>, list: KernelList, i: nat)
    requires |ring| == |items| + 1 && 1 <= i < |ring|
    reads ring
  {
    ring[i].container == list && ring[i].value <= MAX_DELAY && items[i - 1] == L.Item(ring[i].owner, ring[i].value)
  }

  lemma InsertAfterMembers(ring: seq<ListItem>, p: nat, x: ListItem)
    requires p < |ring| && NoDuplicates(ring) && x !in ring
    ensures NoDuplicates(InsertAt(ring, p + 1, x))
    ensures multiset(InsertAt(ring, p + 1, x)) == multiset(ring) + multiset{x}
  {
    InsertAtBag(ring, p + 1, x);
  }

  lemma WithoutMembers(ring: seq<ListItem>, p: nat)
    requires p < |ring| && NoDuplicates(ring)
    ensures NoDuplicates(RemoveAt(ring, p)) && ring[p] !in RemoveAt(ring, p)
    ensures multiset(RemoveAt(ring, p)) + multiset{ring[p]} == multiset(ring)
  {
    RemoveAtBag(ring, p);
  }

  /** The four pointer writes of an insertion relink the ring. */
  lemma InsertLinks(ring: seq<ListItem>, p: nat, x: ListItem)
    requires p < |ring| && x.prev == ring[p] && x.next == ring[Succ(|ring|, p)]
    requires ring[p].next == x && ring[Succ(|ring|, p)].prev == x
    requires forall i {:trigger NextAt(ring, i)} | 0 <= i < |ring| && i != p :: NextAt(ring, i)
    requires forall i {:trigger PrevAt(ring, i)} | 0 <= i < |ring| && i != Succ(|ring|, p) :: PrevAt(ring, i)
    ensures Linked(InsertAt(ring, p + 1, x))
  {
    var r := InsertAt(ring, p + 1, x);
    forall i | 0 <= i < |r|
      ensures NextAt(r, i)
    {
      if i < p {
        assert NextAt(ring, i);
      } else if i > p + 1 {
        assert NextAt(ring, i - 1);
      }
    }
    forall i | 0 <= i < |r|
      ensures PrevAt(r, i)
    {
      if i <= p && (i > 0 || p + 1 < |ring|) {
        assert PrevAt(ring, i);
      } else if i > p + 2 {
        assert PrevAt(ring, i - 1);
      }
    }
  }

  /** The two pointer writes of a removal close the gap. */
  lemma RemoveLinks(ring: seq<ListItem>, p: nat)
    requires 1 <= p < |ring| && ring[p - 1].next == ring[Succ(|ring|, p)] && ring[Succ(|ring|, p)].prev == ring[p - 1]
    requires forall i {:trigger NextAt(ring, i)} | 0 <= i < |ring| && i != p - 1 :: NextAt(ring, i)
    requires forall i {:trigger PrevAt(ring, i)} | 0 <= i < |ring| && i != Succ(|ring|, p) :: PrevAt(ring, i)
    ensures Linked(RemoveAt(ring, p))
  {
    var r := RemoveAt(ring, p);
    forall i | 0 <= i < |r|
      ensures NextAt(r, i)
    {
      if i < p - 1 {
        assert NextAt(ring, i);
      } else if i >= p {
        assert NextAt(ring, i + 1);
      }
    }
    forall i | 0 <= i < |r|
      ensures PrevAt(r, i)
    {
      if i < p && (i > 0 || p + 1 < |ring|) {
        assert PrevAt(ring, i);
      } else if i > p {
        assert PrevAt(ring, i + 1);
      }
    }
  }

  lemma InsertHolds(ring: seq<ListItem>, items: seq<L.Item>, list: KernelList, p: nat, x: ListItem)
    requires p < |ring| == |items| + 1 && Holds(ring, items, list) && x.container == list && x.value <= MAX_DELAY
    ensures Holds(InsertAt(ring, p + 1, x), InsertAt(items, p, L.Item(x.owner, x.value)), list)
  {
    var r, items' := InsertAt(ring, p + 1, x), InsertAt(items, p, L.Item(x.owner, x.value));
    forall i | 1 <= i < |r|
      ensures HoldsAt(r, items', list, i)
    {
      if i != p + 1 {
        assert HoldsAt(ring, items, list, if i <= p then i else i - 1);
      }
    }
  }

  lemma RemoveHolds(ring: seq<ListItem>, items: seq<L.Item>, list: KernelList, p: nat)
    requires 1 <= p < |ring| == |items| + 1
    requires forall i {:trigger HoldsAt(ring, items, list, i)} | 1 <= i < |ring| && i != p :: HoldsAt(ring, items, list, i)
    ensures Holds(RemoveAt(ring, p), RemoveAt(items, p - 1), list)
  {
    var r, items' := RemoveAt(ring, p), RemoveAt(items, p - 1);
    forall i | 1 <= i < |r|
      ensures HoldsAt(r, items', list, i)
    {
      assert HoldsAt(ring, items, list, if i < p then i else i + 1);
    }
  }

  /** `end` is the marker xListEnd, whose value is the greatest there is. `ring` is the marker followed by the
      items in order, and `view` the abstract value. */
  class KernelList {
    const end: ListItem
    var index: ListItem
    var count: nat
    ghost var ring: seq<ListItem>
    ghost var view: L.KList

    ghost predicate Shaped()
      reads this, ring
    {
      && |ring| == |view.items| + 1 && ring[0] == end && end.value == MAX_DELAY
      && NoDuplicates(ring) && Linked(ring)
    }

    ghost predicate Valid()
      reads this, ring
    {
      && Shaped() && Holds(ring, view.items, this)
      && count == |view.items| && view.index <= count && index == ring[view.index]
    }

    /** vListInitialise */
    constructor ()
      ensures Valid() && fresh(ring) && view == L.EMPTY
    {
      end := new ListItem(MAX_DELAY, 0);
      index := end;
      count := 0;
      ring := [end];
      view := L.EMPTY;
      new;
      end.next, end.prev := end, end;
    }

    /** The pointer writes of vListInsertEnd. */
    method LinkBeforeIndex(item: ListItem, ghost p: nat)
      requires Shaped() && item !in ring && p < |ring| && index == ring[Succ(|ring|, p)]
      modifies ring`next, ring`prev, item`next, item`prev
      ensures Linked(InsertAt(ring, p + 1, item))
    {
      assert NextAt(ring, p) && PrevAt(ring, Succ(|ring|, p));
      item.next := index;
      item.prev := index.prev;
      index.prev.next := item;
      index.prev := item;
      forall i | 0 <= i < |ring| && i != p
        ensures NextAt(ring, i)
      {
        assert old(NextAt(ring, i));
      }
      forall i | 0 <= i < |ring| && i != Succ(|ring|, p)
        ensures PrevAt(ring, i)
      {
        assert old(PrevAt(ring, i));
      }
      InsertLinks(ring, p, item);
    }

    /** The pointer writes of vListInsert. */
    method LinkAfter(at: ListItem, item: ListItem, ghost p: nat)
      requires Shaped() && item !in ring && p < |ring| && at == ring[p]
      modifies ring`next, ring`prev, item`next, item`prev
      ensures Linked(InsertAt(ring, p + 1, item))
    {
      assert NextAt(ring, p) && PrevAt(ring, Succ(|ring|, p));
      item.next := at.next;
      item.next.prev := item;
      item.prev := at;
      at.next := item;
      forall i | 0 <= i < |ring| && i != p
        ensures NextAt(ring, i)
      {
        assert old(NextAt(ring, i));
      }
      forall i | 0 <= i < |ring| && i != Succ(|ring|, p)
        ensures PrevAt(ring, i)
      {
        assert old(PrevAt(ring, i));
      }
      InsertLinks(ring, p, item);
    }

    /** The linked item becomes part of what the list is said to hold. */
    ghost method Adopt(item: ListItem, p: nat, view': L.KList)
      requires p < |ring| == |view.items| + 1 && ring[0] == end && end.value == MAX_DELAY
      requires NoDuplicates(ring) && item !in ring && Linked(InsertAt(ring, p + 1, item))
      requires Holds(ring, view.items, this) && item.container == this && item.value <= MAX_DELAY
      requires view'.items == InsertAt(view.items, p, L.Item(item.owner, item.value))
      requires view'.index <= count == |view.items| + 1 && index == InsertAt(ring, p + 1, item)[view'.index]
      modifies this`view, this`ring
      ensures Valid() && view == view' && multiset(ring) == multiset(old(ring)) + multiset{item}
    {
      InsertHolds(ring, view.items, this, p, item);
      InsertAfterMembers(ring, p, item);
      view := view';
      ring := InsertAt(ring, p + 1, item);
    }

    /** vListInsertEnd */
    method InsertEnd(item: ListItem)
      requires Valid() && item !in ring && item.value <= MAX_DELAY
      modifies this, ring, item
      ensures Valid() && item.container == this && item.value == old(item.value) && item.owner == old(item.owner)
      ensures view == L.InsertEnd(old(view), L.Item(item.owner, item.value))
      ensures multiset(ring) == multiset(old(ring)) + multiset{item}
    {
      ghost var p := if view.index == 0 then |view.items| else view.index - 1;
      item.container := this;
      LinkBeforeIndex(item, p);
      count := count + 1;
      forall i | 1 <= i < |ring|
        ensures HoldsAt(ring, view.items, this, i)
      {
        assert old(HoldsAt(ring, view.items, this, i));
      }
      Adopt(item, p, L.InsertEnd(view, L.Item(item.owner, item.value)));
    }

    /** The search loop of vListInsert: `at` is the node to insert after. With the value of the marker itself
        it would not stop, so the last node is taken at once. */
    method FindPlace(value: nat) returns (at: ListItem, ghost p: nat)
      requires Valid() && value <= MAX_DELAY
      ensures p == L.InsertPoint(view.items, value) && p < |ring| && at == ring[L.InsertPoint(view.items, value)]
    {
      at, p := end, 0;
      if value == MAX_DELAY {
        assert PrevAt(ring, 0);
        at, p := end.prev, |view.items|;
        forall i | 0 <= i < |view.items|
          ensures view.items[i].value <= value
        {
          assert HoldsAt(ring, view.items, this, i + 1);
        }
      } else {
        assert NextAt(ring, 0);
        while at.next.value <= value
          invariant p < |ring| && at == ring[p] && NextAt(ring, p)
          invariant forall i | 0 <= i < p :: view.items[i].value <= value
          decreases |ring| - p
        {
          at, p := at.next, p + 1;
          assert HoldsAt(ring, view.items, this, p);
          assert NextAt(ring, p);
        }
        assert p + 1 < |ring| ==> HoldsAt(ring, view.items, this, p + 1);
        assert p < |view.items| ==> view.items[p].value > value;
      }
    }

    /** vListInsert */
    method Insert(item: ListItem)
      requires Valid() && item !in ring && item.value <= MAX_DELAY
      modifies this, ring, item
      ensures Valid() && item.container == this && item.value == old(item.value) && item.owner == old(item.owner)
      ensures view == L.InsertInOrder(old(view), L.Item(item.owner, item.value))
      ensures multiset(ring) == multiset(old(ring)) + multiset{item}
    {
      ghost var p;
      var at;
      at, p := FindPlace(item.value);
      item.container := this;
      LinkAfter(at, item, p);
      count := count + 1;
      forall i | 1 <= i < |ring|
        ensures HoldsAt(ring, view.items, this, i)
      {
        assert old(HoldsAt(ring, view.items, this, i));
      }
      Adopt(item, p, L.InsertInOrder(view, L.Item(item.owner, item.value)));
    }

    /** The pointer writes of uxListRemove. */
    method Unlink(item: ListItem, ghost p: nat)
      requires Shaped() && 1 <= p < |ring| && ring[p] == item
      modifies ring`next, ring`prev
      ensures Linked(RemoveAt(ring, p)) && item.prev == ring[p - 1]
    {
      assert NextAt(ring, p) && PrevAt(ring, p);
      item.next.prev := item.prev;
      item.prev.next := item.next;
      forall i | 0 <= i < |ring| && i != p - 1
        ensures NextAt(ring, i)
      {
        assert old(NextAt(ring, i));
      }
      forall i | 0 <= i < |ring| && i != Succ(|ring|, p)
        ensures PrevAt(ring, i)
      {
        assert old(PrevAt(ring, i));
      }
      RemoveLinks(ring, p);
    }

    /** The unlinked item is no longer part of what the list is said to hold. */
    ghost method Release(p: nat, view': L.KList)
      requires 1 <= p < |ring| == |view.items| + 1 && ring[0] == end && end.value == MAX_DELAY
      requires NoDuplicates(ring) && Linked(RemoveAt(ring, p))
      requires forall i {:trigger HoldsAt(ring, view.items, this, i)} | 1 <= i < |ring| && i != p :: HoldsAt(ring, view.items, this, i)
      requires view'.items == RemoveAt(view.items, p - 1)
      requires view'.index <= count == |view.items| - 1 && index == RemoveAt(ring, p)[view'.index]
      modifies this`view, this`ring
      ensures Valid() && view == view' && ring == RemoveAt(old(ring), p)
    {
      RemoveHolds(ring, view.items, this, p);
      WithoutMembers(ring, p);
      view := view';
      ring := RemoveAt(ring, p);
    }

    /** The writes of uxListRemove: the item is unlinked, and an index on it steps back. */
    method TakeOut(item: ListItem, ghost p: nat)
      requires Valid() && 1 <= p < |ring| && ring[p] == item
      modifies this`index, this`count, ring`next, ring`prev, item`container
      ensures Linked(RemoveAt(ring, p)) && item.container == null && count == old(count) - 1
      ensures index == if view.index == p then ring[p - 1] else old(index)
    {
      WithoutMembers(ring, p);
      Unlink(item, p);
      if index == item {
        index := item.prev;
      }
      item.container := null;
      count := count - 1;
    }

    /** What uxListRemove does to the list that contains the item. */
    method Drop(item: ListItem, ghost p: nat)
      requires Valid() && 1 <= p < |ring| && ring[p] == item
      requires L.Has(view.items, item.owner) && L.Find(view.items, item.owner) == p - 1
      modifies this, ring
      ensures Valid() && item.container == null && item.owner == old(item.owner) && ring == RemoveAt(old(ring), p)
      ensures view == L.RemoveItem(old(view), item.owner)
    {
      TakeOut(item, p);
      forall i | 1 <= i < |ring| && i != p
        ensures HoldsAt(ring, view.items, this, i)
      {
        assert old(HoldsAt(ring, view.items, this, i));
      }
      Release(p, L.RemoveItem(view, item.owner));
    }
  }

  /** uxListRemove */
  method Remove(item: ListItem) returns (left: nat)
    requires item.container != null && item.container.Valid() && item in item.container.ring[1..]
    requires L.WellFormed(item.container.view)
    modifies item.container, item.container.ring
    ensures var list := old(item.container);
            && list.Valid() && item.container == null && item !in list.ring && left == list.count
            && L.Has(old(list.view).items, item.owner)
            && list.view == L.RemoveItem(old(list.view), item.owner)
            && multiset(list.ring) + multiset{item} == multiset(old(list.ring))
  {
    var list: KernelList := item.container;
    ghost var p :| 1 <= p < |list.ring| && list.ring[p] == item;
    assert HoldsAt(list.ring, list.view.items, list, p);
    assert list.view.items[p - 1].owner == item.owner;
    assert L.Find(list.view.items, item.owner) == p - 1;
    WithoutMembers(list.ring, p);
    list.Drop(item, p);
    left := list.count;
  }
}
