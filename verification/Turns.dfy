/** Round robin over the runs of the scheduler: how long a task that stays ready, with nobody ready above it, can
    be passed over by vTaskSwitchContext. */
module Turns {
  import opened Clock
  import opened Lists
  import opened Sequences
  import opened Scheduler

  // ---------------------------------------------------------------- what the claim is about

  ghost function At(s: State, id: ListId): set<nat> {
    set u | u in s.tasks && s.tasks[u].home == id
  }

  /** `t` is ready, and nobody who is ready exceeds it. */
  ghost predicate First(s: State, t: nat) {
    && t in s.tasks && s.tasks[t].home == Ready(s.tasks[t].priority)
    && forall u | u in s.tasks && s.tasks[u].home.Ready? :: s.tasks[u].priority <= s.tasks[t].priority
  }

  /** In all the states of a run `t` is ready at the one priority, nobody exceeds it, and its own priority is not set. */
  ghost predicate StaysFirst(s: State, es: seq<Event>, t: nat)
    decreases |es|
  {
    && First(s, t)
    && (es == [] ||
        (var s' := Step(s, es[0]);
         && !(es[0].Reprioritise? && es[0].t == t)
         && t in s'.tasks && s'.tasks[t].priority == s.tasks[t].priority && StaysFirst(s', es[1..], t)))
  }

  /** The context switches of a run that are not put off by a suspended scheduler. */
  ghost function Switches(s: State, es: seq<Event>): nat
    decreases |es|
  {
    if es == [] then 0
    else (if es[0].Switch? && s.depth == 0 then 1 else 0) + Switches(Step(s, es[0]), es[1..])
  }

  /** Some switch of the run leaves `t` running. */
  ghost predicate GetsToRun(s: State, es: seq<Event>, t: nat)
    decreases |es|
  {
    es != [] &&
    var s' := Step(s, es[0]);
    (es[0].Switch? && s.depth == 0 && s'.running == t) || GetsToRun(s', es[1..], t)
  }

  /** Those who are put on the ready list of priority `p` by a step. */
  ghost function Joiners(s: State, e: Event, p: nat): set<nat> {
    set u | u in At(Step(s, e), Ready(p)) && (u !in At(s, Ready(p)) || e == Reprioritise(u, p))
  }

  /** pxIndex of its ready list is on `t`, so that whoever is put on that list goes in front of it. */
  predicate UnderIndex(s: State, t: nat) {
    t in s.tasks && s.tasks[t].home in s.lists && AtIndex(s.lists[s.tasks[t].home], t)
  }

  /** How many are put in front of `t`. */
  ghost function PutBefore(s: State, es: seq<Event>, t: nat): nat
    decreases |es|
  {
    if es == [] then 0
    else
      var s' := Step(s, es[0]);
      (if !es[0].Switch? && UnderIndex(s', t) then |Joiners(s, es[0], s'.tasks[t].priority)| else 0)
      + PutBefore(s', es[1..], t)
  }

  // ---------------------------------------------------------------- lists and the tasks on them

  function Owners(items: seq<Item>): set<nat> {
    set i | 0 <= i < |items| :: items[i].owner
  }

  lemma {:induction false} OwnersCount(items: seq<Item>)
    requires Distinct(items)
    ensures |Owners(items)| == |items|
  {
    if items != [] {
      var n := |items| - 1;
      OwnersCount(items[..n]);
      assert Owners(items) == Owners(items[..n]) + {items[n].owner};
    }
  }

  lemma SizeOfList(s: State, id: ListId)
    requires ListsOk(s) && id in s.lists
    ensures WellFormed(s.lists[id]) && |At(s, id)| == |s.lists[id].items|
    ensures forall u :: u in At(s, id) <==> Has(s.lists[id].items, u)
  {
    var l := s.lists[id];
    assert ListOk(s.tasks, l, id);
    OwnersCount(l.items);
    assert forall u :: u in Owners(l.items) <==> Has(l.items, u);
    assert Owners(l.items) == At(s, id);
  }

  /** Nobody has left, and everybody new went behind all but an item at the index. */
  ghost predicate Grown(l: KList, l': KList, t: nat)
    requires WellFormed(l) && Has(l.items, t)
  {
    && WellFormed(l') && (forall u :: Has(l.items, u) ==> Has(l'.items, u)) && |l.items| <= |l'.items|
    && (AtIndex(l', t) <==> AtIndex(l, t))
    && Distance(l', t) == Distance(l, t) + if AtIndex(l, t) then |l'.items| - |l.items| else 0
  }

  lemma GrowsByOne(l: KList, u: nat, t: nat)
    requires WellFormed(l) && Has(l.items, t) && !Has(l.items, u)
    ensures Grown(l, InsertEnd(l, Item(u, 0)), t)
  {
    InsertEndDelaysNobodyWaiting(l, Item(u, 0), t);
    InsertKeepsMembers(l.items, if l.index == 0 then |l.items| else l.index - 1, Item(u, 0));
  }

  // ---------------------------------------------------------------- steps that only add

  /** A task readied from another list. */
  lemma ReadiedJoins(s: State, u: nat, p: nat)
    requires ListsOk(s) && Ready(p) in s.lists
    requires u in s.tasks && s.tasks[u].home in s.lists && s.tasks[u].home != Ready(p) && s.tasks[u].priority < s.priorities
    ensures Ready(p) in Readied(s, u).lists && s.lists[Ready(p)].index <= |s.lists[Ready(p)].items|
    ensures Readied(s, u).lists[Ready(p)] ==
            if s.tasks[u].priority == p then InsertEnd(s.lists[Ready(p)], Item(u, 0)) else s.lists[Ready(p)]
    ensures !Has(s.lists[Ready(p)].items, u)
  {
    UntieKeepsLists(s, u);
    assert ListOk(s.tasks, s.lists[Ready(p)], Ready(p));
  }

  ghost predicate ListGrows(s: State, s': State, p: nat, t: nat)
    requires ListsOk(s) && Ready(p) in s.lists && Has(s.lists[Ready(p)].items, t)
  {
    assert ListOk(s.tasks, s.lists[Ready(p)], Ready(p));
    Ready(p) in s'.lists && Grown(s.lists[Ready(p)], s'.lists[Ready(p)], t)
  }

  lemma ReadiedGrows(s: State, u: nat, p: nat, t: nat)
    requires ListsOk(s) && Ready(p) in s.lists && Has(s.lists[Ready(p)].items, t)
    requires u in s.tasks && s.tasks[u].home in s.lists && s.tasks[u].home != Ready(p) && s.tasks[u].priority < s.priorities
    ensures ListGrows(s, Readied(s, u), p, t)
  {
    assert ListOk(s.tasks, s.lists[Ready(p)], Ready(p));
    ReadiedJoins(s, u, p);
    GrowsByOne(s.lists[Ready(p)], u, t);
  }

  lemma {:induction false} WakeLoopGrows(s: State, n: nat, p: nat, t: nat)
    requires ListsOk(s) && TasksOk(s, s.now, 0, {}) && n == |Items(s, CurrentList(s.inA))|
    requires Ready(p) in s.lists && Has(s.lists[Ready(p)].items, t)
    ensures ListGrows(s, WakeLoop(s, n), p, t)
    decreases n
  {
    var d := Items(s, CurrentList(s.inA));
    if d != [] && TickOf(s.now) >= d[0].value {
      WakeHeadShortens(s);
      WakeHeadKeeps(s);
      var u := d[0].owner;
      assert TaskOk(s.tasks[u], s.priorities, s.top, s.inA, s.now, s.now, 0);
      ReadiedGrows(s, u, p, t);
      WakeLoopGrows(Readied(s, u), n - 1, p, t);
    }
  }

  lemma TickGrows(s: State, p: nat, t: nat)
    requires Inv(s) && Ready(p) in s.lists && Has(s.lists[Ready(p)].items, t)
    ensures ListGrows(s, ProcessTick(s), p, t)
  {
    AdvanceClockKeeps(s);
    var a := AdvanceClock(s);
    if TickOf(a.now) >= a.nextUnblock {
      WeakerNext(a, a.now, a.nextUnblock);
      WakeLoopGrows(a, |Items(a, CurrentList(a.inA))|, p, t);
    }
  }

  lemma PendedTickGrows(s: State, threshold: nat, p: nat, t: nat)
    requires Inv(s) && s.depth == 0 && s.pending == [] && Ready(p) in s.lists && Has(s.lists[Ready(p)].items, t)
    ensures var s' := IncrementTick(s, threshold);
            && Inv(s') && s'.depth == 0 && s'.pending == [] && ListGrows(s, s', p, t) && Has(s'.lists[Ready(p)].items, t)
  {
    PendedTickKeepsInv(s, threshold);
    if threshold == 0 {
      TickGrows(s, p, t);
    }
  }

  lemma GrowthAddsUp(a: State, b: State, c: State, p: nat, t: nat)
    requires ListsOk(a) && Ready(p) in a.lists && Has(a.lists[Ready(p)].items, t) && ListGrows(a, b, p, t)
    requires ListsOk(b) && Ready(p) in b.lists && Has(b.lists[Ready(p)].items, t) && ListGrows(b, c, p, t)
    ensures ListGrows(a, c, p, t)
  {
  }

  lemma {:induction false} TickLoopGrows(s: State, n: nat, threshold: nat, p: nat, t: nat)
    requires Inv(s) && s.depth == 0 && s.pending == [] && Ready(p) in s.lists && Has(s.lists[Ready(p)].items, t)
    ensures ListGrows(s, TickLoop(s, n, threshold), p, t)
    decreases n
  {
    if n > 0 {
      PendedTickGrows(s, threshold, p, t);
      TickLoopGrows(IncrementTick(s, threshold), n - 1, threshold, p, t);
      GrowthAddsUp(s, IncrementTick(s, threshold), TickLoop(s, n, threshold), p, t);
    }
  }

  lemma {:induction false} ReadyPendingGrows(s: State, n: nat, p: nat, t: nat)
    requires ListsOk(s) && TasksOk(s, 0, 0, {}) && n == |s.pending|
    requires Ready(p) in s.lists && Has(s.lists[Ready(p)].items, t)
    ensures ListGrows(s, ReadyPending(s, n), p, t)
    decreases n
  {
    if s.pending != [] {
      PendingHead(s);
      var u := s.pending[0].owner;
      assert TaskOk(s.tasks[u], s.priorities, s.top, s.inA, s.now, 0, 0);
      ReadiedGrows(s, u, p, t);
      ReadiedKeeps(s, u, 0, 0);
      DetachIs(s, u);
      assert |Readied(s, u).pending| == n - 1;
      ReadyPendingGrows(Readied(s, u), n - 1, p, t);
    }
  }

  lemma ResumeGrows(s: State, threshold: nat, p: nat, t: nat)
    requires Inv(s) && s.depth > 0 && Ready(p) in s.lists && Has(s.lists[Ready(p)].items, t)
    ensures ListGrows(s, Resumed(s, threshold), p, t)
  {
    if s.depth == 1 && s.count > 0 {
      BeforeTicksStarts(s);
      ReadyPendingGrows(s.(depth := 0), |s.pending|, p, t);
      TickLoopGrows(BeforeTicks(s), BeforeTicks(s).pended, threshold, p, t);
    }
  }

  // ---------------------------------------------------------------- steps that move one task

  /** `u` has left the list or has joined it, or, only if `again`, has left and joined it again. */
  ghost predicate Rearranged(l: KList, l': KList, u: nat, again: bool)
    requires WellFormed(l)
  {
    || l' == l
    || (Has(l.items, u) && l' == RemoveItem(l, u))
    || (!Has(l.items, u) && l' == InsertEnd(l, Item(u, 0)))
    || (again && Has(l.items, u) && RemoveItem(l, u).index <= |RemoveItem(l, u).items| && l' == InsertEnd(RemoveItem(l, u), Item(u, 0)))
  }

  lemma RearrangedTurn(l: KList, l': KList, u: nat, again: bool, t: nat)
    requires WellFormed(l) && Has(l.items, t) && u != t && Rearranged(l, l', u, again)
    ensures WellFormed(l') && Has(l'.items, t)
    ensures var joins := Has(l'.items, u) && (!Has(l.items, u) || again);
            Distance(l', t) <= Distance(l, t) + if AtIndex(l', t) && joins then 1 else 0
  {
    if Has(l.items, u) {
      var r := RemoveItem(l, u);
      RemoveDelaysNobody(l, u, t);
      RemoveKeepsMembers(l.items, u);
      InsertEndDelaysNobodyWaiting(r, Item(u, 0), t);
      InsertKeepsMembers(r.items, if r.index == 0 then |r.items| else r.index - 1, Item(u, 0));
    } else {
      GrowsByOne(l, u, t);
      InsertKeepsMembers(l.items, if l.index == 0 then |l.items| else l.index - 1, Item(u, 0));
    }
  }

  lemma DetachedFrom(s: State, u: nat, id: ListId)
    requires ListsOk(s) && u in s.tasks && s.tasks[u].home in s.lists && id in s.lists
    ensures WellFormed(s.lists[id]) && (Has(s.lists[id].items, u) <==> s.tasks[u].home == id)
    ensures id in Detach(s, u).lists
    ensures Detach(s, u).lists[id] == if s.tasks[u].home == id then RemoveItem(s.lists[id], u) else s.lists[id]
  {
    DetachIs(s, u);
    assert ListOk(s.tasks, s.lists[id], id);
  }

  /** The ready list of priority `p` after a step that moves `u`. */
  ghost predicate ListRearranged(s: State, s': State, p: nat, u: nat, again: bool)
    requires ListsOk(s) && Ready(p) in s.lists
  {
    assert ListOk(s.tasks, s.lists[Ready(p)], Ready(p));
    Ready(p) in s'.lists && Rearranged(s.lists[Ready(p)], s'.lists[Ready(p)], u, again)
  }

  lemma ReadiedRearranges(s: State, u: nat, p: nat)
    requires ListsOk(s) && Ready(p) in s.lists && u in s.tasks && s.tasks[u].priority < s.priorities
    requires s.tasks[u].home in s.lists && s.tasks[u].home != Ready(p)
    ensures ListRearranged(s, Readied(s, u), p, u, false)
  {
    ReadiedJoins(s, u, p);
  }

  lemma SuspendedRearranges(s: State, u: nat, p: nat)
    requires ListsOk(s) && Ready(p) in s.lists && u in s.tasks && s.tasks[u].home in s.lists
    ensures ListRearranged(s, SuspendedTask(s, u), p, u, false)
  {
    DetachedFrom(s, u, Ready(p));
  }

  lemma DeletedRearranges(s: State, u: nat, p: nat)
    requires ListsOk(s) && Ready(p) in s.lists && u in s.tasks && s.tasks[u].home in s.lists
    ensures ListRearranged(s, Deleted(s, u), p, u, false) && ListRearranged(s, Forgotten(s, u), p, u, false)
  {
    DetachedFrom(s, u, Ready(p));
  }

  lemma BlockForRearranges(s: State, u: nat, ticks: nat, forEver: bool, p: nat)
    requires ListsOk(s) && Ready(p) in s.lists && u in s.tasks && s.tasks[u].home in s.lists
    ensures ListRearranged(s, BlockFor(s, u, ticks, forEver), p, u, false)
  {
    DetachedFrom(s, u, Ready(p));
  }

  lemma ReprioritisedRearranges(s: State, u: nat, priority: nat, p: nat)
    requires ListsOk(s) && Ready(p) in s.lists && u in s.tasks && s.tasks[u].home in s.lists && priority < s.priorities
    requires s.tasks[u].home.Ready? && s.tasks[u].home.p < s.priorities
    ensures ListRearranged(s, Reprioritised(s, u, priority), p, u, priority == p)
  {
    DetachedFrom(s, u, Ready(p));
    DetachedFrom(s, u, Ready(priority));
    DetachKeepsLists(s, u);
    var d := Detach(s, u);
    assert ListOk(d.tasks, d.lists[Ready(p)], Ready(p));
  }

  lemma CreatedRearranges(s: State, u: nat, priority: nat, p: nat)
    requires Inv(s) && Ready(p) in s.lists && u !in s.tasks && priority < s.priorities
    ensures ListRearranged(s, Created(s, u, priority), p, u, false)
  {
    assert ListOk(s.tasks, s.lists[Ready(p)], Ready(p));
  }

  /** The one task that a step moves, if it moves one. */
  ghost function Mover(s: State, e: Event): nat {
    if Moves(e) || e.Create? then e.t else s.running
  }

  lemma MoveRearranges(s: State, e: Event, p: nat)
    requires Inv(s) && Enabled(s, e) && Moves(e) && Ready(p) in s.lists
    ensures ListRearranged(s, Step(s, e), p, e.t, e == Reprioritise(e.t, p))
  {
    assert TaskOk(s.tasks[e.t], s.priorities, s.top, s.inA, s.now, s.now + 1, s.nextUnblock);
    match e {
      case Signal(u) =>
        if s.depth == 0 {
          ReadiedRearranges(s, u, p);
        }
      case Suspend(u) => SuspendedRearranges(s, u, p);
      case Resume(u) => ReadiedRearranges(s, u, p);
      case Reprioritise(u, priority) =>
        if s.tasks[u].home.Ready? {
          ReprioritisedRearranges(s, u, priority, p);
        }
      case Delete(u) => DeletedRearranges(s, u, p);
      case CleanUp(u) => DeletedRearranges(s, u, p);
      case _ =>
    }
  }

  lemma AwaitRearranges(s: State, ticks: nat, p: nat)
    requires Inv(s) && Enabled(s, Await(ticks)) && Ready(p) in s.lists
    ensures ListRearranged(s, Step(s, Await(ticks)), p, s.running, false)
  {
    assert TaskOk(s.tasks[s.running], s.priorities, s.top, s.inA, s.now, s.now + 1, s.nextUnblock);
    WeakenInv(s, s.running);
    UpdateKeepsRest(s, s.running, s.tasks[s.running].(event := Waiting));
    BlockForRearranges(Update(s, s.running, s.tasks[s.running].(event := Waiting)), s.running, ticks, true, p);
  }

  lemma OneMoves(s: State, e: Event, p: nat)
    requires Inv(s) && Enabled(s, e) && Ready(p) in s.lists && !e.Switch? && !e.Tick? && !e.SuspendAll? && !e.ResumeAll?
    ensures ListRearranged(s, Step(s, e), p, Mover(s, e), e == Reprioritise(Mover(s, e), p))
  {
    if Moves(e) {
      MoveRearranges(s, e, p);
    } else if e.Create? {
      CreatedRearranges(s, e.t, e.priority, p);
    } else if e.Delay? {
      assert TaskOk(s.tasks[s.running], s.priorities, s.top, s.inA, s.now, s.now + 1, s.nextUnblock);
      BlockForRearranges(s, s.running, e.ticks, false, p);
    } else {
      AwaitRearranges(s, e.ticks, p);
    }
  }

  // ---------------------------------------------------------------- one step and the turn of `t`

  /** How many selections from its ready list it takes until `t` is selected. */
  ghost function Turn(s: State, t: nat): nat
    requires Inv(s) && t in s.tasks && s.tasks[t].home.Ready?
  {
    ReadyIsListed(s, t);
    Distance(s.lists[s.tasks[t].home], t)
  }

  lemma ReadyIsListed(s: State, t: nat)
    requires Inv(s) && t in s.tasks && s.tasks[t].home.Ready?
    ensures s.tasks[t].home == Ready(s.tasks[t].priority) && s.tasks[t].home in s.lists
    ensures WellFormed(s.lists[s.tasks[t].home]) && Has(s.lists[s.tasks[t].home].items, t)
  {
    assert TaskOk(s.tasks[t], s.priorities, s.top, s.inA, s.now, s.now + 1, s.nextUnblock);
    assert ListOk(s.tasks, s.lists[s.tasks[t].home], s.tasks[t].home);
  }

  /** `t` is ready with the same priority before and after a step. */
  ghost predicate Stays(s: State, e: Event, t: nat) {
    && Inv(s) && Inv(Step(s, e)) && t in s.tasks && s.tasks[t].home.Ready?
    && t in Step(s, e).tasks && Step(s, e).tasks[t].home == s.tasks[t].home
    && !(e.Reprioritise? && e.t == t)
  }

  lemma OneMoveTurn(s: State, e: Event, t: nat)
    requires Stays(s, e, t) && Enabled(s, e) && !e.Switch? && !e.Tick? && !e.SuspendAll? && !e.ResumeAll?
    ensures var s' := Step(s, e);
            Turn(s', t) <= Turn(s, t) + if UnderIndex(s', t) then |Joiners(s, e, s.tasks[t].priority)| else 0
  {
    var s', u, p := Step(s, e), Mover(s, e), s.tasks[t].priority;
    ReadyIsListed(s, t);
    ReadyIsListed(s', t);
    OneMoves(s, e, p);
    if u == t {
      MoverLeaves(s, e);
    } else {
      assert ListOk(s.tasks, s.lists[Ready(p)], Ready(p));
      RearrangedTurn(s.lists[Ready(p)], s'.lists[Ready(p)], u, e == Reprioritise(u, p), t);
      MoverJoins(s, e, u, p);
    }
  }

  lemma MoverJoins(s: State, e: Event, u: nat, p: nat)
    requires ListsOk(s) && ListsOk(Step(s, e)) && Ready(p) in s.lists && Ready(p) in Step(s, e).lists
    ensures var joins := Has(Step(s, e).lists[Ready(p)].items, u) && (!Has(s.lists[Ready(p)].items, u) || e == Reprioritise(u, p));
            joins ==> |Joiners(s, e, p)| >= 1
  {
    SizeOfList(s, Ready(p));
    SizeOfList(Step(s, e), Ready(p));
    if Has(Step(s, e).lists[Ready(p)].items, u) && (!Has(s.lists[Ready(p)].items, u) || e == Reprioritise(u, p)) {
      assert u in Joiners(s, e, p);
    }
  }

  /** A ready task that is moved by a step, other than by having its priority set, does not stay where it is. */
  lemma MoverLeaves(s: State, e: Event)
    requires Inv(s) && Enabled(s, e) && (Moves(e) || e.Create? || e.Delay? || e.Await?) && !e.Reprioritise?
    requires Mover(s, e) in s.tasks && s.tasks[Mover(s, e)].home.Ready?
    ensures var u := Mover(s, e); !(u in Step(s, e).tasks && Step(s, e).tasks[u].home.Ready?)
  {
    assert TaskOk(s.tasks[Mover(s, e)], s.priorities, s.top, s.inA, s.now, s.now + 1, s.nextUnblock);
    if Moves(e) {
      MoveIsAsAsked(s, e);
    } else if Blocks(e) {
      BlockingSleeps(s, e);
    } else {
      AwaitsForEver(s);
    }
  }

  lemma GrowthTurn(s: State, e: Event, t: nat)
    requires Stays(s, e, t) && !e.Reprioritise?
    requires Ready(s.tasks[t].priority) in s.lists && Has(s.lists[Ready(s.tasks[t].priority)].items, t)
    requires ListGrows(s, Step(s, e), s.tasks[t].priority, t)
    ensures var s' := Step(s, e);
            Turn(s', t) <= Turn(s, t) + if UnderIndex(s', t) then |Joiners(s, e, s.tasks[t].priority)| else 0
  {
    var s', p := Step(s, e), s.tasks[t].priority;
    ReadyIsListed(s, t);
    ReadyIsListed(s', t);
    assert ListOk(s.tasks, s.lists[Ready(p)], Ready(p));
    JoinersCount(s, e, p, |s.lists[Ready(p)].items|, |s'.lists[Ready(p)].items|);
  }

  lemma JoinersCount(s: State, e: Event, p: nat, n: nat, n': nat)
    requires ListsOk(s) && ListsOk(Step(s, e)) && !e.Reprioritise? && Ready(p) in s.lists && Ready(p) in Step(s, e).lists
    requires n == |s.lists[Ready(p)].items| && n' == |Step(s, e).lists[Ready(p)].items|
    requires forall u :: Has(s.lists[Ready(p)].items, u) ==> Has(Step(s, e).lists[Ready(p)].items, u)
    ensures |Joiners(s, e, p)| == n' - n
  {
    SizeOfList(s, Ready(p));
    SizeOfList(Step(s, e), Ready(p));
    SetGrows(At(s, Ready(p)), At(Step(s, e), Ready(p)), Joiners(s, e, p));
  }

  lemma SetGrows(a: set<nat>, b: set<nat>, more: set<nat>)
    requires a <= b && more == b - a
    ensures |more| == |b| - |a|
  {
    assert b == a + more;
  }

  lemma TickOrResumeGrows(s: State, e: Event, p: nat, t: nat)
    requires Inv(s) && Enabled(s, e) && (e.Tick? || e.ResumeAll?)
    requires Ready(p) in s.lists && Has(s.lists[Ready(p)].items, t)
    ensures ListGrows(s, Step(s, e), p, t)
  {
    if e.ResumeAll? {
      ResumeGrows(s, e.threshold, p, t);
    } else {
      DeliveryKeepsInv(s);
      if s.depth == 0 && e.threshold == 0 {
        TickGrows(Counted(s), p, t);
      }
    }
  }

  /** No step but a switch brings `t` closer, and none puts it off but by those who are put in front of it. */
  lemma StepTurn(s: State, e: Event, t: nat)
    requires Stays(s, e, t) && !(e.Switch? && s.depth == 0)
    ensures var s' := Step(s, e);
            Turn(s', t) <= Turn(s, t) + if !e.Switch? && UnderIndex(s', t) then |Joiners(s, e, s.tasks[t].priority)| else 0
  {
    ReadyIsListed(s, t);
    if Enabled(s, e) && !e.SuspendAll? {
      if e.Tick? || e.ResumeAll? {
        TickOrResumeGrows(s, e, s.tasks[t].priority, t);
        GrowthTurn(s, e, t);
      } else {
        OneMoveTurn(s, e, t);
      }
    }
  }

  /** A switch makes the first ready task whose turn it is run, and brings everybody else on its list closer. */
  lemma SwitchTurn(s: State, t: nat)
    requires Inv(s) && s.depth == 0 && First(s, t)
    ensures var s' := Step(s, Switch);
            && Inv(s') && s'.tasks == s.tasks
            && (s'.running == t || Turn(s', t) == Turn(s, t) - 1)
  {
    StepKeepsInv(s, Switch);
    ReadyIsListed(s, t);
    HighestReadyBounds(s, t);
    HighestReadyIs(s, s.top);
    var p, r := s.tasks[t].priority, HighestReady(s, s.top);
    var u := s.lists[Ready(r)].items[0].owner;
    assert ListOk(s.tasks, s.lists[Ready(r)], Ready(r)) && Has(s.lists[Ready(r)].items, u);
    assert TaskOk(s.tasks[u], s.priorities, s.top, s.inA, s.now, s.now + 1, s.nextUnblock);
    assert r == p;
    AdvanceBringsCloser(s.lists[Ready(p)], t);
  }

  // ---------------------------------------------------------------- whole runs

  lemma {:induction false} TurnComes(s: State, es: seq<Event>, t: nat)
    requires Inv(s) && StaysFirst(s, es, t)
    ensures Switches(s, es) >= Turn(s, t) + PutBefore(s, es, t) ==> GetsToRun(s, es, t)
    decreases |es|
  {
    ReadyIsListed(s, t);
    if es != [] {
      var s' := Step(s, es[0]);
      StepKeepsInv(s, es[0]);
      if es[0].Switch? && s.depth == 0 {
        SwitchTurn(s, t);
      } else {
        StepTurn(s, es[0], t);
      }
      TurnComes(s', es[1..], t);
    }
  }

  /** In every run: from any point on, a task that stays ready with nobody ready above it, one of n on its ready list,
      runs by the time n unsuspended context switches have been made, and one more for every task that was put on
      that list while the index of the list was on it. */
  lemma ReadyGetsToRun(priorities: nat, now: nat, before: seq<Event>, es: seq<Event>, t: nat)
    requires priorities > 0 && StaysFirst(Exec(Init(priorities, now), before), es, t)
    ensures var s := Exec(Init(priorities, now), before);
            Switches(s, es) >= |At(s, s.tasks[t].home)| + PutBefore(s, es, t) ==> GetsToRun(s, es, t)
  {
    InitIsOk(priorities, now);
    ExecKeepsInv(Init(priorities, now), before);
    var s := Exec(Init(priorities, now), before);
    ReadyIsListed(s, t);
    SizeOfList(s, s.tasks[t].home);
    TurnComes(s, es, t);
  }

  // ---------------------------------------------------------------- signalled first, first to run

  ghost predicate DrainOk(s: State) {
    ListsOk(s) && TasksOk(s, 0, 0, {})
  }

  /** Those of `pending` who have priority `p`, in order. */
  ghost function OfPriority(pending: seq<Item>, tasks: map<nat, Task>, p: nat): seq<nat> {
    if pending == [] then []
    else
      var u := pending[0].owner;
      (if u in tasks && tasks[u].priority == p then [u] else []) + OfPriority(pending[1..], tasks, p)
  }

  lemma {:induction false} PriorityIsAll(pending: seq<Item>, tasks: map<nat, Task>, tasks': map<nat, Task>, p: nat)
    requires forall v {:trigger v in tasks'} :: v in tasks <==> v in tasks'
    requires forall v {:trigger tasks'[v]} | v in tasks' :: tasks'[v].priority == tasks[v].priority
    ensures OfPriority(pending, tasks', p) == OfPriority(pending, tasks, p)
    decreases |pending|
  {
    if pending != [] {
      PriorityIsAll(pending[1..], tasks, tasks', p);
    }
  }

  lemma HeadLeavesPending(s: State)
    requires ListsOk(s) && s.pending != [] && s.pending[0].owner in s.tasks && s.tasks[s.pending[0].owner].home in s.lists
    ensures Readied(s, s.pending[0].owner).pending == s.pending[1..]
  {
    var u := s.pending[0].owner;
    DetachIs(s, u);
    assert Has(s.pending, u);
    assert Find(s.pending, u) == 0;
    assert RemoveAt(s.pending, 0) == s.pending[1..];
  }

  lemma DrainOneKeeps(s: State)
    requires DrainOk(s) && s.pending != []
    ensures s.pending[0].owner in s.tasks
    ensures var s' := Readied(s, s.pending[0].owner);
            && DrainOk(s') && s'.pending == s.pending[1..] && s'.priorities == s.priorities
            && ReadyPending(s, |s.pending|) == ReadyPending(s', |s'.pending|)
            && (forall v {:trigger v in s'.tasks} :: v in s.tasks <==> v in s'.tasks)
            && (forall v {:trigger s'.tasks[v]} | v in s'.tasks :: s'.tasks[v].priority == s.tasks[v].priority)
  {
    PendingHeadReadied(s, 0, 0);
    PendingHead(s);
    HeadLeavesPending(s);
  }

  /** One round of the loop; the next state is a variable of its own, so that nothing more is known of it. */
  lemma DrainOne(s: State, p: nat) returns (s': State)
    requires DrainOk(s) && s.pending != [] && p < s.priorities
    ensures DrainOk(s') && s'.pending == s.pending[1..] && s'.priorities == s.priorities
    ensures ReadyPending(s, |s.pending|) == ReadyPending(s', |s'.pending|)
    ensures Ready(p) in s.lists && Ready(p) in s'.lists && s.lists[Ready(p)].index <= |s.lists[Ready(p)].items|
    ensures var u := s.pending[0].owner;
            && u in s.tasks
            && s'.lists[Ready(p)] == if s.tasks[u].priority == p then InsertEnd(s.lists[Ready(p)], Item(u, 0)) else s.lists[Ready(p)]
    ensures OfPriority(s'.pending, s'.tasks, p) == OfPriority(s'.pending, s.tasks, p)
  {
    DrainOneKeeps(s);
    DrainOneJoins(s, p);
    s' := Readied(s, s.pending[0].owner);
    PriorityIsAll(s'.pending, s.tasks, s'.tasks, p);
  }

  lemma DrainOneJoins(s: State, p: nat)
    requires DrainOk(s) && s.pending != [] && p < s.priorities
    ensures s.pending[0].owner in s.tasks
    ensures var u := s.pending[0].owner;
            && Ready(p) in s.lists && Ready(p) in Readied(s, u).lists && s.lists[Ready(p)].index <= |s.lists[Ready(p)].items|
            && Readied(s, u).lists[Ready(p)] ==
               if s.tasks[u].priority == p then InsertEnd(s.lists[Ready(p)], Item(u, 0)) else s.lists[Ready(p)]
  {
    PendingHead(s);
    assert TaskOk(s.tasks[s.pending[0].owner], s.priorities, s.top, s.inA, s.now, 0, 0);
    ReadiedJoins(s, s.pending[0].owner, p);
  }

  /** The loop over xPendingReadyList puts the tasks behind everybody on their ready lists, in the order in which they
      were readied. */
  lemma {:induction false} DrainIsInOrder(s: State, n: nat, p: nat)
    requires DrainOk(s) && n == |s.pending| && p < s.priorities
    ensures Ready(p) in s.lists && Ready(p) in ReadyPending(s, n).lists
    ensures ReadyPending(s, n).lists[Ready(p)] == EndAll(s.lists[Ready(p)], OfPriority(s.pending, s.tasks, p))
    decreases n
  {
    if n > 0 {
      var s1 := DrainOne(s, p);
      DrainIsInOrder(s1, n - 1, p);
      EndOne(s.lists[Ready(p)], s.pending[0].owner, OfPriority(s.pending[1..], s.tasks, p));
    }
  }
}
