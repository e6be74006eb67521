/** Mutexes with priority inheritance: xQueueSemaphoreTake, xQueueGenericSend on a mutex, the recursive
    pair, and vTaskPrioritySet, over any number of tasks and mutexes. Mutexes are not used from interrupts, so the whole locked
    section in which a task inherits and blocks is one step. */
module Mutex {
  import opened Lists
  import opened Wrappers

  /** uxPriority, uxBasePriority and uxMutexesHeld of a task control block, and the value of its event list item. */
  datatype Tcb = Tcb(priority: nat, base: nat, held: nat, rank: nat)

  /** `taken` and `given` count the nested takes and gives of a recursive mutex that succeeded. */
  datatype Mutex = Mutex(recursive: bool, holder: Option<nat>, count: nat, depth: nat, waiting: seq<Item>,
                         taken: nat, given: nat)

  /** A task inside a blocking take of `mutex`. `inherited` is xInheritanceOccurred; `donee` is the holder
      that the task blocked on, for as long as that holder keeps the mutex and the task stays listed. */
  datatype Waiter = Waiter(mutex: nat, inherited: bool, donee: Option<nat>)

  datatype State = State(maxPriorities: nat, tasks: map<nat, Tcb>, mutexes: map<nat, Mutex>, waiters: map<nat, Waiter>)

  datatype Event =
    | Take(t: nat, m: nat)       // the test at the head of the loop, finding the mutex free
    | Block(t: nat, m: nat)      // the locked section, finding it taken
    | Cut(t: nat)                // the wait of a listed task ends by the tick
    | GiveUp(t: nat)             // a timed-out task returns
    | Give(t: nat, m: nat)
    | TakeAgain(t: nat, m: nat)  // a nested take by the holder
    | GiveNested(t: nat, m: nat)

  // ---------------------------------------------------------------- priorities

  /** The value of the event list item of a task of this priority: the more urgent the task, the smaller. */
  function RankOf(maxPriorities: nat, priority: nat): nat {
    if priority <= maxPriorities then maxPriorities - priority else 0
  }

  /** The item of a task that is waiting for a mutex is revalued where it is. */
  function Requeued(s: State, t: nat, rank: nat): State {
    if !Listed(s, t) then s else
      var m := s.waiters[t].mutex;
      s.(mutexes := s.mutexes[m := s.mutexes[m].(waiting := Revalued(s.mutexes[m].waiting, t, rank))])
  }

  /** A task's item is revalued with its priority. */
  function SetPriority(s: State, t: nat, priority: nat): State
    requires t in s.tasks
  {
    var rank := RankOf(s.maxPriorities, priority);
    Requeued(s, t, rank).(tasks := s.tasks[t := s.tasks[t].(priority := priority, rank := rank)])
  }

  /** xTaskPriorityInherit: the holder is raised to the priority of the task about to block. */
  function Inherit(s: State, h: nat, t: nat): State
    requires h in s.tasks && t in s.tasks
  {
    if s.tasks[h].priority < s.tasks[t].priority then SetPriority(s, h, s.tasks[t].priority) else s
  }

  predicate InheritReports(s: State, h: nat, t: nat)
    requires h in s.tasks && t in s.tasks
  {
    s.tasks[h].priority < s.tasks[t].priority || s.tasks[h].base < s.tasks[t].priority
  }

  /** xTaskPriorityDisinherit: the base priority comes back with the last mutex given. */
  function Disinherit(s: State, t: nat): State
    requires t in s.tasks
  {
    var c := s.tasks[t];
    var held := if c.held > 0 then c.held - 1 else 0;
    s.(tasks := s.tasks[t := if c.priority != c.base && held == 0
                             then Tcb(c.base, c.base, held, RankOf(s.maxPriorities, c.base)) else c.(held := held)])
  }

  /** prvGetDisinheritPriorityAfterTimeout */
  function HighestWaiting(s: State, m: nat): int
    requires m in s.mutexes
  {
    var w := s.mutexes[m].waiting;
    if w == [] then 0 else s.maxPriorities - w[0].value
  }

  /** The priority that the holder of `m` steps down to. */
  function StepDownTo(s: State, m: nat): nat
    requires m in s.mutexes && s.mutexes[m].holder.Some? && s.mutexes[m].holder.value in s.tasks
  {
    var base, highest := s.tasks[s.mutexes[m].holder.value].base, HighestWaiting(s, m);
    if base < highest then highest else base
  }

  /** vTaskPriorityDisinheritAfterTimeout */
  function DisinheritAfterTimeout(s: State, m: nat): State
    requires m in s.mutexes && (s.mutexes[m].holder.Some? ==> s.mutexes[m].holder.value in s.tasks)
  {
    if s.mutexes[m].holder.None? then s else
      var h := s.mutexes[m].holder.value;
      if s.tasks[h].priority != StepDownTo(s, m) && s.tasks[h].held == 1 then SetPriority(s, h, StepDownTo(s, m)) else s
  }

  // ---------------------------------------------------------------- steps

  predicate Listed(s: State, t: nat) {
    t in s.waiters && s.waiters[t].mutex in s.mutexes && Has(s.mutexes[s.waiters[t].mutex].waiting, t)
  }

  predicate Running(s: State, t: nat) {
    t in s.tasks && !Listed(s, t)
  }

  function Acquire(s: State, t: nat, m: nat): State
    requires t in s.tasks && m in s.mutexes
  {
    var x := s.mutexes[m];
    var n := if x.recursive then 1 else 0;
    s.(tasks := s.tasks[t := s.tasks[t].(held := s.tasks[t].held + 1)],
       mutexes := s.mutexes[m := x.(holder := Some(t), count := 0, depth := x.depth + n, taken := x.taken + n)],
       waiters := s.waiters - {t})
  }

  function Rank(s: State, t: nat): nat
    requires t in s.tasks
  {
    RankOf(s.maxPriorities, s.tasks[t].priority)
  }

  /** vTaskPlaceOnEventList */
  function Join(s: State, t: nat, m: nat, item: Item, w: Waiter): State
    requires m in s.mutexes
  {
    var x := s.mutexes[m];
    s.(mutexes := s.mutexes[m := x.(waiting := InsertSorted(x.waiting, item))], waiters := s.waiters[t := w])
  }

  function Enlist(s: State, t: nat, m: nat): State
    requires t in s.tasks && m in s.mutexes && s.mutexes[m].holder.Some? && s.mutexes[m].holder.value in s.tasks
  {
    var h := s.mutexes[m].holder.value;
    Join(Inherit(s, h, t), t, m, Item(t, s.tasks[t].rank), Waiter(m, InheritReports(s, h, t), Some(h)))
  }

  function Unlist(s: State, t: nat): State
    requires Listed(s, t)
  {
    var m := s.waiters[t].mutex;
    var x := s.mutexes[m];
    s.(mutexes := s.mutexes[m := x.(waiting := Remove(x.waiting, t))],
       waiters := s.waiters[t := s.waiters[t].(donee := None)])
  }

  function Withdraw(s: State, t: nat): State
    requires t in s.waiters && s.waiters[t].mutex in s.mutexes
    requires var o := s.mutexes[s.waiters[t].mutex].holder; o.Some? ==> o.value in s.tasks
  {
    var s' := if s.waiters[t].inherited then DisinheritAfterTimeout(s, s.waiters[t].mutex) else s;
    s'.(waiters := s.waiters - {t})
  }

  /** No donation outlives the giving of the mutex it was made for. */
  function EndDonations(waiters: map<nat, Waiter>, m: nat): map<nat, Waiter> {
    map t | t in waiters :: if waiters[t].mutex == m then waiters[t].(donee := None) else waiters[t]
  }

  /** xQueueGenericSend on a mutex; the most urgent waiter is taken off the list. */
  function Release(s: State, t: nat, m: nat): State
    requires t in s.tasks && m in s.mutexes
  {
    var x := s.mutexes[m];
    var n := if x.recursive then 1 else 0;
    Disinherit(s, t).(mutexes := s.mutexes[m := x.(holder := None, count := 1, depth := 0, given := x.given + n,
                                                   waiting := if x.waiting == [] then [] else x.waiting[1..])],
                      waiters := EndDonations(s.waiters, m))
  }

  predicate Holds(s: State, t: nat, m: nat) {
    m in s.mutexes && s.mutexes[m].holder == Some(t)
  }

  predicate Enabled(s: State, e: Event) {
    match e
    case Take(t, m) =>
      && Running(s, t) && m in s.mutexes && s.mutexes[m].count > 0
      && (t in s.waiters ==> s.waiters[t].mutex == m)
    case Block(t, m) =>
      && Running(s, t) && m in s.mutexes && s.mutexes[m].count == 0
      && (t in s.waiters ==> s.waiters[t].mutex == m)
      && (s.mutexes[m].recursive ==> !Holds(s, t, m))
    case Cut(t) => Listed(s, t)
    case GiveUp(t) => Running(s, t) && t in s.waiters
    case Give(t, m) => Running(s, t) && t !in s.waiters && Holds(s, t, m) && !s.mutexes[m].recursive
    case TakeAgain(t, m) => Running(s, t) && t !in s.waiters && Holds(s, t, m) && s.mutexes[m].recursive
    case GiveNested(t, m) => Running(s, t) && t !in s.waiters && Holds(s, t, m) && s.mutexes[m].recursive
  }

  ghost predicate MutexOk(s: State, m: nat)
    requires m in s.mutexes
  {
    var x := s.mutexes[m];
    && (x.holder.Some? ==> x.holder.value in s.tasks)
    && x.count == (if x.holder.None? then 1 else 0)
    && Distinct(x.waiting)
    && (forall t :: Has(x.waiting, t) ==> t in s.waiters && s.waiters[t].mutex == m)
    && (if x.recursive then x.taken == x.given + x.depth && (x.holder.Some? <==> x.depth > 0) else x.depth == 0)
  }

  ghost predicate WaiterOk(s: State, t: nat)
    requires t in s.waiters
  {
    t in s.tasks && s.waiters[t].mutex in s.mutexes
  }

  ghost predicate Consistent(s: State) {
    && (forall m {:trigger MutexOk(s, m)} | m in s.mutexes :: MutexOk(s, m))
    && (forall t {:trigger WaiterOk(s, t)} | t in s.waiters :: WaiterOk(s, t))
  }

  /** One step; an event that cannot happen in `s` changes nothing. `Consistent` is kept by every step. */
  ghost function Step(s: State, e: Event): State {
    if !Consistent(s) || !Enabled(s, e) then s else
      match e
      case Take(t, m) => Acquire(s, t, m)
      case Block(t, m) =>
        assert MutexOk(s, m);
        Enlist(s, t, m)
      case Cut(t) => Unlist(s, t)
      case GiveUp(t) =>
        assert WaiterOk(s, t) && MutexOk(s, s.waiters[t].mutex);
        Withdraw(s, t)
      case Give(t, m) => Release(s, t, m)
      case TakeAgain(t, m) => SetDepth(s, m, s.mutexes[m].depth + 1, 1, 0)
      case GiveNested(t, m) =>
        if s.mutexes[m].depth <= 1 then Release(s, t, m) else SetDepth(s, m, s.mutexes[m].depth - 1, 0, 1)
  }

  function SetDepth(s: State, m: nat, depth: nat, taken: nat, given: nat): State
    requires m in s.mutexes
  {
    var x := s.mutexes[m];
    s.(mutexes := s.mutexes[m := x.(depth := depth, taken := x.taken + taken, given := x.given + given)])
  }

  function Init(maxPriorities: nat, priorities: map<nat, nat>, recursive: map<nat, bool>): State {
    State(maxPriorities,
          map t | t in priorities :: Tcb(priorities[t], priorities[t], 0, RankOf(maxPriorities, priorities[t])),
          map m | m in recursive :: Mutex(recursive[m], None, 1, 0, [], 0, 0),
          map[])
  }

  ghost function Exec(s: State, es: seq<Event>): State
    decreases |es|
  {
    if es == [] then s else Exec(Step(s, es[0]), es[1..])
  }

  // ---------------------------------------------------------------- accounting

  function HeldBy(s: State, t: nat): set<nat> {
    set m | m in s.mutexes && s.mutexes[m].holder == Some(t)
  }

  ghost predicate TaskOk(s: State, t: nat)
    requires t in s.tasks
  {
    && s.tasks[t].priority <= s.maxPriorities
    && s.tasks[t].held == |HeldBy(s, t)|
    && s.tasks[t].base <= s.tasks[t].priority
    && s.tasks[t].rank == Rank(s, t)
    && (s.tasks[t].held == 0 ==> s.tasks[t].priority == s.tasks[t].base)
  }

  ghost predicate Accounts(s: State) {
    && Consistent(s)
    && (forall t {:trigger TaskOk(s, t)} | t in s.tasks :: TaskOk(s, t))
  }

  /** Only the holder of one mutex changes: the sets of mutexes held change accordingly. */
  lemma HeldByUpdate(s: State, m: nat, x: Mutex, t: nat)
    requires m in s.mutexes
    ensures var s' := s.(mutexes := s.mutexes[m := x]);
            HeldBy(s', t) == if x.holder == Some(t) then HeldBy(s, t) + {m} else HeldBy(s, t) - {m}
  {
  }

  lemma NotListed(s: State, t: nat)
    requires Consistent(s) && !Listed(s, t)
    ensures forall m | m in s.mutexes :: !Has(s.mutexes[m].waiting, t)
  {
    forall m | m in s.mutexes
      ensures !Has(s.mutexes[m].waiting, t)
    {
      assert MutexOk(s, m);
    }
  }

  lemma AcquireKeepsMutex(s: State, t: nat, m: nat, k: nat)
    requires Accounts(s) && Running(s, t) && m in s.mutexes && s.mutexes[m].holder.None? && k in s.mutexes
    ensures MutexOk(Acquire(s, t, m), k)
  {
    NotListed(s, t);
    assert MutexOk(s, k);
  }

  lemma AcquireKeepsTask(s: State, t: nat, m: nat, u: nat)
    requires Accounts(s) && Running(s, t) && m in s.mutexes && s.mutexes[m].holder.None? && u in s.tasks
    ensures TaskOk(Acquire(s, t, m), u)
  {
    var s' := Acquire(s, t, m);
    HeldByUpdate(s, m, s'.mutexes[m], u);
    assert HeldBy(s', u) == HeldBy(s.(mutexes := s'.mutexes), u);
    assert TaskOk(s, u);
  }

  lemma AcquireKeepsAccounts(s: State, t: nat, m: nat)
    requires Accounts(s) && Running(s, t) && m in s.mutexes && s.mutexes[m].holder.None?
    ensures Accounts(Acquire(s, t, m))
  {
    var s' := Acquire(s, t, m);
    forall k | k in s.mutexes
      ensures MutexOk(s', k)
    {
      AcquireKeepsMutex(s, t, m, k);
    }
    forall u | u in s.tasks
      ensures TaskOk(s', u)
    {
      AcquireKeepsTask(s, t, m, u);
    }
    assert forall u | u in s'.waiters :: WaiterOk(s, u);
  }

  /** A change of priority moves nobody and changes no owner. */
  lemma SetPriorityIs(s: State, h: nat, p: nat)
    requires h in s.tasks
    ensures var s' := SetPriority(s, h, p);
            && s'.maxPriorities == s.maxPriorities && s'.waiters == s.waiters && s'.mutexes.Keys == s.mutexes.Keys
            && s'.tasks == s.tasks[h := s.tasks[h].(priority := p, rank := RankOf(s.maxPriorities, p))]
            && (forall k {:trigger s'.mutexes[k]} | k in s.mutexes ::
                  s'.mutexes[k] == s.mutexes[k].(waiting := s'.mutexes[k].waiting))
  {
  }

  lemma SetPriorityMembers(s: State, h: nat, p: nat, k: nat)
    requires h in s.tasks && k in s.mutexes
    ensures var s' := SetPriority(s, h, p);
            && k in s'.mutexes && (Distinct(s.mutexes[k].waiting) ==> Distinct(s'.mutexes[k].waiting))
            && (forall u {:trigger Has(s'.mutexes[k].waiting, u)} :: Has(s'.mutexes[k].waiting, u) <==> Has(s.mutexes[k].waiting, u))
  {
    RevaluedMembers(s.mutexes[k].waiting, h, RankOf(s.maxPriorities, p));
  }

  lemma SetPriorityHeld(s: State, h: nat, p: nat, u: nat)
    requires h in s.tasks
    ensures HeldBy(SetPriority(s, h, p), u) == HeldBy(s, u)
  {
    SetPriorityIs(s, h, p);
  }

  lemma SetPriorityKeepsMutex(s: State, h: nat, p: nat, k: nat)
    requires h in s.tasks && k in s.mutexes && MutexOk(s, k)
    ensures k in SetPriority(s, h, p).mutexes && MutexOk(SetPriority(s, h, p), k)
  {
    SetPriorityIs(s, h, p);
    SetPriorityMembers(s, h, p, k);
  }

  lemma SetPriorityKeepsAccounts(s: State, h: nat, p: nat)
    requires Accounts(s) && h in s.tasks && s.tasks[h].base <= p <= s.maxPriorities && s.tasks[h].held > 0
    ensures Accounts(SetPriority(s, h, p))
  {
    var s' := SetPriority(s, h, p);
    SetPriorityIs(s, h, p);
    forall k | k in s'.mutexes
      ensures MutexOk(s', k)
    {
      assert MutexOk(s, k);
      SetPriorityKeepsMutex(s, h, p, k);
    }
    forall u | u in s'.waiters
      ensures WaiterOk(s', u)
    {
      assert WaiterOk(s, u);
    }
    forall u | u in s'.tasks
      ensures TaskOk(s', u)
    {
      assert TaskOk(s, u);
      SetPriorityHeld(s, h, p, u);
    }
  }

  /** Whoever holds a mutex counts it. */
  lemma HolderCounts(s: State, h: nat, m: nat)
    requires Accounts(s) && Holds(s, h, m)
    ensures h in s.tasks && s.tasks[h].held > 0
  {
    assert MutexOk(s, m);
    assert m in HeldBy(s, h);
    assert TaskOk(s, h);
  }

  lemma InheritKeepsAccounts(s: State, h: nat, t: nat, m: nat)
    requires Accounts(s) && h in s.tasks && t in s.tasks && Holds(s, h, m)
    ensures Accounts(Inherit(s, h, t))
  {
    HolderCounts(s, h, m);
    assert TaskOk(s, t) && TaskOk(s, h);
    if s.tasks[h].priority < s.tasks[t].priority {
      SetPriorityKeepsAccounts(s, h, s.tasks[t].priority);
    }
  }

  lemma InheritIs(s: State, h: nat, t: nat, k: nat)
    requires h in s.tasks && t in s.tasks && k in s.mutexes
    ensures var s' := Inherit(s, h, t);
            && s'.maxPriorities == s.maxPriorities && s'.waiters == s.waiters && s'.tasks.Keys == s.tasks.Keys
            && k in s'.mutexes && s'.mutexes[k] == s.mutexes[k].(waiting := s'.mutexes[k].waiting)
            && (forall u {:trigger Has(s'.mutexes[k].waiting, u)} :: Has(s'.mutexes[k].waiting, u) <==> Has(s.mutexes[k].waiting, u))
  {
    if s.tasks[h].priority < s.tasks[t].priority {
      SetPriorityIs(s, h, s.tasks[t].priority);
      SetPriorityMembers(s, h, s.tasks[t].priority, k);
    }
  }

  lemma JoinKeepsMutex(s: State, t: nat, m: nat, item: Item, w: Waiter, k: nat)
    requires Consistent(s) && m in s.mutexes && t in s.tasks && item.owner == t && w.mutex == m && k in s.mutexes
    requires forall j | j in s.mutexes :: !Has(s.mutexes[j].waiting, t)
    ensures MutexOk(Join(s, t, m, item, w), k)
  {
    assert MutexOk(s, k);
    if k == m {
      InsertKeepsMembers(s.mutexes[m].waiting, InsertPoint(s.mutexes[m].waiting, item.value), item);
    }
  }

  lemma JoinKeepsAccounts(s: State, t: nat, m: nat, item: Item, w: Waiter)
    requires Accounts(s) && m in s.mutexes && t in s.tasks && item.owner == t && w.mutex == m
    requires forall j | j in s.mutexes :: !Has(s.mutexes[j].waiting, t)
    ensures Accounts(Join(s, t, m, item, w))
  {
    var s' := Join(s, t, m, item, w);
    forall k | k in s'.mutexes
      ensures MutexOk(s', k)
    {
      JoinKeepsMutex(s, t, m, item, w, k);
    }
    forall u | u in s'.tasks
      ensures TaskOk(s', u)
    {
      assert HeldBy(s', u) == HeldBy(s, u);
      assert TaskOk(s, u);
    }
    forall u | u in s'.waiters
      ensures WaiterOk(s', u)
    {
      assert u != t ==> WaiterOk(s, u);
    }
  }

  lemma StillNotListed(s: State, h: nat, t: nat)
    requires Consistent(s) && h in s.tasks && t in s.tasks && !Listed(s, t)
    ensures forall j | j in Inherit(s, h, t).mutexes :: !Has(Inherit(s, h, t).mutexes[j].waiting, t)
  {
    NotListed(s, t);
    SetPriorityIs(s, h, s.tasks[t].priority);
    forall j | j in Inherit(s, h, t).mutexes
      ensures !Has(Inherit(s, h, t).mutexes[j].waiting, t)
    {
      InheritIs(s, h, t, j);
    }
  }

  lemma EnlistKeepsAccounts(s: State, t: nat, m: nat)
    requires Accounts(s) && Running(s, t) && m in s.mutexes && s.mutexes[m].holder.Some? && MutexOk(s, m)
    ensures Accounts(Enlist(s, t, m))
  {
    var h := s.mutexes[m].holder.value;
    InheritKeepsAccounts(s, h, t, m);
    InheritIs(s, h, t, m);
    StillNotListed(s, h, t);
    JoinKeepsAccounts(Inherit(s, h, t), t, m, Item(t, s.tasks[t].rank), Waiter(m, InheritReports(s, h, t), Some(h)));
  }

  lemma UnlistKeepsAccounts(s: State, t: nat)
    requires Accounts(s) && Listed(s, t)
    ensures Accounts(Unlist(s, t))
  {
    var s', m := Unlist(s, t), s.waiters[t].mutex;
    assert MutexOk(s, m);
    RemoveKeepsMembers(s.mutexes[m].waiting, t);
    forall k | k in s'.mutexes
      ensures MutexOk(s', k)
    {
      assert MutexOk(s, k);
    }
    forall u | u in s'.waiters
      ensures WaiterOk(s', u)
    {
      assert WaiterOk(s, u);
    }
    forall u | u in s'.tasks
      ensures TaskOk(s', u)
    {
      assert HeldBy(s', u) == HeldBy(s, u);
      assert TaskOk(s, u);
    }
  }

  lemma StepDownKeepsAccounts(s: State, m: nat)
    requires Accounts(s) && m in s.mutexes && (s.mutexes[m].holder.Some? ==> s.mutexes[m].holder.value in s.tasks)
    ensures Accounts(DisinheritAfterTimeout(s, m))
  {
    if s.mutexes[m].holder.Some? {
      var h := s.mutexes[m].holder.value;
      assert TaskOk(s, h);
      if s.tasks[h].held == 1 {
        SetPriorityKeepsAccounts(s, h, StepDownTo(s, m));
      }
    }
  }

  lemma StepDownIs(s: State, m: nat, k: nat)
    requires m in s.mutexes && (s.mutexes[m].holder.Some? ==> s.mutexes[m].holder.value in s.tasks) && k in s.mutexes
    ensures var s' := DisinheritAfterTimeout(s, m);
            && s'.maxPriorities == s.maxPriorities && s'.waiters == s.waiters && s'.tasks.Keys == s.tasks.Keys
            && s'.mutexes.Keys == s.mutexes.Keys
            && k in s'.mutexes && s'.mutexes[k] == s.mutexes[k].(waiting := s'.mutexes[k].waiting)
            && (forall u {:trigger Has(s'.mutexes[k].waiting, u)} :: Has(s'.mutexes[k].waiting, u) <==> Has(s.mutexes[k].waiting, u))
  {
    if s.mutexes[m].holder.Some? {
      SetPriorityIs(s, s.mutexes[m].holder.value, StepDownTo(s, m));
      SetPriorityMembers(s, s.mutexes[m].holder.value, StepDownTo(s, m), k);
    }
  }

  lemma LeaveKeepsAccounts(s: State, t: nat)
    requires Accounts(s) && forall k | k in s.mutexes :: !Has(s.mutexes[k].waiting, t)
    ensures Accounts(s.(waiters := s.waiters - {t}))
  {
    var s' := s.(waiters := s.waiters - {t});
    forall k | k in s'.mutexes
      ensures MutexOk(s', k)
    {
      assert MutexOk(s, k);
    }
    forall u | u in s'.waiters
      ensures WaiterOk(s', u)
    {
      assert WaiterOk(s, u);
    }
    forall u | u in s'.tasks
      ensures TaskOk(s', u)
    {
      assert HeldBy(s', u) == HeldBy(s, u);
      assert TaskOk(s, u);
    }
  }

  lemma WithdrawKeepsAccounts(s: State, t: nat)
    requires Accounts(s) && t in s.waiters && !Listed(s, t) && WaiterOk(s, t) && MutexOk(s, s.waiters[t].mutex)
    ensures Accounts(Withdraw(s, t))
  {
    var m := s.waiters[t].mutex;
    NotListed(s, t);
    StepDownIs(s, m, m);
    var s1 := if s.waiters[t].inherited then DisinheritAfterTimeout(s, m) else s;
    if s.waiters[t].inherited {
      StepDownKeepsAccounts(s, m);
    }
    forall k | k in s1.mutexes
      ensures !Has(s1.mutexes[k].waiting, t)
    {
      StepDownIs(s, m, k);
    }
    LeaveKeepsAccounts(s1, t);
  }

  lemma ReleaseKeepsAccounts(s: State, t: nat, m: nat)
    requires Accounts(s) && t in s.tasks && Holds(s, t, m) && s.mutexes[m].depth <= 1
    ensures Accounts(Release(s, t, m))
  {
    var s', x := Release(s, t, m), s.mutexes[m];
    assert MutexOk(s, m);
    if x.waiting != [] {
      TailKeepsMembers(x.waiting);
    }
    forall k | k in s'.mutexes
      ensures MutexOk(s', k)
    {
      assert MutexOk(s, k);
    }
    forall u | u in s'.waiters
      ensures WaiterOk(s', u)
    {
      assert WaiterOk(s, u);
    }
    assert m in HeldBy(s, t);
    forall u | u in s'.tasks
      ensures TaskOk(s', u)
    {
      HeldByUpdate(s, m, s'.mutexes[m], u);
      assert HeldBy(s', u) == HeldBy(s.(mutexes := s'.mutexes), u);
      assert TaskOk(s, u);
    }
  }

  lemma SetDepthKeepsAccounts(s: State, m: nat, depth: nat, taken: nat, given: nat)
    requires Accounts(s) && m in s.mutexes && s.mutexes[m].recursive && s.mutexes[m].holder.Some?
    requires depth > 0 && depth == s.mutexes[m].depth + taken - given
    ensures Accounts(SetDepth(s, m, depth, taken, given))
  {
    var s' := SetDepth(s, m, depth, taken, given);
    forall k | k in s'.mutexes
      ensures MutexOk(s', k)
    {
      assert MutexOk(s, k);
    }
    forall u | u in s'.waiters
      ensures WaiterOk(s', u)
    {
      assert WaiterOk(s, u);
    }
    forall u | u in s'.tasks
      ensures TaskOk(s', u)
    {
      assert HeldBy(s', u) == HeldBy(s, u);
      assert TaskOk(s, u);
    }
  }

  lemma StepKeepsAccounts(s: State, e: Event)
    requires Accounts(s)
    ensures Accounts(Step(s, e))
  {
    if Enabled(s, e) {
      match e {
        case Take(t, m) =>
          assert MutexOk(s, m);
          AcquireKeepsAccounts(s, t, m);
        case Block(t, m) =>
          assert MutexOk(s, m);
          EnlistKeepsAccounts(s, t, m);
        case Cut(t) => UnlistKeepsAccounts(s, t);
        case GiveUp(t) =>
          assert WaiterOk(s, t) && MutexOk(s, s.waiters[t].mutex);
          WithdrawKeepsAccounts(s, t);
        case Give(t, m) =>
          assert MutexOk(s, m);
          ReleaseKeepsAccounts(s, t, m);
        case TakeAgain(t, m) => SetDepthKeepsAccounts(s, m, s.mutexes[m].depth + 1, 1, 0);
        case GiveNested(t, m) =>
          if s.mutexes[m].depth <= 1 {
            ReleaseKeepsAccounts(s, t, m);
          } else {
            SetDepthKeepsAccounts(s, m, s.mutexes[m].depth - 1, 0, 1);
          }
      }
    }
  }

  lemma {:induction false} ExecKeepsAccounts(s: State, es: seq<Event>)
    requires Accounts(s)
    ensures Accounts(Exec(s, es))
    decreases |es|
  {
    if es != [] {
      StepKeepsAccounts(s, es[0]);
      ExecKeepsAccounts(Step(s, es[0]), es[1..]);
    }
  }

  /** Over every run: a mutex is free iff nobody holds it, each task counts exactly the mutexes that name
      it as holder, a nested mutex is held exactly while its takes outnumber its gives, and no task runs
      below its base priority, nor above it without holding a mutex; and its item has the value of its priority. */
  lemma MutexAccounting(maxPriorities: nat, priorities: map<nat, nat>, recursive: map<nat, bool>, es: seq<Event>)
    requires forall t | t in priorities :: priorities[t] <= maxPriorities
    ensures var s := Exec(Init(maxPriorities, priorities, recursive), es);
            && (forall m | m in s.mutexes :: s.mutexes[m].count == if s.mutexes[m].holder.None? then 1 else 0)
            && (forall m | m in s.mutexes && s.mutexes[m].recursive ::
                  s.mutexes[m].holder.Some? <==> s.mutexes[m].taken > s.mutexes[m].given)
            && (forall t | t in s.tasks ::
                  && s.tasks[t].held == |set m | m in s.mutexes && s.mutexes[m].holder == Some(t)|
                  && s.tasks[t].base <= s.tasks[t].priority
                  && s.tasks[t].rank == s.maxPriorities - s.tasks[t].priority
                  && (s.tasks[t].held == 0 ==> s.tasks[t].priority == s.tasks[t].base))
  {
    InitIsOk(maxPriorities, priorities, recursive);
    ExecKeepsAccounts(Init(maxPriorities, priorities, recursive), es);
    var s := Exec(Init(maxPriorities, priorities, recursive), es);
    forall m | m in s.mutexes
      ensures s.mutexes[m].count == if s.mutexes[m].holder.None? then 1 else 0
      ensures s.mutexes[m].recursive ==> (s.mutexes[m].holder.Some? <==> s.mutexes[m].taken > s.mutexes[m].given)
    {
      assert MutexOk(s, m);
    }
    forall t | t in s.tasks
      ensures TaskOk(s, t) && HeldBy(s, t) == set m | m in s.mutexes && s.mutexes[m].holder == Some(t)
    {
      assert TaskOk(s, t);
    }
  }

  lemma InitIsOk(maxPriorities: nat, priorities: map<nat, nat>, recursive: map<nat, bool>)
    requires forall t | t in priorities :: priorities[t] <= maxPriorities
    ensures Donations(Init(maxPriorities, priorities, recursive))
  {
    var s := Init(maxPriorities, priorities, recursive);
    assert forall t | t in s.tasks :: HeldBy(s, t) == {};
  }

  // ---------------------------------------------------------------- donation

  /** The waiting list of `m` is in order of the priorities its tasks have now, and they hold no mutex. */
  ghost predicate QueueOk(s: State, m: nat)
    requires m in s.mutexes
  {
    var w := s.mutexes[m].waiting;
    && Sorted(w)
    && forall i | 0 <= i < |w| :: w[i].owner in s.tasks && s.tasks[w[i].owner].held == 0 && w[i].value == Rank(s, w[i].owner)
  }

  /** A donation in force: the donee still holds the mutex, and runs at least as urgently as the donor. */
  ghost predicate DonationOk(s: State, t: nat)
    requires t in s.waiters
  {
    var w := s.waiters[t];
    w.donee.Some? ==>
      && Holds(s, w.donee.value, w.mutex) && Has(s.mutexes[w.mutex].waiting, t)
      && t in s.tasks && w.donee.value in s.tasks
      && s.tasks[t].priority <= s.tasks[w.donee.value].priority
  }

  ghost predicate Donations(s: State) {
    && Accounts(s)
    && (forall m {:trigger QueueOk(s, m)} | m in s.mutexes :: QueueOk(s, m))
    && (forall t {:trigger DonationOk(s, t)} | t in s.waiters :: DonationOk(s, t))
  }

  /** Whoever holds a mutex is not waiting for one. */
  lemma HoldersAreNotQueued(s: State, h: nat, m: nat, k: nat)
    requires Donations(s) && Holds(s, h, m) && h in s.tasks && k in s.mutexes
    ensures s.tasks[h].held > 0 && !Has(s.mutexes[k].waiting, h)
  {
    assert m in HeldBy(s, h);
    assert TaskOk(s, h) && QueueOk(s, k);
  }

  lemma AcquireKeepsDonations(s: State, t: nat, m: nat)
    requires Donations(s) && Running(s, t) && m in s.mutexes && s.mutexes[m].holder.None?
    ensures Donations(Acquire(s, t, m))
  {
    var s' := Acquire(s, t, m);
    AcquireKeepsAccounts(s, t, m);
    NotListed(s, t);
    forall k | k in s.mutexes
      ensures QueueOk(s', k)
    {
      assert QueueOk(s, k);
    }
    forall u | u in s'.waiters
      ensures DonationOk(s', u)
    {
      assert DonationOk(s, u);
    }
  }

  lemma InheritIsPlain(s: State, h: nat, t: nat, m: nat)
    requires Donations(s) && h in s.tasks && t in s.tasks && Holds(s, h, m)
    ensures Inherit(s, h, t) == s.(tasks := Inherit(s, h, t).tasks)
    ensures Inherit(s, h, t).tasks.Keys == s.tasks.Keys && Inherit(s, h, t).tasks[h].held == s.tasks[h].held
    ensures forall u {:trigger Inherit(s, h, t).tasks[u]} | u in s.tasks && u != h :: Inherit(s, h, t).tasks[u] == s.tasks[u]
    ensures s.tasks[h].priority <= Inherit(s, h, t).tasks[h].priority && s.tasks[t].priority <= Inherit(s, h, t).tasks[h].priority
  {
    if Listed(s, h) {
      HoldersAreNotQueued(s, h, m, s.waiters[h].mutex);
    }
  }

  lemma InheritKeepsDonations(s: State, h: nat, t: nat, m: nat)
    requires Donations(s) && h in s.tasks && t in s.tasks && Holds(s, h, m)
    ensures Donations(Inherit(s, h, t))
  {
    var s' := Inherit(s, h, t);
    InheritKeepsAccounts(s, h, t, m);
    InheritIsPlain(s, h, t, m);
    forall k | k in s'.mutexes
      ensures QueueOk(s', k)
    {
      HoldersAreNotQueued(s, h, m, k);
      assert QueueOk(s, k);
    }
    forall u | u in s'.waiters
      ensures DonationOk(s', u)
    {
      assert DonationOk(s, u);
      if s.waiters[u].donee.Some? {
        HoldersAreNotQueued(s, h, m, s.waiters[u].mutex);
      }
    }
  }

  lemma JoinKeepsQueue(s: State, t: nat, m: nat, item: Item, w: Waiter, k: nat)
    requires Donations(s) && m in s.mutexes && k in s.mutexes && t in s.tasks && s.tasks[t].held == 0 && item == Item(t, Rank(s, t))
    ensures QueueOk(Join(s, t, m, item, w), k)
  {
    assert QueueOk(s, k);
    if k == m {
      var x := s.mutexes[m];
      InsertSortedIsStable(x.waiting, item);
      var w := InsertSorted(x.waiting, item);
      forall i | 0 <= i < |w|
        ensures w[i].owner in s.tasks && s.tasks[w[i].owner].held == 0 && w[i].value == Rank(s, w[i].owner)
      {
        assert w[i] == item || exists j :: 0 <= j < |x.waiting| && w[i] == x.waiting[j];
      }
    }
  }

  lemma JoinKeepsDonations(s: State, t: nat, m: nat, item: Item, w: Waiter)
    requires Donations(s) && m in s.mutexes && t in s.tasks && s.tasks[t].held == 0 && item == Item(t, Rank(s, t))
    requires forall j | j in s.mutexes :: !Has(s.mutexes[j].waiting, t)
    requires w.mutex == m && w.donee.Some? && Holds(s, w.donee.value, m) && w.donee.value in s.tasks
    requires s.tasks[t].priority <= s.tasks[w.donee.value].priority
    ensures Donations(Join(s, t, m, item, w))
  {
    var s' := Join(s, t, m, item, w);
    JoinKeepsAccounts(s, t, m, item, w);
    forall k | k in s'.mutexes
      ensures QueueOk(s', k)
    {
      JoinKeepsQueue(s, t, m, item, w, k);
    }
    assert MutexOk(s, m);
    InsertKeepsMembers(s.mutexes[m].waiting, InsertPoint(s.mutexes[m].waiting, item.value), item);
    forall u | u in s'.waiters
      ensures DonationOk(s', u)
    {
      assert u != t ==> DonationOk(s, u);
    }
  }

  lemma EnlistKeepsDonations(s: State, t: nat, m: nat)
    requires Donations(s) && Running(s, t) && m in s.mutexes && s.mutexes[m].holder.Some? && MutexOk(s, m)
    requires s.tasks[t].held == 0
    ensures Donations(Enlist(s, t, m))
  {
    var h := s.mutexes[m].holder.value;
    HolderCounts(s, h, m);
    InheritIsPlain(s, h, t, m);
    InheritKeepsDonations(s, h, t, m);
    NotListed(s, t);
    assert TaskOk(s, t);
    JoinKeepsDonations(Inherit(s, h, t), t, m, Item(t, s.tasks[t].rank), Waiter(m, InheritReports(s, h, t), Some(h)));
  }

  lemma UnlistKeepsDonations(s: State, t: nat)
    requires Donations(s) && Listed(s, t)
    ensures Donations(Unlist(s, t))
  {
    var s', m := Unlist(s, t), s.waiters[t].mutex;
    UnlistKeepsAccounts(s, t);
    assert MutexOk(s, m);
    RemoveKeepsMembers(s.mutexes[m].waiting, t);
    forall k | k in s.mutexes
      ensures QueueOk(s', k)
    {
      assert QueueOk(s, k);
    }
    forall u | u in s'.waiters
      ensures DonationOk(s', u)
    {
      assert DonationOk(s, u);
    }
  }

  lemma OnlyMutexHeld(s: State, h: nat, m: nat, k: nat)
    requires Accounts(s) && h in s.tasks && s.tasks[h].held == 1 && Holds(s, h, m) && Holds(s, h, k)
    ensures m == k
  {
    assert TaskOk(s, h);
    var others := HeldBy(s, h) - {m};
    assert |others| == 0;
    assert k == m || k in others;
  }

  /** The head of the waiting list is as urgent as anyone on it. */
  lemma HighestWaitingBounds(s: State, m: nat, u: nat)
    requires Donations(s) && m in s.mutexes && Has(s.mutexes[m].waiting, u) && u in s.tasks
    ensures s.tasks[u].priority <= HighestWaiting(s, m)
  {
    assert QueueOk(s, m) && TaskOk(s, u);
    var w := s.mutexes[m].waiting;
    var i := Find(w, u);
    assert w[0].value <= w[i].value;
  }

  /** The holder steps down after a timeout, but never below a donation that is still in force. */
  lemma StepDownKeepsDonation(s: State, m: nat, u: nat)
    requires Donations(s) && m in s.mutexes && MutexOk(s, m) && u in s.waiters
    ensures DonationOk(DisinheritAfterTimeout(s, m), u)
  {
    assert DonationOk(s, u);
    if s.mutexes[m].holder.Some? && s.waiters[u].donee.Some? {
      var h, k := s.mutexes[m].holder.value, s.waiters[u].mutex;
      HoldersAreNotQueued(s, h, m, k);
      if s.waiters[u].donee.value == h && s.tasks[h].held == 1 {
        OnlyMutexHeld(s, h, m, k);
        HighestWaitingBounds(s, m, u);
      }
    }
  }

  /** And it steps down all the way: with this mutex alone, to the greatest of its base priority and the
      priorities of those who still wait. */
  lemma StepsDownExactly(s: State, m: nat)
    requires Donations(s) && m in s.mutexes && s.mutexes[m].holder.Some?
    requires s.mutexes[m].holder.value in s.tasks && s.tasks[s.mutexes[m].holder.value].held == 1
    ensures var h, w := s.mutexes[m].holder.value, s.mutexes[m].waiting;
            var p := DisinheritAfterTimeout(s, m).tasks[h].priority;
            && s.tasks[h].base <= p && (forall u | Has(w, u) :: u in s.tasks && s.tasks[u].priority <= p)
            && (p == s.tasks[h].base || exists u :: Has(w, u) && u in s.tasks && s.tasks[u].priority == p)
  {
    var w := s.mutexes[m].waiting;
    assert QueueOk(s, m);
    forall u | Has(w, u)
      ensures u in s.tasks && s.tasks[u].priority <= HighestWaiting(s, m)
    {
      var i := Find(w, u);
      assert w[i].owner == u;
      HighestWaitingBounds(s, m, u);
    }
    if w != [] {
      assert Has(w, w[0].owner) && TaskOk(s, w[0].owner);
    }
  }

  lemma WithdrawKeepsDonations(s: State, t: nat)
    requires Donations(s) && t in s.waiters && !Listed(s, t) && WaiterOk(s, t) && MutexOk(s, s.waiters[t].mutex)
    ensures Donations(Withdraw(s, t))
  {
    var s', m := Withdraw(s, t), s.waiters[t].mutex;
    WithdrawKeepsAccounts(s, t);
    forall k | k in s.mutexes
      ensures QueueOk(s', k)
    {
      assert QueueOk(s, k);
      if s.mutexes[m].holder.Some? {
        HoldersAreNotQueued(s, s.mutexes[m].holder.value, m, k);
      }
    }
    forall u | u in s'.waiters
      ensures DonationOk(s', u)
    {
      assert DonationOk(s, u);
      StepDownKeepsDonation(s, m, u);
    }
  }

  lemma ReleaseKeepsDonation(s: State, t: nat, m: nat, u: nat)
    requires Donations(s) && t in s.tasks && Holds(s, t, m) && u in s.waiters
    ensures DonationOk(Release(s, t, m), u)
  {
    assert DonationOk(s, u);
    var w := s.waiters[u];
    if w.donee.Some? && w.mutex != m {
      HoldersAreNotQueued(s, t, m, w.mutex);
      if w.donee.value == t && s.tasks[t].held == 1 {
        OnlyMutexHeld(s, t, m, w.mutex);
      }
    }
  }

  lemma ReleaseKeepsDonations(s: State, t: nat, m: nat)
    requires Donations(s) && t in s.tasks && Holds(s, t, m) && s.mutexes[m].depth <= 1
    ensures Donations(Release(s, t, m))
  {
    var s' := Release(s, t, m);
    ReleaseKeepsAccounts(s, t, m);
    forall k | k in s.mutexes
      ensures QueueOk(s', k)
    {
      assert QueueOk(s, k);
      HoldersAreNotQueued(s, t, m, k);
    }
    forall u | u in s.waiters
      ensures DonationOk(s', u)
    {
      ReleaseKeepsDonation(s, t, m, u);
    }
  }

  /** Giving a mutex frees it and wakes the most urgent of those who wait for it, and nobody else. */
  lemma GiveWakesMostUrgent(s: State, t: nat, m: nat, u: nat)
    requires Donations(s) && t in s.tasks && Holds(s, t, m) && Has(s.mutexes[m].waiting, u)
    ensures var s', w := Release(s, t, m), s.mutexes[m].waiting;
            var first := w[0].owner;
            && s'.mutexes[m].holder.None? && first in s.tasks && u in s.tasks
            && !Has(s'.mutexes[m].waiting, first) && s.tasks[u].priority <= s.tasks[first].priority
            && (u != first ==> Has(s'.mutexes[m].waiting, u))
  {
    var w := s.mutexes[m].waiting;
    assert MutexOk(s, m) && QueueOk(s, m);
    TailKeepsMembers(w);
    var i := Find(w, u);
    assert w[i].owner == u;
    HighestWaitingBounds(s, m, u);
    assert TaskOk(s, w[0].owner);
  }

  lemma SetDepthKeepsDonations(s: State, m: nat, depth: nat, taken: nat, given: nat)
    requires Donations(s) && m in s.mutexes && s.mutexes[m].recursive && s.mutexes[m].holder.Some?
    requires depth > 0 && depth == s.mutexes[m].depth + taken - given
    ensures Donations(SetDepth(s, m, depth, taken, given))
  {
    var s' := SetDepth(s, m, depth, taken, given);
    SetDepthKeepsAccounts(s, m, depth, taken, given);
    forall k | k in s.mutexes
      ensures QueueOk(s', k)
    {
      assert QueueOk(s, k);
    }
    forall u | u in s.waiters
      ensures DonationOk(s', u)
    {
      assert DonationOk(s, u);
    }
  }

  /** A task that blocks on a mutex holds none itself. */
  predicate BlocksEmptyHanded(s: State, e: Event) {
    e.Block? && e.t in s.tasks ==> s.tasks[e.t].held == 0
  }

  lemma StepKeepsDonations(s: State, e: Event)
    requires Donations(s) && BlocksEmptyHanded(s, e)
    ensures Donations(Step(s, e))
  {
    if Enabled(s, e) {
      match e {
        case Take(t, m) =>
          assert MutexOk(s, m);
          AcquireKeepsDonations(s, t, m);
        case Block(t, m) =>
          assert MutexOk(s, m);
          EnlistKeepsDonations(s, t, m);
        case Cut(t) => UnlistKeepsDonations(s, t);
        case GiveUp(t) =>
          assert WaiterOk(s, t) && MutexOk(s, s.waiters[t].mutex);
          WithdrawKeepsDonations(s, t);
        case Give(t, m) =>
          assert MutexOk(s, m);
          ReleaseKeepsDonations(s, t, m);
        case TakeAgain(t, m) => SetDepthKeepsDonations(s, m, s.mutexes[m].depth + 1, 1, 0);
        case GiveNested(t, m) =>
          if s.mutexes[m].depth <= 1 {
            ReleaseKeepsDonations(s, t, m);
          } else {
            SetDepthKeepsDonations(s, m, s.mutexes[m].depth - 1, 0, 1);
          }
      }
    }
  }

  ghost predicate AlwaysEmptyHanded(s: State, es: seq<Event>)
    decreases |es|
  {
    es == [] || (BlocksEmptyHanded(s, es[0]) && AlwaysEmptyHanded(Step(s, es[0]), es[1..]))
  }

  lemma {:induction false} ExecKeepsDonations(s: State, es: seq<Event>)
    requires Donations(s) && AlwaysEmptyHanded(s, es)
    ensures Donations(Exec(s, es))
    decreases |es|
  {
    if es != [] {
      StepKeepsDonations(s, es[0]);
      ExecKeepsDonations(Step(s, es[0]), es[1..]);
    }
  }

  /** The steps that end a donation of `t` to `h` made for mutex `m`: `h` gives the mutex, the outermost level of it
      if it is recursive, or the wait of `t` ends by the tick. */
  predicate Ends(s: State, e: Event, t: nat, h: nat, m: nat) {
    e == Give(h, m) || (e == GiveNested(h, m) && m in s.mutexes && s.mutexes[m].depth <= 1) || e == Cut(t)
  }

  /** A task that blocks becomes a donor to the holder of the mutex. */
  lemma DonationStarts(s: State, t: nat, m: nat)
    requires Consistent(s) && Enabled(s, Block(t, m))
    ensures s.mutexes[m].holder.Some?
    ensures var s' := Step(s, Block(t, m));
            t in s'.waiters && s'.waiters[t].mutex == m && s'.waiters[t].donee == s.mutexes[m].holder
  {
    assert MutexOk(s, m);
  }

  lemma DonationEndsOnlyByGiving(s: State, e: Event, t: nat)
    requires Donations(s) && t in s.waiters && s.waiters[t].donee.Some?
    ensures !Ends(s, e, t, s.waiters[t].donee.value, s.waiters[t].mutex) ==>
              t in Step(s, e).waiters && Step(s, e).waiters[t] == s.waiters[t]
  {
    assert DonationOk(s, t);
  }

  ghost predicate Uninterrupted(s: State, es: seq<Event>, t: nat, h: nat, m: nat)
    decreases |es|
  {
    es == [] || (!Ends(s, es[0], t, h, m) && Uninterrupted(Step(s, es[0]), es[1..], t, h, m))
  }

  lemma {:induction false} DonationStays(s: State, es: seq<Event>, t: nat, h: nat, m: nat)
    requires Donations(s) && AlwaysEmptyHanded(s, es) && Uninterrupted(s, es, t, h, m)
    requires t in s.waiters && s.waiters[t].mutex == m && s.waiters[t].donee == Some(h)
    ensures var s' := Exec(s, es); t in s'.waiters && s'.waiters[t] == s.waiters[t]
    decreases |es|
  {
    if es != [] {
      StepKeepsDonations(s, es[0]);
      DonationEndsOnlyByGiving(s, es[0], t);
      DonationStays(Step(s, es[0]), es[1..], t, h, m);
    }
  }

  lemma AfterBlock(maxPriorities: nat, priorities: map<nat, nat>, recursive: map<nat, bool>, before: seq<Event>, t: nat, m: nat)
    requires forall u | u in priorities :: priorities[u] <= maxPriorities
    requires var s := Init(maxPriorities, priorities, recursive);
             AlwaysEmptyHanded(s, before) && Enabled(Exec(s, before), Block(t, m)) && BlocksEmptyHanded(Exec(s, before), Block(t, m))
    ensures var s0 := Exec(Init(maxPriorities, priorities, recursive), before);
            var s1 := Step(s0, Block(t, m));
            && Donations(s1) && s0.mutexes[m].holder.Some?
            && t in s1.waiters && s1.waiters[t].mutex == m && s1.waiters[t].donee == s0.mutexes[m].holder
  {
    var s := Init(maxPriorities, priorities, recursive);
    InitIsOk(maxPriorities, priorities, recursive);
    ExecKeepsDonations(s, before);
    DonationStarts(Exec(s, before), t, m);
    StepKeepsDonations(Exec(s, before), Block(t, m));
  }

  /** In every run in which tasks block empty-handed: from when `t` blocks on a mutex that `h` holds until `h` gives it
      or `t` leaves the waiting list by the tick, `h` holds it and runs at least at the priority of `t`, whatever other
      waiters time out and however many mutexes `h` holds. */
  lemma DonationLasts(maxPriorities: nat, priorities: map<nat, nat>, recursive: map<nat, bool>, before: seq<Event>, t: nat, m: nat,
                      after: seq<Event>)
    requires forall u | u in priorities :: priorities[u] <= maxPriorities
    requires var s := Init(maxPriorities, priorities, recursive);
             AlwaysEmptyHanded(s, before) && Enabled(Exec(s, before), Block(t, m)) && BlocksEmptyHanded(Exec(s, before), Block(t, m))
    requires var s0 := Exec(Init(maxPriorities, priorities, recursive), before);
             var s1 := Step(s0, Block(t, m));
             AlwaysEmptyHanded(s1, after) && (s0.mutexes[m].holder.Some? ==> Uninterrupted(s1, after, t, s0.mutexes[m].holder.value, m))
    ensures var s0 := Exec(Init(maxPriorities, priorities, recursive), before);
            var s := Exec(Step(s0, Block(t, m)), after);
            && s0.mutexes[m].holder.Some?
            && var h := s0.mutexes[m].holder.value;
            Holds(s, h, m) && t in s.tasks && h in s.tasks && s.tasks[t].priority <= s.tasks[h].priority
  {
    AfterBlock(maxPriorities, priorities, recursive, before, t, m);
    var s0 := Exec(Init(maxPriorities, priorities, recursive), before);
    var s1 := Step(s0, Block(t, m));
    DonationStays(s1, after, t, s0.mutexes[m].holder.value, m);
    ExecKeepsDonations(s1, after);
    assert DonationOk(Exec(s1, after), t);
  }

  // ---------------------------------------------------------------- a take that times out

  /** Only blocking again changes what a waiting task knows of its wait. */
  lemma WaitIsRemembered(s: State, e: Event, t: nat)
    requires !(e.Block? && e.t == t) && t in Step(s, e).waiters
    ensures t in s.waiters && Step(s, e).waiters[t].mutex == s.waiters[t].mutex
    ensures Step(s, e).waiters[t].inherited == s.waiters[t].inherited
  {
    if Consistent(s) && Enabled(s, e) {
      match e {
        case Block(u, m) =>
          assert MutexOk(s, m);
          InheritIs(s, s.mutexes[m].holder.value, u, m);
        case GiveUp(u) =>
          assert WaiterOk(s, u) && MutexOk(s, s.waiters[u].mutex);
          StepDownIs(s, s.waiters[u].mutex, s.waiters[u].mutex);
        case _ =>
      }
    }
  }

  /** `t` does not block again. */
  predicate NoBlockOf(es: seq<Event>, t: nat) {
    forall k | 0 <= k < |es| :: !(es[k].Block? && es[k].t == t)
  }

  lemma {:induction false} WaitStaysRemembered(s: State, es: seq<Event>, t: nat)
    requires NoBlockOf(es, t) && t in Exec(s, es).waiters
    ensures t in s.waiters && Exec(s, es).waiters[t].mutex == s.waiters[t].mutex
    ensures Exec(s, es).waiters[t].inherited == s.waiters[t].inherited
    decreases |es|
  {
    if es != [] {
      WaitStaysRemembered(Step(s, es[0]), es[1..], t);
      WaitIsRemembered(s, es[0], t);
    }
  }

  /** The priority of `h` is the greatest of its base and of the priorities of those on the list of `m`. */
  ghost predicate RunsAtGreatest(s: State, h: nat, m: nat)
    requires h in s.tasks && m in s.mutexes
  {
    var p, w := s.tasks[h].priority, s.mutexes[m].waiting;
    && s.tasks[h].base <= p && (forall u | Has(w, u) :: u in s.tasks && s.tasks[u].priority <= p)
    && (p == s.tasks[h].base || exists u :: Has(w, u) && u in s.tasks && s.tasks[u].priority == p)
  }

  lemma BlockRemembers(s: State, t: nat, m: nat)
    requires Accounts(s) && Enabled(s, Block(t, m))
    ensures s.mutexes[m].holder.Some? && s.mutexes[m].holder.value in s.tasks
    ensures var s', h := Step(s, Block(t, m)), s.mutexes[m].holder.value;
            && t in s'.waiters && s'.waiters[t].mutex == m
            && (s'.waiters[t].inherited <==> s.tasks[h].base < s.tasks[t].priority)
  {
    assert MutexOk(s, m);
    assert TaskOk(s, s.mutexes[m].holder.value);
  }

  lemma GiveUpStepsDown(s: State, t: nat)
    requires Donations(s) && Enabled(s, GiveUp(t))
    ensures s.waiters[t].mutex in s.mutexes
    ensures var s', o := Step(s, GiveUp(t)), s.mutexes[s.waiters[t].mutex].holder;
            && t !in s'.waiters && s'.mutexes == s.mutexes
            && (forall u | u in s.tasks && !(s.waiters[t].inherited && o == Some(u) && s.tasks[u].held == 1) ::
                  u in s'.tasks && s'.tasks[u] == s.tasks[u])
            && (s.waiters[t].inherited && o.Some? && o.value in s.tasks && s.tasks[o.value].held == 1 ==>
                  o.value in s'.tasks && RunsAtGreatest(s', o.value, s.waiters[t].mutex))
  {
    assert WaiterOk(s, t) && MutexOk(s, s.waiters[t].mutex);
    var m := s.waiters[t].mutex;
    if s.mutexes[m].holder.Some? {
      var h := s.mutexes[m].holder.value;
      HoldersAreNotQueued(s, h, m, m);
      if Listed(s, h) {
        HoldersAreNotQueued(s, h, m, s.waiters[h].mutex);
      }
      if s.tasks[h].held == 1 {
        StepsDownExactly(s, m);
      }
    }
  }

  /** In every run in which tasks block empty-handed: `t` blocks on `m`, for the last time before it times out and gives
      up. If its priority exceeded the base of the holder when it blocked, then giving up leaves whoever holds only `m`
      by then at the greatest of its own base and of the priorities of those who still wait for `m`, whatever other
      waiters have come and gone. If not, giving up changes no priority. */
  lemma TimeoutStepsDownIff(maxPriorities: nat, priorities: map<nat, nat>, recursive: map<nat, bool>, before: seq<Event>, t: nat, m: nat,
                            after: seq<Event>)
    requires forall u | u in priorities :: priorities[u] <= maxPriorities
    requires var s := Init(maxPriorities, priorities, recursive);
             AlwaysEmptyHanded(s, before) && Enabled(Exec(s, before), Block(t, m)) && BlocksEmptyHanded(Exec(s, before), Block(t, m))
    requires AlwaysEmptyHanded(Step(Exec(Init(maxPriorities, priorities, recursive), before), Block(t, m)), after)
    requires NoBlockOf(after, t)
    ensures var s0 := Exec(Init(maxPriorities, priorities, recursive), before);
            var s2 := Exec(Step(s0, Block(t, m)), after);
            var s3 := Step(s2, GiveUp(t));
            && s0.mutexes[m].holder.Some? && s0.mutexes[m].holder.value in s0.tasks
            && (Enabled(s2, GiveUp(t)) && s0.tasks[s0.mutexes[m].holder.value].base < s0.tasks[t].priority ==>
                  m in s3.mutexes &&
                  forall h | h in s2.tasks && Holds(s2, h, m) && s2.tasks[h].held == 1 :: h in s3.tasks && RunsAtGreatest(s3, h, m))
            && (Enabled(s2, GiveUp(t)) && s0.tasks[s0.mutexes[m].holder.value].base >= s0.tasks[t].priority ==>
                  forall u | u in s2.tasks :: u in s3.tasks && s3.tasks[u] == s2.tasks[u])
  {
    AfterBlock(maxPriorities, priorities, recursive, before, t, m);
    InitIsOk(maxPriorities, priorities, recursive);
    ExecKeepsDonations(Init(maxPriorities, priorities, recursive), before);
    var s0 := Exec(Init(maxPriorities, priorities, recursive), before);
    var s1 := Step(s0, Block(t, m));
    BlockRemembers(s0, t, m);
    ExecKeepsDonations(s1, after);
    if Enabled(Exec(s1, after), GiveUp(t)) {
      WaitStaysRemembered(s1, after, t);
      GiveUpStepsDown(Exec(s1, after), t);
    }
  }

  // ---------------------------------------------------------------- chains

  /** Every item on the list of `m` has the value of its owner's priority; the list itself may be out of order. */
  ghost predicate RankedAt(s: State, m: nat)
    requires m in s.mutexes
  {
    var w := s.mutexes[m].waiting;
    forall i {:trigger w[i]} | 0 <= i < |w| :: w[i].owner in s.tasks && w[i].value == Rank(s, w[i].owner)
  }

  /** A donation in force, whether or not it is honoured. */
  ghost predicate LinkOk(s: State, t: nat)
    requires t in s.waiters
  {
    var w := s.waiters[t];
    w.donee.Some? ==> Holds(s, w.donee.value, w.mutex) && Has(s.mutexes[w.mutex].waiting, t) && t in s.tasks && w.donee.value in s.tasks
  }

  /** What every step keeps, also if tasks block while they hold mutexes. */
  ghost predicate Chain(s: State) {
    && Accounts(s)
    && (forall m {:trigger RankedAt(s, m)} | m in s.mutexes :: RankedAt(s, m))
    && (forall t {:trigger LinkOk(s, t)} | t in s.waiters :: LinkOk(s, t))
  }

  ghost predicate HonouredFor(s: State, t: nat)
    requires t in s.waiters
  {
    var d := s.waiters[t].donee;
    d.Some? && t in s.tasks && d.value in s.tasks ==> s.tasks[t].priority <= s.tasks[d.value].priority
  }

  ghost predicate Honoured(s: State) {
    forall t {:trigger HonouredFor(s, t)} | t in s.waiters :: HonouredFor(s, t)
  }

  lemma SetPriorityKeepsRanks(s: State, h: nat, p: nat, k: nat)
    requires Chain(s) && h in s.tasks && k in s.mutexes
    ensures k in SetPriority(s, h, p).mutexes && RankedAt(SetPriority(s, h, p), k)
  {
    assert RankedAt(s, k) && MutexOk(s, k);
    var s', w := SetPriority(s, h, p), s.mutexes[k].waiting;
    var w' := s'.mutexes[k].waiting;
    forall i | 0 <= i < |w'|
      ensures w'[i].owner in s'.tasks && w'[i].value == Rank(s', w'[i].owner)
    {
      assert Has(w, w[i].owner);
    }
  }

  lemma SetPriorityKeepsChain(s: State, h: nat, p: nat)
    requires Chain(s) && h in s.tasks && s.tasks[h].base <= p <= s.maxPriorities && s.tasks[h].held > 0
    ensures Chain(SetPriority(s, h, p))
  {
    var s' := SetPriority(s, h, p);
    SetPriorityKeepsAccounts(s, h, p);
    SetPriorityIs(s, h, p);
    forall k | k in s'.mutexes
      ensures RankedAt(s', k)
    {
      SetPriorityKeepsRanks(s, h, p, k);
    }
    forall t | t in s'.waiters
      ensures LinkOk(s', t)
    {
      assert LinkOk(s, t) && WaiterOk(s, t);
      SetPriorityMembers(s, h, p, s.waiters[t].mutex);
    }
  }

  lemma InheritKeepsChain(s: State, h: nat, t: nat, m: nat)
    requires Chain(s) && h in s.tasks && t in s.tasks && Holds(s, h, m)
    ensures Chain(Inherit(s, h, t))
  {
    HolderCounts(s, h, m);
    assert TaskOk(s, t) && TaskOk(s, h);
    if s.tasks[h].priority < s.tasks[t].priority {
      SetPriorityKeepsChain(s, h, s.tasks[t].priority);
    }
  }

  lemma JoinKeepsRanks(s: State, t: nat, m: nat, item: Item, w: Waiter, k: nat)
    requires Chain(s) && m in s.mutexes && k in s.mutexes && t in s.tasks && item == Item(t, Rank(s, t))
    ensures RankedAt(Join(s, t, m, item, w), k)
  {
    assert RankedAt(s, k);
    if k == m {
      var v := s.mutexes[m].waiting;
      var p, r := InsertPoint(v, item.value), InsertSorted(v, item);
      forall i | 0 <= i < |r|
        ensures r[i].owner in s.tasks && r[i].value == Rank(s, r[i].owner)
      {
        assert r[i] == if i < p then v[i] else if i == p then item else v[i - 1];
      }
    }
  }

  lemma JoinKeepsChain(s: State, t: nat, m: nat, item: Item, w: Waiter)
    requires Chain(s) && m in s.mutexes && t in s.tasks && item == Item(t, Rank(s, t))
    requires forall j | j in s.mutexes :: !Has(s.mutexes[j].waiting, t)
    requires w.mutex == m && w.donee.Some? && Holds(s, w.donee.value, m) && w.donee.value in s.tasks
    ensures Chain(Join(s, t, m, item, w))
  {
    var s' := Join(s, t, m, item, w);
    JoinKeepsAccounts(s, t, m, item, w);
    forall k | k in s'.mutexes
      ensures RankedAt(s', k)
    {
      JoinKeepsRanks(s, t, m, item, w, k);
    }
    assert MutexOk(s, m);
    InsertKeepsMembers(s.mutexes[m].waiting, InsertPoint(s.mutexes[m].waiting, item.value), item);
    forall u | u in s'.waiters
      ensures LinkOk(s', u)
    {
      assert u != t ==> LinkOk(s, u);
    }
  }

  lemma InheritPriorities(s: State, h: nat, t: nat)
    requires h in s.tasks && t in s.tasks
    ensures var s' := Inherit(s, h, t);
            && s'.tasks.Keys == s.tasks.Keys && s'.waiters == s.waiters
            && (forall u {:trigger s'.tasks[u]} | u in s.tasks && u != h :: s'.tasks[u] == s.tasks[u])
            && s'.tasks[h].priority == (if s.tasks[h].priority < s.tasks[t].priority then s.tasks[t].priority else s.tasks[h].priority)
            && s'.maxPriorities == s.maxPriorities && Rank(s', t) == Rank(s, t)
  {
    SetPriorityIs(s, h, s.tasks[t].priority);
  }

  lemma EnlistKeepsChain(s: State, t: nat, m: nat)
    requires Chain(s) && Running(s, t) && m in s.mutexes && s.mutexes[m].holder.Some? && MutexOk(s, m)
    ensures Chain(Enlist(s, t, m))
  {
    var h := s.mutexes[m].holder.value;
    HolderCounts(s, h, m);
    InheritKeepsChain(s, h, t, m);
    InheritIs(s, h, t, m);
    InheritPriorities(s, h, t);
    StillNotListed(s, h, t);
    assert TaskOk(s, t);
    JoinKeepsChain(Inherit(s, h, t), t, m, Item(t, s.tasks[t].rank), Waiter(m, InheritReports(s, h, t), Some(h)));
  }

  lemma AcquireKeepsChain(s: State, t: nat, m: nat)
    requires Chain(s) && Running(s, t) && m in s.mutexes && s.mutexes[m].holder.None?
    ensures Chain(Acquire(s, t, m))
  {
    var s' := Acquire(s, t, m);
    AcquireKeepsAccounts(s, t, m);
    forall k | k in s'.mutexes
      ensures RankedAt(s', k)
    {
      assert RankedAt(s, k);
    }
    forall u | u in s'.waiters
      ensures LinkOk(s', u)
    {
      assert LinkOk(s, u);
    }
  }

  lemma UnlistKeepsChain(s: State, t: nat)
    requires Chain(s) && Listed(s, t)
    ensures Chain(Unlist(s, t))
  {
    var s', m := Unlist(s, t), s.waiters[t].mutex;
    UnlistKeepsAccounts(s, t);
    assert MutexOk(s, m);
    RemoveKeepsMembers(s.mutexes[m].waiting, t);
    forall k | k in s'.mutexes
      ensures RankedAt(s', k)
    {
      assert RankedAt(s, k);
    }
    forall u | u in s'.waiters
      ensures LinkOk(s', u)
    {
      assert LinkOk(s, u);
    }
  }

  lemma StepDownKeepsChain(s: State, m: nat)
    requires Chain(s) && m in s.mutexes && (s.mutexes[m].holder.Some? ==> s.mutexes[m].holder.value in s.tasks)
    ensures Chain(DisinheritAfterTimeout(s, m))
  {
    if s.mutexes[m].holder.Some? {
      var h := s.mutexes[m].holder.value;
      assert TaskOk(s, h);
      if s.tasks[h].held == 1 {
        SetPriorityKeepsChain(s, h, StepDownTo(s, m));
      }
    }
  }

  lemma LeaveKeepsChain(s: State, t: nat)
    requires Chain(s) && forall k | k in s.mutexes :: !Has(s.mutexes[k].waiting, t)
    ensures Chain(s.(waiters := s.waiters - {t}))
  {
    var s' := s.(waiters := s.waiters - {t});
    LeaveKeepsAccounts(s, t);
    forall k | k in s'.mutexes
      ensures RankedAt(s', k)
    {
      assert RankedAt(s, k);
    }
    forall u | u in s'.waiters
      ensures LinkOk(s', u)
    {
      assert LinkOk(s, u);
    }
  }

  lemma WithdrawKeepsChain(s: State, t: nat)
    requires Chain(s) && t in s.waiters && !Listed(s, t) && WaiterOk(s, t) && MutexOk(s, s.waiters[t].mutex)
    ensures Chain(Withdraw(s, t))
  {
    var m := s.waiters[t].mutex;
    NotListed(s, t);
    StepDownIs(s, m, m);
    var s1 := if s.waiters[t].inherited then DisinheritAfterTimeout(s, m) else s;
    if s.waiters[t].inherited {
      StepDownKeepsChain(s, m);
    }
    forall k | k in s1.mutexes
      ensures !Has(s1.mutexes[k].waiting, t)
    {
      StepDownIs(s, m, k);
    }
    LeaveKeepsChain(s1, t);
  }

  lemma ReleaseKeepsChain(s: State, t: nat, m: nat)
    requires Chain(s) && Running(s, t) && Holds(s, t, m) && s.mutexes[m].depth <= 1
    ensures Chain(Release(s, t, m))
  {
    var s', w := Release(s, t, m), s.mutexes[m].waiting;
    ReleaseKeepsAccounts(s, t, m);
    NotListed(s, t);
    forall k | k in s'.mutexes
      ensures RankedAt(s', k)
    {
      assert RankedAt(s, k);
      assert forall i | 0 <= i < |s.mutexes[k].waiting| :: Has(s.mutexes[k].waiting, s.mutexes[k].waiting[i].owner);
    }
    forall u | u in s'.waiters
      ensures LinkOk(s', u)
    {
      assert LinkOk(s, u);
    }
  }

  lemma SetDepthKeepsChain(s: State, m: nat, depth: nat, taken: nat, given: nat)
    requires Chain(s) && m in s.mutexes && s.mutexes[m].recursive && s.mutexes[m].holder.Some?
    requires depth > 0 && depth == s.mutexes[m].depth + taken - given
    ensures Chain(SetDepth(s, m, depth, taken, given))
  {
    var s' := SetDepth(s, m, depth, taken, given);
    SetDepthKeepsAccounts(s, m, depth, taken, given);
    forall k | k in s'.mutexes
      ensures RankedAt(s', k)
    {
      assert RankedAt(s, k);
    }
    forall u | u in s'.waiters
      ensures LinkOk(s', u)
    {
      assert LinkOk(s, u);
    }
  }

  lemma StepKeepsChain(s: State, e: Event)
    requires Chain(s)
    ensures Chain(Step(s, e))
  {
    if Enabled(s, e) {
      match e {
        case Take(t, m) =>
          assert MutexOk(s, m);
          AcquireKeepsChain(s, t, m);
        case Block(t, m) =>
          assert MutexOk(s, m);
          EnlistKeepsChain(s, t, m);
        case Cut(t) => UnlistKeepsChain(s, t);
        case GiveUp(t) =>
          assert WaiterOk(s, t) && MutexOk(s, s.waiters[t].mutex);
          WithdrawKeepsChain(s, t);
        case Give(t, m) =>
          assert MutexOk(s, m);
          ReleaseKeepsChain(s, t, m);
        case TakeAgain(t, m) => SetDepthKeepsChain(s, m, s.mutexes[m].depth + 1, 1, 0);
        case GiveNested(t, m) =>
          if s.mutexes[m].depth <= 1 {
            ReleaseKeepsChain(s, t, m);
          } else {
            SetDepthKeepsChain(s, m, s.mutexes[m].depth - 1, 0, 1);
          }
      }
    }
  }

  /** `t` is a donor to somebody else whose priority is below `p`. */
  predicate OutrunsDonee(s: State, t: nat, p: nat) {
    && t in s.waiters && s.waiters[t].donee.Some? && s.waiters[t].donee.value != t
    && s.waiters[t].donee.value in s.tasks && s.tasks[s.waiters[t].donee.value].priority < p
  }

  /** The condition, to be checked before the step, under which it leaves every donation honoured. A block: the
      holder to be raised is not itself a donor to somebody less urgent than the task that blocks. A timeout after
      which the holder steps down: nobody who donates to it is more urgent than what it steps down to, the head of
      the list or its base; and if that is above its own donee, the holder is not a donor. Nothing else matters. */
  ghost predicate Serves(s: State, e: Event)
    requires Consistent(s) && Enabled(s, e)
  {
    match e
    case Block(t, m) =>
      assert MutexOk(s, m);
      !OutrunsDonee(s, s.mutexes[m].holder.value, s.tasks[t].priority)
    case GiveUp(t) =>
      assert WaiterOk(s, t) && MutexOk(s, s.waiters[t].mutex);
      StepsDown(s, t) ==> StepDownServes(s, s.waiters[t].mutex)
    case _ => true
  }

  predicate StepsDown(s: State, t: nat)
    requires t in s.waiters && s.waiters[t].mutex in s.mutexes
  {
    var o := s.mutexes[s.waiters[t].mutex].holder;
    s.waiters[t].inherited && o.Some? && o.value in s.tasks && s.tasks[o.value].held == 1
  }

  ghost predicate StepDownServes(s: State, m: nat)
    requires m in s.mutexes && s.mutexes[m].holder.Some? && s.mutexes[m].holder.value in s.tasks
  {
    var h := s.mutexes[m].holder.value;
    && (forall u | u in s.waiters && u in s.tasks && u != h && s.waiters[u].donee == Some(h) :: s.tasks[u].priority <= StepDownTo(s, m))
    && !OutrunsDonee(s, h, StepDownTo(s, m))
  }

  /** One task's priority becomes `p`; who is a donor to whom does not change. */
  ghost predicate Reset(s: State, s': State, h: nat, p: nat) {
    && h in s.tasks && s'.waiters == s.waiters && s'.tasks.Keys == s.tasks.Keys && s'.tasks[h].priority == p
    && forall u {:trigger s'.tasks[u]} | u in s.tasks && u != h :: s'.tasks[u] == s.tasks[u]
  }

  lemma ResetHonoursIff(s: State, s': State, h: nat, p: nat)
    requires Chain(s) && Honoured(s) && Reset(s, s', h, p)
    ensures Honoured(s') <==>
            && (forall u | u in s.waiters && u in s.tasks && u != h && s.waiters[u].donee == Some(h) :: s.tasks[u].priority <= p)
            && !OutrunsDonee(s, h, p)
  {
    forall u | u in s.waiters
      ensures HonouredFor(s, u) && LinkOk(s, u)
    {
    }
    if Honoured(s') {
      forall u | u in s.waiters && u in s.tasks && u != h && s.waiters[u].donee == Some(h)
        ensures s.tasks[u].priority <= p
      {
        assert HonouredFor(s', u);
      }
      assert h in s.waiters ==> HonouredFor(s', h);
    }
  }

  /** Leaving the waiters, or joining them with an honoured donation, changes nothing for the others. */
  lemma LeaveHonours(s: State, t: nat)
    requires t in s.waiters ==> s.waiters[t].donee.None?
    ensures Honoured(s.(waiters := s.waiters - {t})) <==> Honoured(s)
  {
    var s' := s.(waiters := s.waiters - {t});
    forall u | u in s'.waiters
      ensures HonouredFor(s', u) <==> HonouredFor(s, u)
    {
    }
    if Honoured(s') {
      forall u | u in s.waiters
        ensures HonouredFor(s, u)
      {
        assert u != t ==> HonouredFor(s', u);
      }
    }
  }

  lemma JoinHonours(s: State, t: nat, m: nat, item: Item, w: Waiter)
    requires m in s.mutexes && (t in s.waiters ==> s.waiters[t].donee.None?)
    requires w.donee.Some? && t in s.tasks && w.donee.value in s.tasks && s.tasks[t].priority <= s.tasks[w.donee.value].priority
    ensures Honoured(Join(s, t, m, item, w)) <==> Honoured(s)
  {
    var s' := Join(s, t, m, item, w);
    assert HonouredFor(s', t);
    forall u | u in s.waiters && u != t
      ensures HonouredFor(s', u) <==> HonouredFor(s, u)
    {
    }
    if Honoured(s') {
      forall u | u in s.waiters
        ensures HonouredFor(s, u)
      {
        assert HonouredFor(s', u);
      }
    }
  }

  lemma RunningIsNoDonor(s: State, t: nat)
    requires Chain(s) && !Listed(s, t)
    ensures t in s.waiters ==> s.waiters[t].donee.None?
  {
    assert t in s.waiters ==> LinkOk(s, t);
  }

  lemma InheritHonoursIff(s: State, h: nat, t: nat)
    requires Chain(s) && Honoured(s) && h in s.tasks && t in s.tasks
    ensures Honoured(Inherit(s, h, t)) <==> !OutrunsDonee(s, h, s.tasks[t].priority)
  {
    forall u | u in s.waiters
      ensures HonouredFor(s, u) && LinkOk(s, u)
    {
    }
    if s.tasks[h].priority < s.tasks[t].priority {
      SetPriorityIs(s, h, s.tasks[t].priority);
      ResetHonoursIff(s, Inherit(s, h, t), h, s.tasks[t].priority);
    }
  }

  lemma BlockHonoursIff(s: State, t: nat, m: nat)
    requires Chain(s) && Honoured(s) && Running(s, t) && m in s.mutexes && s.mutexes[m].holder.Some? && MutexOk(s, m)
    ensures Honoured(Enlist(s, t, m)) <==> !OutrunsDonee(s, s.mutexes[m].holder.value, s.tasks[t].priority)
  {
    var h := s.mutexes[m].holder.value;
    InheritHonoursIff(s, h, t);
    InheritPriorities(s, h, t);
    InheritIs(s, h, t, m);
    RunningIsNoDonor(s, t);
    JoinHonours(Inherit(s, h, t), t, m, Item(t, s.tasks[t].rank), Waiter(m, InheritReports(s, h, t), Some(h)));
  }

  lemma StepDownHonoursIff(s: State, m: nat)
    requires Chain(s) && Honoured(s) && m in s.mutexes && s.mutexes[m].holder.Some? && s.mutexes[m].holder.value in s.tasks
    requires s.tasks[s.mutexes[m].holder.value].held == 1
    ensures Honoured(DisinheritAfterTimeout(s, m)) <==> StepDownServes(s, m)
  {
    var h := s.mutexes[m].holder.value;
    SetPriorityIs(s, h, StepDownTo(s, m));
    if s.tasks[h].priority != StepDownTo(s, m) {
      ResetHonoursIff(s, DisinheritAfterTimeout(s, m), h, StepDownTo(s, m));
    } else {
      assert Reset(s, s, h, s.tasks[h].priority);
      ResetHonoursIff(s, s, h, s.tasks[h].priority);
    }
  }

  lemma GiveUpHonoursIff(s: State, t: nat)
    requires Chain(s) && Honoured(s) && t in s.waiters && !Listed(s, t) && WaiterOk(s, t) && MutexOk(s, s.waiters[t].mutex)
    ensures Honoured(Withdraw(s, t)) <==> (StepsDown(s, t) ==> StepDownServes(s, s.waiters[t].mutex))
  {
    var m := s.waiters[t].mutex;
    RunningIsNoDonor(s, t);
    StepDownIs(s, m, m);
    if StepsDown(s, t) {
      StepDownHonoursIff(s, m);
    }
    LeaveHonours(if s.waiters[t].inherited then DisinheritAfterTimeout(s, m) else s, t);
  }

  lemma ReleaseHonours(s: State, t: nat, m: nat)
    requires Chain(s) && Honoured(s) && Running(s, t) && Holds(s, t, m)
    ensures Honoured(Release(s, t, m))
  {
    var s' := Release(s, t, m);
    RunningIsNoDonor(s, t);
    HolderCounts(s, t, m);
    forall u | u in s'.waiters
      ensures HonouredFor(s', u)
    {
      assert HonouredFor(s, u) && LinkOk(s, u);
      var w := s.waiters[u];
      if w.donee == Some(t) && w.mutex != m && s.tasks[t].held == 1 {
        OnlyMutexHeld(s, t, m, w.mutex);
      }
    }
  }

  lemma OthersHonour(s: State, e: Event)
    requires Chain(s) && Honoured(s) && Enabled(s, e) && !e.Block? && !e.GiveUp?
    ensures Honoured(Step(s, e))
  {
    forall u | u in s.waiters
      ensures HonouredFor(s, u) && LinkOk(s, u)
    {
    }
    match e {
      case Give(t, m) => ReleaseHonours(s, t, m);
      case GiveNested(t, m) => ReleaseHonours(s, t, m);
      case _ =>
    }
  }

  /** With every donation honoured, also those of tasks that hold mutexes while they wait, a step leaves them all
      honoured exactly if it serves. */
  lemma DonationsKeptIff(s: State, e: Event)
    requires Chain(s) && Honoured(s) && Enabled(s, e)
    ensures Honoured(Step(s, e)) <==> Serves(s, e)
  {
    match e {
      case Block(t, m) =>
        assert MutexOk(s, m);
        BlockHonoursIff(s, t, m);
      case GiveUp(t) =>
        assert WaiterOk(s, t) && MutexOk(s, s.waiters[t].mutex);
        GiveUpHonoursIff(s, t);
      case _ => OthersHonour(s, e);
    }
  }

  ghost predicate AlwaysHonoured(s: State, es: seq<Event>)
    decreases |es|
  {
    Honoured(s) && (es == [] || AlwaysHonoured(Step(s, es[0]), es[1..]))
  }

  ghost predicate AlwaysServes(s: State, es: seq<Event>)
    requires Chain(s)
    decreases |es|
  {
    es == [] ||
    (StepKeepsChain(s, es[0]);
     (Enabled(s, es[0]) ==> Serves(s, es[0])) && AlwaysServes(Step(s, es[0]), es[1..]))
  }

  /** Over whole runs of any nesting: every donation is honoured all the way exactly if every step serves. */
  lemma {:induction false} DonationsLastIff(s: State, es: seq<Event>)
    requires Chain(s) && Honoured(s)
    ensures AlwaysHonoured(s, es) <==> AlwaysServes(s, es)
    decreases |es|
  {
    if es != [] {
      StepKeepsChain(s, es[0]);
      if Enabled(s, es[0]) {
        DonationsKeptIff(s, es[0]);
      }
      if Honoured(Step(s, es[0])) {
        DonationsLastIff(Step(s, es[0]), es[1..]);
      }
    }
  }

  lemma InitIsChain(maxPriorities: nat, priorities: map<nat, nat>, recursive: map<nat, bool>)
    requires forall t | t in priorities :: priorities[t] <= maxPriorities
    ensures Chain(Init(maxPriorities, priorities, recursive)) && Honoured(Init(maxPriorities, priorities, recursive))
  {
    InitIsOk(maxPriorities, priorities, recursive);
  }

  /** Task 2 blocks on mutex 0, which task 1 holds, while it holds mutex 1; task 3 then blocks on mutex 1 and raises
      task 2; and task 1, to whom task 2 is a donor, is left behind. */
  lemma ChainsAreNotServed()
    ensures var s := Init(4, map[1 := 1, 2 := 2, 3 := 3], map[0 := false, 1 := false]);
            !Honoured(Exec(s, [Take(1, 0), Take(2, 1), Block(2, 0), Block(3, 1)]))
  {
    var s0 := Init(4, map[1 := 1, 2 := 2, 3 := 3], map[0 := false, 1 := false]);
    InitIsChain(4, map[1 := 1, 2 := 2, 3 := 3], map[0 := false, 1 := false]);
    var s1 := Step(s0, Take(1, 0));
    StepKeepsChain(s0, Take(1, 0));
    OthersHonour(s0, Take(1, 0));
    var s2 := Step(s1, Take(2, 1));
    StepKeepsChain(s1, Take(2, 1));
    OthersHonour(s1, Take(2, 1));
    SecondBlockOutruns(s2, 1, 2, 3, 0, 1);
    ExecFour(s0, Take(1, 0), Take(2, 1), Block(2, 0), Block(3, 1));
  }

  lemma SecondBlockOutruns(s: State, h: nat, w: nat, x: nat, m: nat, k: nat)
    requires Chain(s) && Honoured(s) && m != k && h != w && x != w && x != h
    requires h in s.tasks && w in s.tasks && x in s.tasks && Holds(s, h, m) && Holds(s, w, k)
    requires s.tasks[h].priority < s.tasks[x].priority && s.tasks[w].priority < s.tasks[x].priority
    requires h !in s.waiters && w !in s.waiters && x !in s.waiters
    requires !s.mutexes[m].recursive && !s.mutexes[k].recursive
    ensures !Honoured(Step(Step(s, Block(w, m)), Block(x, k)))
  {
    assert MutexOk(s, m) && MutexOk(s, k);
    StepKeepsChain(s, Block(w, m));
    DonationsKeptIff(s, Block(w, m));
    var s1 := Step(s, Block(w, m));
    InheritPriorities(s, h, w);
    InheritIs(s, h, w, k);
    InheritIs(s, h, w, m);
    assert MutexOk(s1, k);
    DonationsKeptIff(s1, Block(x, k));
  }

  lemma ExecFour(s: State, a: Event, b: Event, c: Event, d: Event)
    ensures Exec(s, [a, b, c, d]) == Step(Step(Step(Step(s, a), b), c), d)
  {
    var s1 := Step(s, a);
    var s2 := Step(s1, b);
    assert [a, b, c, d][1..] == [b, c, d] && [b, c, d][1..] == [c, d] && [c, d][1..] == [d] && [d][1..] == [];
    assert Exec(Step(s2, c), [d]) == Step(Step(s2, c), d);
    assert Exec(s2, [c, d]) == Exec(Step(s2, c), [d]);
    assert Exec(s1, [b, c, d]) == Exec(s2, [c, d]);
  }

  // ---------------------------------------------------------------- vTaskPrioritySet

  /** The highest priority that there is, for whatever is above it. */
  function Clamped(maxPriorities: nat, p: nat): nat {
    if p < maxPriorities then p else if maxPriorities > 0 then maxPriorities - 1 else 0
  }

  /** A task that has inherited keeps its priority; its item takes the value of the new base all the same. */
  function PrioritySet(s: State, t: nat, p: nat): State
    requires t in s.tasks
  {
    var c, q := s.tasks[t], Clamped(s.maxPriorities, p);
    var rank := RankOf(s.maxPriorities, q);
    if c.base == q then s else
      Requeued(s, t, rank).(tasks := s.tasks[t := Tcb(if c.base == c.priority then q else c.priority, q, c.held, rank)])
  }

  /** A change of base moves nobody and changes no owner. */
  lemma PrioritySetIs(s: State, t: nat, p: nat)
    requires t in s.tasks
    ensures var s' := PrioritySet(s, t, p);
            && s'.maxPriorities == s.maxPriorities && s'.waiters == s.waiters && s'.mutexes.Keys == s.mutexes.Keys
            && s'.tasks.Keys == s.tasks.Keys && s'.tasks[t].held == s.tasks[t].held
            && (forall u {:trigger s'.tasks[u]} | u in s.tasks && u != t :: s'.tasks[u] == s.tasks[u])
            && (forall k {:trigger s'.mutexes[k]} | k in s.mutexes ::
                  s'.mutexes[k] == s.mutexes[k].(waiting := s'.mutexes[k].waiting))
  {
  }

  lemma PrioritySetMembers(s: State, t: nat, p: nat, k: nat)
    requires t in s.tasks && k in s.mutexes && MutexOk(s, k)
    ensures var s' := PrioritySet(s, t, p);
            && k in s'.mutexes && MutexOk(s', k)
            && (forall u {:trigger Has(s'.mutexes[k].waiting, u)} :: Has(s'.mutexes[k].waiting, u) <==> Has(s.mutexes[k].waiting, u))
  {
    PrioritySetIs(s, t, p);
    RevaluedMembers(s.mutexes[k].waiting, t, RankOf(s.maxPriorities, Clamped(s.maxPriorities, p)));
  }

  lemma PrioritySetRanks(s: State, t: nat, p: nat, k: nat)
    requires Chain(s) && t in s.tasks && k in s.mutexes
    requires PrioritySet(s, t, p).tasks[t].rank == Rank(PrioritySet(s, t, p), t)
    ensures k in PrioritySet(s, t, p).mutexes && RankedAt(PrioritySet(s, t, p), k)
  {
    assert RankedAt(s, k) && MutexOk(s, k);
    PrioritySetIs(s, t, p);
    var s', w := PrioritySet(s, t, p), s.mutexes[k].waiting;
    var w' := s'.mutexes[k].waiting;
    forall i | 0 <= i < |w'|
      ensures w'[i].owner in s'.tasks && w'[i].value == Rank(s', w'[i].owner)
    {
      assert Has(w, w[i].owner);
    }
  }

  /** The new base leaves every item at its owner's priority. */
  predicate Plain(s: State, t: nat, p: nat)
    requires t in s.tasks
  {
    var c, q := s.tasks[t], Clamped(s.maxPriorities, p);
    c.priority == c.base || q == c.base || q == c.priority
  }

  lemma PrioritySetKeepsTasks(s: State, t: nat, p: nat, u: nat)
    requires Chain(s) && t in s.tasks && u in s.tasks && Plain(s, t, p)
    ensures u in PrioritySet(s, t, p).tasks && TaskOk(PrioritySet(s, t, p), u)
  {
    PrioritySetIs(s, t, p);
    assert TaskOk(s, u) && TaskOk(s, t);
    assert HeldBy(PrioritySet(s, t, p), u) == HeldBy(s, u);
  }

  lemma PrioritySetKeepsChain(s: State, t: nat, p: nat)
    requires Chain(s) && t in s.tasks && Plain(s, t, p)
    ensures Chain(PrioritySet(s, t, p))
  {
    var s' := PrioritySet(s, t, p);
    PrioritySetIs(s, t, p);
    PrioritySetKeepsTasks(s, t, p, t);
    forall k | k in s'.mutexes
      ensures MutexOk(s', k) && RankedAt(s', k)
    {
      assert MutexOk(s, k);
      PrioritySetMembers(s, t, p, k);
      PrioritySetRanks(s, t, p, k);
    }
    forall u | u in s'.tasks
      ensures TaskOk(s', u)
    {
      PrioritySetKeepsTasks(s, t, p, u);
    }
    forall u | u in s'.waiters
      ensures WaiterOk(s', u) && LinkOk(s', u)
    {
      assert WaiterOk(s, u) && LinkOk(s, u) && MutexOk(s, s.waiters[u].mutex);
      PrioritySetMembers(s, t, p, s.waiters[u].mutex);
    }
  }

  /** Otherwise the item no longer stands for the priority that the task has. */
  lemma PrioritySetKeepsChainIff(s: State, t: nat, p: nat)
    requires Chain(s) && t in s.tasks
    ensures Chain(PrioritySet(s, t, p)) <==> Plain(s, t, p)
  {
    if Plain(s, t, p) {
      PrioritySetKeepsChain(s, t, p);
    } else {
      assert TaskOk(s, t) && !TaskOk(PrioritySet(s, t, p), t);
    }
  }

  /** The accounts, items and donors are right, and every donation is honoured. */
  ghost predicate Sound(s: State) {
    Chain(s) && Honoured(s)
  }

  /** The condition, to be checked before the call. A task that has inherited: its base changes to the priority it has
      inherited. Any other task: nobody who donates to it is more urgent than its new priority, nor is that above
      its own donee. */
  ghost predicate SetServes(s: State, t: nat, p: nat)
    requires t in s.tasks
  {
    var c, q := s.tasks[t], Clamped(s.maxPriorities, p);
    q == c.base ||
    if c.priority != c.base then q == c.priority else
      && (forall u | u in s.waiters && u in s.tasks && u != t && s.waiters[u].donee == Some(t) :: s.tasks[u].priority <= q)
      && !OutrunsDonee(s, t, q)
  }

  lemma PrioritySetKeepsIff(s: State, t: nat, p: nat)
    requires Sound(s) && t in s.tasks
    ensures Sound(PrioritySet(s, t, p)) <==> SetServes(s, t, p)
  {
    var s', c, q := PrioritySet(s, t, p), s.tasks[t], Clamped(s.maxPriorities, p);
    PrioritySetIs(s, t, p);
    PrioritySetKeepsChainIff(s, t, p);
    if c.priority == c.base && q != c.base {
      ResetHonoursIff(s, s', t, q);
    } else if c.priority != c.base {
      assert forall u | u in s.waiters :: HonouredFor(s, u) <==> HonouredFor(s', u);
    }
  }

  datatype Action = Does(e: Event) | Sets(t: nat, p: nat)

  ghost function Act(s: State, a: Action): State {
    match a
    case Does(e) => Step(s, e)
    case Sets(t, p) => if t in s.tasks then PrioritySet(s, t, p) else s
  }

  ghost function Play(s: State, acts: seq<Action>): State
    decreases |acts|
  {
    if acts == [] then s else Play(Act(s, acts[0]), acts[1..])
  }

  ghost predicate ActServes(s: State, a: Action) {
    match a
    case Does(e) => Consistent(s) && Enabled(s, e) ==> Serves(s, e)
    case Sets(t, p) => t in s.tasks ==> SetServes(s, t, p)
  }

  ghost predicate AlwaysSound(s: State, acts: seq<Action>)
    decreases |acts|
  {
    Sound(s) && (acts == [] || AlwaysSound(Act(s, acts[0]), acts[1..]))
  }

  ghost predicate AlwaysActServes(s: State, acts: seq<Action>)
    decreases |acts|
  {
    acts == [] || (ActServes(s, acts[0]) && AlwaysActServes(Act(s, acts[0]), acts[1..]))
  }

  lemma ActKeepsIff(s: State, a: Action)
    requires Sound(s)
    ensures Sound(Act(s, a)) <==> ActServes(s, a)
  {
    match a {
      case Does(e) =>
        StepKeepsChain(s, e);
        if Enabled(s, e) {
          DonationsKeptIff(s, e);
        }
      case Sets(t, p) =>
        if t in s.tasks {
          PrioritySetKeepsIff(s, t, p);
        }
    }
  }

  /** Over whole runs of any nesting in which priorities are also changed: everything is sound all the way exactly if
      every step and every change serves. */
  lemma {:induction false} SoundLastsIff(s: State, acts: seq<Action>)
    requires Sound(s)
    ensures AlwaysSound(s, acts) <==> AlwaysActServes(s, acts)
    decreases |acts|
  {
    if acts != [] {
      ActKeepsIff(s, acts[0]);
      if Sound(Act(s, acts[0])) {
        SoundLastsIff(Act(s, acts[0]), acts[1..]);
      }
    }
  }

  /** No task runs below its base priority. */
  ghost predicate Floor(s: State) {
    forall t {:trigger s.tasks[t]} | t in s.tasks :: s.tasks[t].base <= s.tasks[t].priority
  }

  /** Nothing but a change of base takes a task below its base, whatever the items and the donations. */
  lemma StepKeepsFloor(s: State, e: Event)
    requires Floor(s)
    ensures Floor(Step(s, e))
  {
    if Consistent(s) && Enabled(s, e) {
      match e {
        case Block(t, m) =>
          assert MutexOk(s, m);
          InheritPriorities(s, s.mutexes[m].holder.value, t);
          SetPriorityIs(s, s.mutexes[m].holder.value, s.tasks[t].priority);
        case GiveUp(t) =>
          assert WaiterOk(s, t) && MutexOk(s, s.waiters[t].mutex);
          StepDownKeepsFloor(s, s.waiters[t].mutex);
        case _ =>
      }
    }
  }

  lemma StepDownKeepsFloor(s: State, m: nat)
    requires Floor(s) && m in s.mutexes && MutexOk(s, m)
    ensures Floor(DisinheritAfterTimeout(s, m))
  {
    if s.mutexes[m].holder.Some? {
      SetPriorityIs(s, s.mutexes[m].holder.value, StepDownTo(s, m));
    }
  }

  /** The task has inherited nothing, or its new base is no higher than what it has inherited. */
  predicate Reaches(s: State, a: Action) {
    a.Sets? && a.t in s.tasks ==>
      var c := s.tasks[a.t];
      c.priority == c.base || Clamped(s.maxPriorities, a.p) <= c.priority
  }

  lemma ActKeepsFloorIff(s: State, a: Action)
    requires Floor(s)
    ensures Floor(Act(s, a)) <==> Reaches(s, a)
  {
    match a {
      case Does(e) => StepKeepsFloor(s, e);
      case Sets(t, p) =>
        if t in s.tasks {
          PrioritySetIs(s, t, p);
        }
    }
  }

  ghost predicate AlwaysFloor(s: State, acts: seq<Action>)
    decreases |acts|
  {
    Floor(s) && (acts == [] || AlwaysFloor(Act(s, acts[0]), acts[1..]))
  }

  ghost predicate AlwaysReaches(s: State, acts: seq<Action>)
    decreases |acts|
  {
    acts == [] || (Reaches(s, acts[0]) && AlwaysReaches(Act(s, acts[0]), acts[1..]))
  }

  /** Over whole runs: no task ever runs below its base exactly if no change of base is above what its task has inherited. */
  lemma {:induction false} FloorLastsIff(s: State, acts: seq<Action>)
    requires Floor(s)
    ensures AlwaysFloor(s, acts) <==> AlwaysReaches(s, acts)
    decreases |acts|
  {
    if acts != [] {
      ActKeepsFloorIff(s, acts[0]);
      if Floor(Act(s, acts[0])) {
        FloorLastsIff(Act(s, acts[0]), acts[1..]);
      }
    }
  }

  /** The state after task 1 has taken the one mutex and task 2 has blocked on it. */
  lemma BlockedOnOne(first: nat, second: nat) returns (s: State)
    requires first <= 4 && second <= 4
    ensures forall p :: Play(Init(4, map[1 := first, 2 := second], map[0 := false]),
                             [Does(Take(1, 0)), Does(Block(2, 0)), Sets(1, p)]) == Act(s, Sets(1, p))
    ensures Sound(s) && 1 in s.tasks && 2 in s.tasks && s.maxPriorities == 4 && !Listed(s, 1)
    ensures s.tasks[1].base == first && s.tasks[1].priority == if first < second then second else first
    ensures s.tasks[2].priority == second && 2 in s.waiters && s.waiters[2].donee == Some(1)
  {
    var s0 := Init(4, map[1 := first, 2 := second], map[0 := false]);
    InitIsChain(4, map[1 := first, 2 := second], map[0 := false]);
    var s1 := Step(s0, Take(1, 0));
    StepKeepsChain(s0, Take(1, 0));
    OthersHonour(s0, Take(1, 0));
    s := Step(s1, Block(2, 0));
    StepKeepsChain(s1, Block(2, 0));
    assert MutexOk(s1, 0);
    DonationsKeptIff(s1, Block(2, 0));
    InheritPriorities(s1, 1, 2);
    SetPriorityIs(s1, 1, second);
    forall p
      ensures Play(s0, [Does(Take(1, 0)), Does(Block(2, 0)), Sets(1, p)]) == Act(s, Sets(1, p))
    {
      PlayThree(s0, Does(Take(1, 0)), Does(Block(2, 0)), Sets(1, p));
    }
  }

  lemma PlayThree(s: State, a: Action, b: Action, c: Action)
    ensures Play(s, [a, b, c]) == Act(Act(Act(s, a), b), c)
  {
    var s2 := Act(Act(s, a), b);
    assert [a, b, c][1..] == [b, c] && [b, c][1..] == [c] && [c][1..] == [];
    assert Play(s2, [c]) == Act(s2, c);
    assert Play(Act(s, a), [b, c]) == Play(s2, [c]);
  }

  /** Task 1 holds a mutex that task 2 waits for, and is urgent enough to have inherited nothing: lowering its priority
      leaves it below task 2, to whom nobody then gives way. */
  lemma LoweringCanBreakDonation()
    ensures !Honoured(Play(Init(4, map[1 := 3, 2 := 2], map[0 := false]), [Does(Take(1, 0)), Does(Block(2, 0)), Sets(1, 0)]))
  {
    var s := BlockedOnOne(3, 2);
    PrioritySetIs(s, 1, 0);
    assert !HonouredFor(PrioritySet(s, 1, 0), 2);
  }

  /** Task 1 has inherited 2 from task 2: a new base of 3 leaves it running below its base. */
  lemma RaisingCanSinkBelowBase()
    ensures var s := Play(Init(4, map[1 := 1, 2 := 2], map[0 := false]), [Does(Take(1, 0)), Does(Block(2, 0)), Sets(1, 3)]);
            1 in s.tasks && s.tasks[1].priority < s.tasks[1].base
  {
    var s := BlockedOnOne(1, 2);
  }
}
