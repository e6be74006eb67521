/** The task lists of the scheduler: where every task is, when the delayed ones wake, and which one runs.
    A step is a critical section, an interrupt, or a whole call made with the scheduler suspended. */
module Scheduler {
  import opened Clock
  import opened Lists
  import opened Sequences

  /** The lists that the state item of a task can be on. The two delayed lists swap roles at every wrap. */
  datatype ListId = Ready(p: nat) | DelayedA | DelayedB | Suspended | Terminated | Nowhere

  /** Where the event item of a task is: on no list, on the waiting list of some object, or on the list of
      tasks readied while the scheduler was suspended. */
  datatype EventPlace = Unlisted | Waiting | Pending

  /** `home` is the container of the state item; `due` the instant a delayed task is to wake, which the kernel
      knows only through the 32-bit value of the item. */
  datatype Task = Task(priority: nat, home: ListId, event: EventPlace, ghost due: nat)

  /** `delivered` counts the tick interrupts and `lost` the pended ticks that were dropped. `inA` says that
      pxDelayedTaskList is list A. */
  datatype State = State(
    priorities: nat, tasks: map<nat, Task>, lists: map<ListId, KList>, pending: seq<Item>,
    inA: bool, top: nat, nextUnblock: nat, running: nat, depth: nat, count: nat,
    now: nat, pended: nat, delivered: nat, lost: nat)

  datatype Event =
    | Create(t: nat, priority: nat)
    | Switch                          // vTaskSwitchContext
    | Tick(threshold: nat)            // xTaskIncrementTick from the interrupt
    | SuspendAll
    | ResumeAll(threshold: nat)
    | Delay(ticks: nat)               // of the running task
    | Await(ticks: nat)               // vTaskPlaceOnEventList by the running task
    | Signal(t: nat)                  // xTaskRemoveFromEventList, for its head `t`
    | Suspend(t: nat)
    | Resume(t: nat)
    | Reprioritise(t: nat, priority: nat)
    | Delete(t: nat)
    | CleanUp(t: nat)                 // the idle task frees a task that deleted itself

  // ---------------------------------------------------------------- moving one task

  function CurrentList(inA: bool): ListId {
    if inA then DelayedA else DelayedB
  }

  function OverflowList(inA: bool): ListId {
    if inA then DelayedB else DelayedA
  }

  predicate IsList(priorities: nat, id: ListId) {
    id != Nowhere && (id.Ready? ==> id.p < priorities)
  }

  ghost function Update(s: State, t: nat, task: Task): State {
    s.(tasks := s.tasks[t := task])
  }

  /** uxListRemove of the state item. */
  ghost function Detach(s: State, t: nat): State
    requires t in s.tasks
  {
    var id := s.tasks[t].home;
    if id in s.lists && Has(s.lists[id].items, t) then
      Update(s, t, s.tasks[t].(home := Nowhere)).(lists := s.lists[id := RemoveItem(s.lists[id], t)])
    else s
  }

  /** vListInsertEnd of the state item. */
  ghost function Attach(s: State, t: nat, id: ListId): State
    requires t in s.tasks
  {
    if id in s.lists && s.lists[id].index <= |s.lists[id].items| then
      Update(s, t, s.tasks[t].(home := id)).(lists := s.lists[id := InsertEnd(s.lists[id], Item(t, 0))])
    else s
  }

  /** vListInsert of the state item, at the tick it is due. */
  ghost function AttachInOrder(s: State, t: nat, id: ListId): State
    requires t in s.tasks
  {
    if id in s.lists then
      Update(s, t, s.tasks[t].(home := id)).(lists := s.lists[id := InsertInOrder(s.lists[id], Item(t, TickOf(s.tasks[t].due)))])
    else s
  }

  /** uxListRemove of the event item, if it is on a list. */
  ghost function Unlist(s: State, t: nat): State
    requires t in s.tasks
  {
    Update(s, t, s.tasks[t].(event := Unlisted)).(
      pending := if Has(s.pending, t) then Remove(s.pending, t) else s.pending)
  }

  /** prvAddTaskToReadyList */
  ghost function MakeReady(s: State, t: nat): State
    requires t in s.tasks
  {
    var p := s.tasks[t].priority;
    Attach(s, t, Ready(p)).(top := if p > s.top then p else s.top)
  }

  ghost function Items(s: State, id: ListId): seq<Item> {
    if id in s.lists then s.lists[id].items else []
  }

  /** prvResetNextTaskUnblockTime */
  ghost function NextUnblock(s: State): nat {
    var d := Items(s, CurrentList(s.inA));
    if d == [] then MAX_DELAY else d[0].value
  }

  /** Off its state list, and off any event list. */
  ghost function Untied(s: State, t: nat): State
    requires t in s.tasks
  {
    Unlist(Detach(s, t), t)
  }

  ghost function Readied(s: State, t: nat): State
    requires t in s.tasks
  {
    MakeReady(Untied(s, t), t)
  }

  // ---------------------------------------------------------------- the tick

  /** The loop of xTaskIncrementTick; `n` is the length of the delayed list. */
  ghost function WakeLoop(s: State, n: nat): State
    decreases n
  {
    var d := Items(s, CurrentList(s.inA));
    if d == [] then s.(nextUnblock := MAX_DELAY)
    else if TickOf(s.now) < d[0].value then s.(nextUnblock := d[0].value)
    else if n == 0 || d[0].owner !in s.tasks then s
    else WakeLoop(Readied(s, d[0].owner), n - 1)
  }

  /** The tick count moves on, and at a wrap the delayed lists change places. */
  ghost function AdvanceClock(s: State): State {
    var s' := s.(now := s.now + 1);
    if TickOf(s'.now) == 0 then
      var s'' := s'.(inA := !s.inA);
      s''.(nextUnblock := NextUnblock(s''))
    else s'
  }

  ghost function ProcessTick(s: State): State {
    var a := AdvanceClock(s);
    if TickOf(a.now) >= a.nextUnblock then WakeLoop(a, |Items(a, CurrentList(a.inA))|) else a
  }

  /** xTaskIncrementTick: with the scheduler suspended, or the interrupt threshold raised by the flash
      driver, the tick is only counted. */
  ghost function IncrementTick(s: State, threshold: nat): State {
    if s.depth == 0 && threshold == 0 then ProcessTick(s) else s.(pended := s.pended + 1)
  }

  /** The tick interrupt. */
  ghost function TickHandled(s: State, threshold: nat): State {
    IncrementTick(Counted(s), threshold)
  }

  ghost function Counted(s: State): State {
    s.(delivered := s.delivered + 1)
  }

  ghost function TickLoop(s: State, n: nat, threshold: nat): State
    decreases n
  {
    if n == 0 then s else TickLoop(IncrementTick(s, threshold), n - 1, threshold)
  }

  /** The loop of xTaskResumeAll over xPendingReadyList; `n` is the length of that list. */
  ghost function ReadyPending(s: State, n: nat): State
    decreases n
  {
    if n == 0 || s.pending == [] || s.pending[0].owner !in s.tasks then s
    else ReadyPending(Readied(s, s.pending[0].owner), n - 1)
  }

  /** xTaskResumeAll: each pended tick is handed to xTaskIncrementTick again, then the count is cleared. */
  ghost function Resumed(s: State, threshold: nat): State
    requires s.depth > 0
  {
    if s.depth > 1 || s.count == 0 then s.(depth := s.depth - 1) else AfterTicks(BeforeTicks(s), threshold)
  }

  ghost function AfterTicks(s: State, threshold: nat): State {
    TickLoop(s, s.pended, threshold).(pended := 0, lost := s.lost + (if threshold == 0 then 0 else s.pended))
  }

  /** The state in which xTaskResumeAll starts on the pended ticks. */
  ghost function BeforeTicks(s: State): State
    requires s.depth > 0
  {
    Refreshed(ReadyPending(s.(depth := s.depth - 1), |s.pending|), s.pending != [])
  }

  ghost function Refreshed(s: State, moved: bool): State {
    if moved then s.(nextUnblock := NextUnblock(s)) else s
  }

  // ---------------------------------------------------------------- blocking, waking, suspending

  /** prvAddCurrentTaskToDelayedList */
  ghost function BlockFor(s: State, t: nat, ticks: nat, forEver: bool): State
    requires t in s.tasks
  {
    var d := Detach(s, t);
    if ticks == MAX_DELAY && forEver then Attach(d, t, Suspended) else DelayFor(d, t, ticks)
  }

  ghost function DelayFor(s: State, t: nat, ticks: nat): State
    requires t in s.tasks
  {
    AttachInOrder(Timed(s, t, ticks), t, WakeList(s, ticks))
  }

  ghost function Timed(s: State, t: nat, ticks: nat): State
    requires t in s.tasks
  {
    Update(s.(nextUnblock := SoonerOf(s, ticks)), t, s.tasks[t].(due := s.now + ticks))
  }

  /** The list that a task goes to which wakes `ticks` from now. */
  ghost function WakeList(s: State, ticks: nat): ListId {
    if TickAdd(TickOf(s.now), ticks) < TickOf(s.now) then OverflowList(s.inA) else CurrentList(s.inA)
  }

  ghost function SoonerOf(s: State, ticks: nat): nat {
    var wake := TickAdd(TickOf(s.now), ticks);
    if wake >= TickOf(s.now) && wake < s.nextUnblock then wake else s.nextUnblock
  }

  ghost function Awaiting(s: State, t: nat, ticks: nat): State
    requires t in s.tasks
  {
    BlockFor(Update(s, t, s.tasks[t].(event := Waiting)), t, ticks, true)
  }

  /** xTaskRemoveFromEventList */
  ghost function Signalled(s: State, t: nat): State
    requires t in s.tasks
  {
    if s.depth == 0 then Readied(s, t)
    else Update(s, t, s.tasks[t].(event := Pending)).(pending := InsertAt(s.pending, |s.pending|, Item(t, 0)))
  }

  ghost function SuspendedTask(s: State, t: nat): State
    requires t in s.tasks
  {
    var s' := Attach(Untied(s, t), t, Suspended);
    s'.(nextUnblock := NextUnblock(s'))
  }

  /** The part that vTaskPrioritySet and the inheritance functions share. */
  ghost function Reprioritised(s: State, t: nat, priority: nat): State
    requires t in s.tasks
  {
    if s.tasks[t].home.Ready? then
      var d := Detach(s, t);
      MakeReady(Update(d, t, d.tasks[t].(priority := priority)), t)
    else Update(s, t, s.tasks[t].(priority := priority))
  }

  ghost function Forgotten(s: State, t: nat): State
    requires t in s.tasks
  {
    var s' := Untied(s, t);
    s'.(tasks := s'.tasks - {t}, count := if s.count > 0 then s.count - 1 else 0)
  }

  ghost function Deleted(s: State, t: nat): State
    requires t in s.tasks
  {
    if t == s.running then Attach(Untied(s, t), t, Terminated)
    else
      var s' := Forgotten(s, t);
      s'.(nextUnblock := NextUnblock(s'))
  }

  ghost function Created(s: State, t: nat, priority: nat): State {
    MakeReady(Added(s, t, priority), t)
  }

  ghost function Added(s: State, t: nat, priority: nat): State {
    Update(s, t, Task(priority, Nowhere, Unlisted, 0)).(count := s.count + 1)
  }

  /** The search of taskSELECT_HIGHEST_PRIORITY_TASK. */
  ghost function HighestReady(s: State, p: nat): nat {
    if p == 0 || Items(s, Ready(p)) != [] then p else HighestReady(s, p - 1)
  }

  ghost function Switched(s: State): State {
    var p := HighestReady(s, s.top);
    if Ready(p) !in s.lists || s.lists[Ready(p)].items == [] || s.lists[Ready(p)].index > |s.lists[Ready(p)].items| then s
    else
      var l := Advance(s.lists[Ready(p)]);
      s.(lists := s.lists[Ready(p) := l], running := Selected(l), top := p)
  }

  ghost predicate Enabled(s: State, e: Event) {
    match e
    case Create(t, priority) => t !in s.tasks && priority < s.priorities
    case Switch => s.depth == 0
    case Tick(_) => true
    case SuspendAll => true
    case ResumeAll(_) => s.depth > 0
    case Delay(ticks) => 0 < ticks <= MAX_DELAY && s.running in s.tasks && s.tasks[s.running].home.Ready?
    case Await(ticks) => 0 < ticks <= MAX_DELAY && s.running in s.tasks && s.tasks[s.running].home.Ready?
    case Signal(t) => t in s.tasks && s.tasks[t].event == Waiting
    case Suspend(t) => t in s.tasks && !s.tasks[t].home.Terminated?
    case Resume(t) => t in s.tasks && t != s.running && s.tasks[t].home == Suspended && s.tasks[t].event == Unlisted
    case Reprioritise(t, priority) => t in s.tasks && priority < s.priorities
    case Delete(t) => t in s.tasks && !s.tasks[t].home.Terminated?
    case CleanUp(t) => t in s.tasks && t != s.running && s.tasks[t].home.Terminated?
  }

  ghost function Step(s: State, e: Event): State {
    if !Enabled(s, e) then s else
      match e
      case Create(t, priority) => Created(s, t, priority)
      case Switch => Switched(s)
      case Tick(threshold) => TickHandled(s, threshold)
      case SuspendAll => s.(depth := s.depth + 1)
      case ResumeAll(threshold) => Resumed(s, threshold)
      case Delay(ticks) => BlockFor(s, s.running, ticks, false)
      case Await(ticks) => Awaiting(s, s.running, ticks)
      case Signal(t) => Signalled(s, t)
      case Suspend(t) => SuspendedTask(s, t)
      case Resume(t) => Readied(s, t)
      case Reprioritise(t, priority) => Reprioritised(s, t, priority)
      case Delete(t) => Deleted(s, t)
      case CleanUp(t) => Forgotten(s, t)
  }

  ghost function Exec(s: State, es: seq<Event>): State
    decreases |es|
  {
    if es == [] then s else Exec(Step(s, es[0]), es[1..])
  }

  ghost function Init(priorities: nat, now: nat): State {
    State(priorities, map[], map id: ListId | id in AllLists(priorities) :: EMPTY, [], true, 0, MAX_DELAY, 0, 0, 0, now, 0, now, 0)
  }

  ghost function AllLists(priorities: nat): set<ListId> {
    (set p | 0 <= p < priorities :: Ready(p)) + {DelayedA, DelayedB, Suspended, Terminated}
  }

  // ---------------------------------------------------------------- what every step keeps

  ghost predicate ListOk(tasks: map<nat, Task>, l: KList, id: ListId) {
    WellFormed(l) && forall t :: Has(l.items, t) <==> t in tasks && tasks[t].home == id
  }

  ghost predicate DelayedOk(tasks: map<nat, Task>, items: seq<Item>) {
    Sorted(items) && forall k | 0 <= k < |items| :: items[k].owner in tasks && items[k].value == TickOf(tasks[items[k].owner].due)
  }

  ghost predicate PendingOk(tasks: map<nat, Task>, pending: seq<Item>) {
    Distinct(pending) && forall t :: Has(pending, t) <==> t in tasks && tasks[t].event == Pending
  }

  /** A task on a ready list is on the one of its priority, and not above uxTopReadyPriority. A task on the
      current delayed list is due in this round of the tick count, at `from` or later and not before
      `next`; one on the overflow list is due in the next round. */
  ghost predicate TaskOk(t: Task, priorities: nat, top: nat, inA: bool, now: nat, from: nat, next: nat) {
    && t.priority < priorities && IsList(priorities, t.home)
    && (t.home.Ready? ==> t.home.p == t.priority <= top && t.event == Unlisted)
    && (t.home == CurrentList(inA) ==> EpochOf(t.due) == EpochOf(now) && from <= t.due && next <= TickOf(t.due))
    && (t.home == OverflowList(inA) ==> EpochOf(t.due) == EpochOf(now) + 1)
    && (t.home.Terminated? ==> t.event == Unlisted)
  }

  /** Everything but the tasks themselves. */
  ghost predicate ListsOk(s: State) {
    && (forall id {:trigger id in s.lists} :: id in s.lists <==> IsList(s.priorities, id))
    && (forall id {:trigger ListOk(s.tasks, s.lists[id], id)} | id in s.lists :: ListOk(s.tasks, s.lists[id], id))
    && DelayedOk(s.tasks, Items(s, DelayedA)) && DelayedOk(s.tasks, Items(s, DelayedB))
    && PendingOk(s.tasks, s.pending)
    && s.top < s.priorities
  }

  /** `except` is a task in transit between two lists, if any. */
  ghost predicate TasksOk(s: State, from: nat, next: nat, except: set<nat>) {
    forall t {:trigger s.tasks[t]} | t in s.tasks && t !in except ::
      TaskOk(s.tasks[t], s.priorities, s.top, s.inA, s.now, from, next)
  }

  ghost predicate Inv(s: State) {
    && ListsOk(s) && TasksOk(s, s.now + 1, s.nextUnblock, {})
    && (s.pending != [] ==> s.depth > 0)
    && s.nextUnblock <= MAX_DELAY
    && s.count == |s.tasks|
  }

  // ---------------------------------------------------------------- how the moves keep it

  lemma ListFrame(tasks: map<nat, Task>, l: KList, id: ListId, t: nat, task: Task)
    requires ListOk(tasks, l, id) && (t in tasks && tasks[t].home == id <==> task.home == id)
    ensures ListOk(tasks[t := task], l, id)
  {
  }

  lemma ListWithout(tasks: map<nat, Task>, l: KList, id: ListId, t: nat, task: Task)
    requires ListOk(tasks, l, id) && Has(l.items, t) && task.home != id
    ensures ListOk(tasks[t := task], RemoveItem(l, t), id)
  {
    RemoveKeepsMembers(l.items, t);
  }

  lemma ListWith(tasks: map<nat, Task>, l: KList, id: ListId, t: nat, task: Task, l': KList, p: nat, v: nat)
    requires ListOk(tasks, l, id) && t in tasks && tasks[t].home != id && task.home == id
    requires p <= |l.items| && l'.items == InsertAt(l.items, p, Item(t, v)) && l'.index <= |l'.items|
    ensures ListOk(tasks[t := task], l', id)
  {
    InsertKeepsMembers(l.items, p, Item(t, v));
  }

  lemma DelayedFrame(tasks: map<nat, Task>, items: seq<Item>, t: nat, task: Task)
    requires DelayedOk(tasks, items) && (!Has(items, t) || (t in tasks && task.due == tasks[t].due))
    ensures DelayedOk(tasks[t := task], items)
  {
    forall k | 0 <= k < |items|
      ensures items[k].owner in tasks[t := task] && items[k].value == TickOf(tasks[t := task][items[k].owner].due)
    {
      assert Has(items, items[k].owner);
    }
  }

  lemma DelayedWithout(tasks: map<nat, Task>, items: seq<Item>, t: nat)
    requires DelayedOk(tasks, items) && Distinct(items) && Has(items, t)
    ensures DelayedOk(tasks, Remove(items, t))
  {
    RemoveKeepsMembers(items, t);
    var p := Find(items, t);
    var r := Remove(items, t);
    assert forall k | 0 <= k < |r| :: r[k] == items[if k < p then k else k + 1];
  }

  lemma DelayedWith(tasks: map<nat, Task>, items: seq<Item>, t: nat)
    requires DelayedOk(tasks, items) && t in tasks
    ensures DelayedOk(tasks, InsertSorted(items, Item(t, TickOf(tasks[t].due))))
  {
    var x := Item(t, TickOf(tasks[t].due));
    InsertSortedIsStable(items, x);
    var p := InsertPoint(items, x.value);
    var r := InsertSorted(items, x);
    assert forall k | 0 <= k < |r| :: r[k] == if k < p then items[k] else if k == p then x else items[k - 1];
  }

  lemma PendingFrame(tasks: map<nat, Task>, pending: seq<Item>, t: nat, task: Task)
    requires PendingOk(tasks, pending) && (t in tasks && tasks[t].event == Pending <==> task.event == Pending)
    ensures PendingOk(tasks[t := task], pending)
  {
  }

  /** Changing a task without moving its items. */
  lemma UpdateKeepsLists(s: State, t: nat, task: Task)
    requires ListsOk(s) && t in s.tasks && task.home == s.tasks[t].home
    requires task.event == Pending <==> s.tasks[t].event == Pending
    requires task.due == s.tasks[t].due || task.home == Nowhere
    ensures ListsOk(Update(s, t, task))
  {
    forall id | id in s.lists
      ensures ListOk(s.tasks[t := task], s.lists[id], id)
    {
      ListFrame(s.tasks, s.lists[id], id, t, task);
      assert task.home == Nowhere ==> !Has(s.lists[id].items, t);
    }
    DelayedFrame(s.tasks, Items(s, DelayedA), t, task);
    DelayedFrame(s.tasks, Items(s, DelayedB), t, task);
    PendingFrame(s.tasks, s.pending, t, task);
  }

  lemma DetachIs(s: State, t: nat)
    requires ListsOk(s) && t in s.tasks && s.tasks[t].home in s.lists
    ensures Has(s.lists[s.tasks[t].home].items, t)
    ensures Detach(s, t) == Update(s, t, s.tasks[t].(home := Nowhere)).(lists := Detach(s, t).lists)
  {
    assert ListOk(s.tasks, s.lists[s.tasks[t].home], s.tasks[t].home);
  }

  lemma DetachKeepsDelayed(s: State, t: nat, id: ListId)
    requires ListsOk(s) && t in s.tasks && s.tasks[t].home in s.lists && id in s.lists
    requires DelayedOk(s.tasks, Items(s, id))
    ensures DelayedOk(Detach(s, t).tasks, Items(Detach(s, t), id))
  {
    DetachIs(s, t);
    assert ListOk(s.tasks, s.lists[id], id);
    if id == s.tasks[t].home {
      DelayedWithout(s.tasks, s.lists[id].items, t);
    }
    DelayedFrame(s.tasks, Items(Detach(s, t), id), t, s.tasks[t].(home := Nowhere));
  }

  lemma DetachKeepsLists(s: State, t: nat)
    requires ListsOk(s) && t in s.tasks && s.tasks[t].home in s.lists
    ensures ListsOk(Detach(s, t))
  {
    var s', home, task := Detach(s, t), s.tasks[t].home, s.tasks[t].(home := Nowhere);
    DetachIs(s, t);
    forall id | id in s'.lists
      ensures ListOk(s'.tasks, s'.lists[id], id)
    {
      assert ListOk(s.tasks, s.lists[id], id);
      if id == home {
        ListWithout(s.tasks, s.lists[id], id, t, task);
      } else {
        ListFrame(s.tasks, s.lists[id], id, t, task);
      }
    }
    DetachKeepsDelayed(s, t, DelayedA);
    DetachKeepsDelayed(s, t, DelayedB);
    PendingFrame(s.tasks, s.pending, t, task);
  }

  lemma AttachKeepsLists(s: State, t: nat, id: ListId)
    requires ListsOk(s) && t in s.tasks && s.tasks[t].home == Nowhere
    requires id in s.lists && id != DelayedA && id != DelayedB
    ensures ListsOk(Attach(s, t, id))
    ensures Attach(s, t, id) == Update(s, t, s.tasks[t].(home := id)).(lists := Attach(s, t, id).lists)
  {
    var l, task := s.lists[id], s.tasks[t].(home := id);
    assert ListOk(s.tasks, l, id);
    var s' := Attach(s, t, id);
    forall k | k in s'.lists
      ensures ListOk(s'.tasks, s'.lists[k], k)
    {
      assert ListOk(s.tasks, s.lists[k], k);
      if k == id {
        ListWith(s.tasks, l, id, t, task, InsertEnd(l, Item(t, 0)), if l.index == 0 then |l.items| else l.index - 1, 0);
      } else {
        ListFrame(s.tasks, s.lists[k], k, t, task);
      }
    }
    DelayedFrame(s.tasks, Items(s, DelayedA), t, task);
    DelayedFrame(s.tasks, Items(s, DelayedB), t, task);
    PendingFrame(s.tasks, s.pending, t, task);
  }

  lemma AttachInOrderKeepsDelayed(s: State, t: nat, id: ListId, k: ListId)
    requires ListsOk(s) && t in s.tasks && s.tasks[t].home == Nowhere && id in s.lists && k in s.lists
    requires DelayedOk(s.tasks, Items(s, k))
    ensures DelayedOk(AttachInOrder(s, t, id).tasks, Items(AttachInOrder(s, t, id), k))
  {
    if k == id {
      DelayedWith(s.tasks, Items(s, k), t);
    }
    DelayedFrame(s.tasks, Items(AttachInOrder(s, t, id), k), t, s.tasks[t].(home := id));
  }

  lemma AttachInOrderKeepsLists(s: State, t: nat, id: ListId)
    requires ListsOk(s) && t in s.tasks && s.tasks[t].home == Nowhere && id in s.lists
    ensures ListsOk(AttachInOrder(s, t, id))
    ensures AttachInOrder(s, t, id) == Update(s, t, s.tasks[t].(home := id)).(lists := AttachInOrder(s, t, id).lists)
  {
    var l, task, v := s.lists[id], s.tasks[t].(home := id), TickOf(s.tasks[t].due);
    var s' := AttachInOrder(s, t, id);
    forall k | k in s'.lists
      ensures ListOk(s'.tasks, s'.lists[k], k)
    {
      assert ListOk(s.tasks, s.lists[k], k);
      if k == id {
        ListWith(s.tasks, l, id, t, task, InsertInOrder(l, Item(t, v)), InsertPoint(l.items, v), v);
      } else {
        ListFrame(s.tasks, s.lists[k], k, t, task);
      }
    }
    AttachInOrderKeepsDelayed(s, t, id, DelayedA);
    AttachInOrderKeepsDelayed(s, t, id, DelayedB);
    PendingFrame(s.tasks, s.pending, t, task);
  }

  lemma UnlistKeepsLists(s: State, t: nat)
    requires ListsOk(s) && t in s.tasks
    ensures ListsOk(Unlist(s, t))
  {
    var task := s.tasks[t].(event := Unlisted);
    forall id | id in s.lists
      ensures ListOk(s.tasks[t := task], s.lists[id], id)
    {
      assert ListOk(s.tasks, s.lists[id], id);
      ListFrame(s.tasks, s.lists[id], id, t, task);
    }
    DelayedFrame(s.tasks, Items(s, DelayedA), t, task);
    DelayedFrame(s.tasks, Items(s, DelayedB), t, task);
    if Has(s.pending, t) {
      RemoveKeepsMembers(s.pending, t);
    }
  }

  /** `s'` differs from `s` at most in the lists and in what it says of task `t`. */
  ghost predicate MovesOnly(s: State, s': State, t: nat, task: Task) {
    s' == s.(tasks := s.tasks[t := task], lists := s'.lists, pending := s'.pending, top := s'.top)
  }

  lemma UntieKeepsLists(s: State, t: nat)
    requires ListsOk(s) && t in s.tasks && s.tasks[t].home in s.lists
    ensures ListsOk(Untied(s, t)) && Untied(s, t).top == s.top
    ensures MovesOnly(s, Untied(s, t), t, s.tasks[t].(home := Nowhere, event := Unlisted))
  {
    DetachIs(s, t);
    DetachKeepsLists(s, t);
    UnlistKeepsLists(Detach(s, t), t);
  }

  lemma MakeReadyKeeps(s: State, t: nat)
    requires ListsOk(s) && t in s.tasks && s.tasks[t].home == Nowhere && s.tasks[t].priority < s.priorities
    ensures ListsOk(MakeReady(s, t)) && MakeReady(s, t).pending == s.pending
    ensures MovesOnly(s, MakeReady(s, t), t, s.tasks[t].(home := Ready(s.tasks[t].priority)))
    ensures s.top <= MakeReady(s, t).top && s.tasks[t].priority <= MakeReady(s, t).top
  {
    AttachKeepsLists(s, t, Ready(s.tasks[t].priority));
  }

  lemma ReadiedKeepsLists(s: State, t: nat)
    requires ListsOk(s) && t in s.tasks && s.tasks[t].home in s.lists && s.tasks[t].priority < s.priorities
    ensures ListsOk(Readied(s, t)) && Readied(s, t).pending == Untied(s, t).pending
    ensures MovesOnly(s, Readied(s, t), t, s.tasks[t].(home := Ready(s.tasks[t].priority), event := Unlisted))
    ensures s.top <= Readied(s, t).top && s.tasks[t].priority <= Readied(s, t).top
  {
    UntieKeepsLists(s, t);
    MakeReadyKeeps(Untied(s, t), t);
  }

  lemma ReadiedTasksOk(s: State, s': State, t: nat, from: nat, next: nat)
    requires TasksOk(s, from, next, {}) && t in s.tasks && s.tasks[t].priority < s.priorities
    requires MovesOnly(s, s', t, s.tasks[t].(home := Ready(s.tasks[t].priority), event := Unlisted))
    requires s.top <= s'.top && s.tasks[t].priority <= s'.top
    ensures TasksOk(s', from, next, {})
  {
    forall u | u in s'.tasks
      ensures TaskOk(s'.tasks[u], s'.priorities, s'.top, s'.inA, s'.now, from, next)
    {
      assert TaskOk(s.tasks[u], s.priorities, s.top, s.inA, s.now, from, next);
    }
  }

  lemma ReadiedKeeps(s: State, t: nat, from: nat, next: nat)
    requires ListsOk(s) && t in s.tasks && s.tasks[t].home in s.lists && s.tasks[t].priority < s.priorities
    requires TasksOk(s, from, next, {})
    ensures ListsOk(Readied(s, t)) && TasksOk(Readied(s, t), from, next, {})
    ensures MovesOnly(s, Readied(s, t), t, s.tasks[t].(home := Ready(s.tasks[t].priority), event := Unlisted))
    ensures Readied(s, t).pending == Untied(s, t).pending
  {
    ReadiedKeepsLists(s, t);
    ReadiedTasksOk(s, Readied(s, t), t, from, next);
  }

  // ---------------------------------------------------------------- the tick keeps it, and wakes exactly who is due

  /** What a tick at instant `at` makes of a task. */
  ghost function Wakes(t: Task, at: nat): Task {
    if (t.home == DelayedA || t.home == DelayedB) && t.due == at then t.(home := Ready(t.priority), event := Unlisted) else t
  }

  lemma HeadIsLeast(s: State, id: ListId, t: nat)
    requires ListsOk(s) && (id == DelayedA || id == DelayedB) && t in s.tasks && s.tasks[t].home == id
    ensures Items(s, id) != [] && Items(s, id)[0].value <= TickOf(s.tasks[t].due)
  {
    assert ListOk(s.tasks, s.lists[id], id);
    var k := Find(s.lists[id].items, t);
    assert s.lists[id].items[0].value <= s.lists[id].items[k].value;
  }

  lemma NextUnblockIsLeast(s: State, t: nat)
    requires ListsOk(s) && t in s.tasks && s.tasks[t].home == CurrentList(s.inA)
    ensures NextUnblock(s) <= TickOf(s.tasks[t].due)
  {
    HeadIsLeast(s, CurrentList(s.inA), t);
  }

  lemma NextUnblockIsTick(s: State)
    requires ListsOk(s)
    ensures NextUnblock(s) <= MAX_DELAY
  {
    assert DelayedOk(s.tasks, Items(s, CurrentList(s.inA)));
  }

  /** At a wrap, the delayed list that is switched out is empty. */
  lemma SwitchedOutListIsEmpty(s: State)
    requires Inv(s) && TickOf(s.now + 1) == 0
    ensures Items(s, CurrentList(s.inA)) == []
  {
    var id := CurrentList(s.inA);
    assert ListOk(s.tasks, s.lists[id], id);
    forall t | t in s.tasks
      ensures s.tasks[t].home != id
    {
      assert TaskOk(s.tasks[t], s.priorities, s.top, s.inA, s.now, s.now + 1, s.nextUnblock);
    }
    var items := s.lists[id].items;
    assert items != [] ==> Has(items, items[0].owner);
  }

  lemma AdvanceTaskAtWrap(s: State, t: nat)
    requires Inv(s) && TickOf(s.now + 1) == 0 && t in s.tasks && ListsOk(AdvanceClock(s))
    ensures var a := AdvanceClock(s);
            t in a.tasks && TaskOk(a.tasks[t], a.priorities, a.top, a.inA, a.now, a.now, a.nextUnblock)
  {
    var a := AdvanceClock(s);
    assert TaskOk(s.tasks[t], s.priorities, s.top, s.inA, s.now, s.now + 1, s.nextUnblock);
    if a.tasks[t].home == CurrentList(a.inA) {
      NextUnblockIsLeast(a, t);
    }
  }

  lemma AdvanceClockKeeps(s: State)
    requires Inv(s)
    ensures var a := AdvanceClock(s);
            && ListsOk(a) && TasksOk(a, a.now, a.nextUnblock, {}) && a.nextUnblock <= MAX_DELAY
            && a == s.(now := s.now + 1, inA := a.inA, nextUnblock := a.nextUnblock)
  {
    var a := AdvanceClock(s);
    if TickOf(s.now + 1) == 0 {
      NextUnblockIsTick(a);
      forall t | t in a.tasks
        ensures TaskOk(a.tasks[t], a.priorities, a.top, a.inA, a.now, a.now, a.nextUnblock)
      {
        AdvanceTaskAtWrap(s, t);
      }
    } else {
      forall t | t in a.tasks
        ensures TaskOk(a.tasks[t], a.priorities, a.top, a.inA, a.now, a.now, a.nextUnblock)
      {
        assert TaskOk(s.tasks[t], s.priorities, s.top, s.inA, s.now, s.now + 1, s.nextUnblock);
      }
    }
  }

  /** Waking the head of the delayed list takes it, and only it, off that list. */
  lemma WakeHeadShortens(s: State)
    requires ListsOk(s) && TasksOk(s, s.now, 0, {})
    requires Items(s, CurrentList(s.inA)) != []
    ensures var d := Items(s, CurrentList(s.inA));
            && d[0].owner in s.tasks && s.tasks[d[0].owner].home == CurrentList(s.inA)
            && d[0].value == TickOf(s.tasks[d[0].owner].due)
            && |Items(Readied(s, d[0].owner), CurrentList(s.inA))| == |d| - 1
  {
    var id := CurrentList(s.inA);
    var d := Items(s, id);
    assert ListOk(s.tasks, s.lists[id], id);
    assert Has(d, d[0].owner);
  }

  /** What the loop makes of all the tasks. */
  ghost function Woken(tasks: map<nat, Task>, id: ListId, at: nat): map<nat, Task> {
    map t | t in tasks :: if tasks[t].home == id then Wakes(tasks[t], at) else tasks[t]
  }

  lemma WokenOneByOne(tasks: map<nat, Task>, id: ListId, at: nat, t: nat)
    requires t in tasks && tasks[t].home == id && tasks[t].due == at && (id == DelayedA || id == DelayedB)
    ensures Woken(tasks[t := tasks[t].(home := Ready(tasks[t].priority), event := Unlisted)], id, at) == Woken(tasks, id, at)
  {
  }

  /** The head is due now, and readying it leaves the loop with the rest. */
  lemma WakeHeadKeeps(s: State)
    requires ListsOk(s) && TasksOk(s, s.now, 0, {})
    requires Items(s, CurrentList(s.inA)) != [] && Items(s, CurrentList(s.inA))[0].value <= TickOf(s.now)
    ensures var t := Items(s, CurrentList(s.inA))[0].owner;
            && t in s.tasks
            && ListsOk(Readied(s, t)) && TasksOk(Readied(s, t), s.now, 0, {})
            && MovesOnly(s, Readied(s, t), t, s.tasks[t].(home := Ready(s.tasks[t].priority), event := Unlisted))
            && Woken(Readied(s, t).tasks, CurrentList(s.inA), s.now) == Woken(s.tasks, CurrentList(s.inA), s.now)
  {
    WakeHeadShortens(s);
    var t := Items(s, CurrentList(s.inA))[0].owner;
    assert TaskOk(s.tasks[t], s.priorities, s.top, s.inA, s.now, s.now, 0);
    ReadiedKeeps(s, t, s.now, 0);
    WokenOneByOne(s.tasks, CurrentList(s.inA), s.now, t);
  }

  lemma WakeLoopUnrolls(s: State)
    requires ListsOk(s) && TasksOk(s, s.now, 0, {})
    requires Items(s, CurrentList(s.inA)) != [] && Items(s, CurrentList(s.inA))[0].value <= TickOf(s.now)
    ensures var d := Items(s, CurrentList(s.inA));
            && d[0].owner in s.tasks
            && WakeLoop(s, |d|) == WakeLoop(Readied(s, d[0].owner), |Items(Readied(s, d[0].owner), CurrentList(s.inA))|)
  {
    WakeHeadShortens(s);
  }

  lemma {:induction false} WakeLoopIsExact(s: State, n: nat)
    requires ListsOk(s) && TasksOk(s, s.now, 0, {}) && n == |Items(s, CurrentList(s.inA))|
    ensures var s' := WakeLoop(s, n);
            && ListsOk(s') && TasksOk(s', s.now + 1, s'.nextUnblock, {}) && s'.nextUnblock <= MAX_DELAY
            && s' == s.(tasks := s'.tasks, lists := s'.lists, pending := s'.pending, top := s'.top, nextUnblock := s'.nextUnblock)
            && s'.tasks == Woken(s.tasks, CurrentList(s.inA), s.now)
    decreases n
  {
    var d := Items(s, CurrentList(s.inA));
    if d != [] && TickOf(s.now) >= d[0].value {
      WakeHeadShortens(s);
      WakeHeadKeeps(s);
      WakeLoopIsExact(Readied(s, d[0].owner), n - 1);
    } else {
      WakeLoopEnds(s, n);
    }
  }

  lemma WakeLoopEnds(s: State, n: nat)
    requires ListsOk(s) && TasksOk(s, s.now, 0, {})
    requires var d := Items(s, CurrentList(s.inA)); d == [] || TickOf(s.now) < d[0].value
    ensures var s' := WakeLoop(s, n);
            && s' == s.(nextUnblock := s'.nextUnblock)
            && ListsOk(s') && TasksOk(s', s.now + 1, s'.nextUnblock, {}) && s'.nextUnblock <= MAX_DELAY
            && Woken(s.tasks, CurrentList(s.inA), s.now) == s.tasks
  {
    var s' := WakeLoop(s, n);
    assert s'.nextUnblock == NextUnblock(s);
    NextUnblockIsTick(s);
    forall t | t in s.tasks
      ensures TaskOk(s.tasks[t], s.priorities, s.top, s.inA, s.now, s.now + 1, s'.nextUnblock)
      ensures s.tasks[t].home == CurrentList(s.inA) ==> s.tasks[t].due != s.now
    {
      assert TaskOk(s.tasks[t], s.priorities, s.top, s.inA, s.now, s.now, 0);
      if s.tasks[t].home == CurrentList(s.inA) {
        HeadIsLeast(s, CurrentList(s.inA), t);
      }
    }
  }

  ghost function AllWake(tasks: map<nat, Task>, at: nat): map<nat, Task> {
    map t | t in tasks :: Wakes(tasks[t], at)
  }

  lemma WokenIsAllWake(s: State)
    requires TasksOk(s, s.now, 0, {})
    ensures Woken(s.tasks, CurrentList(s.inA), s.now) == AllWake(s.tasks, s.now)
  {
    forall t | t in s.tasks
      ensures s.tasks[t].home == OverflowList(s.inA) ==> s.tasks[t].due != s.now
    {
      assert TaskOk(s.tasks[t], s.priorities, s.top, s.inA, s.now, s.now, 0);
    }
  }

  /** Nobody is due before xNextTaskUnblockTime. */
  lemma NobodyIsDue(s: State)
    requires TasksOk(s, s.now, s.nextUnblock, {}) && TickOf(s.now) < s.nextUnblock
    ensures TasksOk(s, s.now + 1, s.nextUnblock, {}) && AllWake(s.tasks, s.now) == s.tasks
  {
    forall t | t in s.tasks
      ensures TaskOk(s.tasks[t], s.priorities, s.top, s.inA, s.now, s.now + 1, s.nextUnblock)
      ensures Wakes(s.tasks[t], s.now) == s.tasks[t]
    {
      assert TaskOk(s.tasks[t], s.priorities, s.top, s.inA, s.now, s.now, s.nextUnblock);
    }
  }

  lemma WeakerNext(s: State, from: nat, next: nat)
    requires TasksOk(s, from, next, {})
    ensures TasksOk(s, from, 0, {})
  {
    forall t | t in s.tasks
      ensures TaskOk(s.tasks[t], s.priorities, s.top, s.inA, s.now, from, 0)
    {
      assert TaskOk(s.tasks[t], s.priorities, s.top, s.inA, s.now, from, next);
    }
  }

  /** A processed tick readies exactly the tasks that are due at it, across any wrap, and changes nothing
      else about any task. */
  lemma TickIsExact(s: State)
    requires Inv(s)
    ensures var s' := ProcessTick(s);
            && ListsOk(s') && TasksOk(s', s'.now + 1, s'.nextUnblock, {}) && s'.nextUnblock <= MAX_DELAY
            && s'.now == s.now + 1 && s'.tasks == AllWake(s.tasks, s.now + 1)
            && s' == s.(now := s.now + 1, inA := s'.inA, nextUnblock := s'.nextUnblock, tasks := s'.tasks,
                        lists := s'.lists, pending := s'.pending, top := s'.top)
  {
    AdvanceClockKeeps(s);
    var a := AdvanceClock(s);
    if TickOf(a.now) >= a.nextUnblock {
      WeakerNext(a, a.now, a.nextUnblock);
      WakeLoopIsExact(a, |Items(a, CurrentList(a.inA))|);
      WokenIsAllWake(a);
    } else {
      NobodyIsDue(a);
    }
  }

  /** With nobody pending, none is pending afterwards. */
  lemma TickKeepsInv(s: State)
    requires Inv(s) && s.pending == []
    ensures Inv(ProcessTick(s)) && ProcessTick(s).pending == []
  {
    TickIsExact(s);
    var s' := ProcessTick(s);
    assert forall t :: Has(s'.pending, t) ==> s'.tasks[t].event == Pending;
    forall t | t in s.tasks
      ensures s'.tasks[t].event != Pending
    {
      assert !Has(s.pending, t);
    }
    assert s'.pending != [] ==> Has(s'.pending, s'.pending[0].owner);
    assert s'.tasks.Keys == s.tasks.Keys;
  }

  // ---------------------------------------------------------------- resuming the scheduler

  lemma PendingHead(s: State)
    requires ListsOk(s) && TasksOk(s, 0, 0, {}) && s.pending != []
    ensures s.pending[0].owner in s.tasks && s.tasks[s.pending[0].owner].event == Pending
    ensures s.tasks[s.pending[0].owner].home in s.lists && s.tasks[s.pending[0].owner].priority < s.priorities
  {
    var t := s.pending[0].owner;
    assert Has(s.pending, t);
    assert TaskOk(s.tasks[t], s.priorities, s.top, s.inA, s.now, 0, 0);
  }

  lemma WeakerTasks(s: State, from: nat, next: nat)
    requires TasksOk(s, from, next, {})
    ensures TasksOk(s, 0, 0, {})
  {
    forall t | t in s.tasks
      ensures TaskOk(s.tasks[t], s.priorities, s.top, s.inA, s.now, 0, 0)
    {
      assert TaskOk(s.tasks[t], s.priorities, s.top, s.inA, s.now, from, next);
    }
  }

  ghost function PendingReadied(tasks: map<nat, Task>): map<nat, Task> {
    map t | t in tasks :: if tasks[t].event == Pending then tasks[t].(home := Ready(tasks[t].priority), event := Unlisted) else tasks[t]
  }

  lemma NobodyPending(s: State)
    requires ListsOk(s) && s.pending == []
    ensures PendingReadied(s.tasks) == s.tasks
  {
    assert forall t :: Has(s.pending, t) <==> t in s.tasks && s.tasks[t].event == Pending;
  }

  lemma PendingHeadReadied(s: State, from: nat, next: nat)
    requires ListsOk(s) && TasksOk(s, from, next, {}) && s.pending != []
    ensures var t := s.pending[0].owner;
            && t in s.tasks && ListsOk(Readied(s, t)) && TasksOk(Readied(s, t), from, next, {})
            && MovesOnly(s, Readied(s, t), t, s.tasks[t].(home := Ready(s.tasks[t].priority), event := Unlisted))
            && |Readied(s, t).pending| == |s.pending| - 1
            && PendingReadied(Readied(s, t).tasks) == PendingReadied(s.tasks)
  {
    WeakerTasks(s, from, next);
    PendingHead(s);
    var t := s.pending[0].owner;
    ReadiedKeeps(s, t, from, next);
    DetachIs(s, t);
    ReadiedOneByOne(s.tasks, t);
  }

  lemma ReadiedOneByOne(tasks: map<nat, Task>, t: nat)
    requires t in tasks && tasks[t].event == Pending
    ensures PendingReadied(tasks[t := tasks[t].(home := Ready(tasks[t].priority), event := Unlisted)]) == PendingReadied(tasks)
  {
  }

  /** Every task readied while the scheduler was suspended goes to its ready list; nobody else moves. */
  lemma {:induction false} ReadyPendingKeeps(s: State, n: nat, from: nat, next: nat)
    requires ListsOk(s) && TasksOk(s, from, next, {}) && n == |s.pending|
    ensures var s' := ReadyPending(s, n);
            && ListsOk(s') && TasksOk(s', from, next, {}) && s'.pending == []
            && s' == s.(tasks := s'.tasks, lists := s'.lists, pending := s'.pending, top := s'.top)
            && s'.tasks == PendingReadied(s.tasks)
    decreases n
  {
    if s.pending == [] {
      NobodyPending(s);
    } else {
      PendingHeadReadied(s, from, next);
      ReadyPendingKeeps(Readied(s, s.pending[0].owner), n - 1, from, next);
    }
  }

  lemma OneTickKeepsInv(s: State)
    requires Inv(s) && s.depth == 0 && s.pending == []
    ensures var s' := IncrementTick(s, 0);
            && Inv(s') && s'.now == s.now + 1 && s'.pended == s.pended && s'.delivered == s.delivered && s'.lost == s.lost
            && s'.depth == 0 && s'.pending == [] && s'.count == s.count
  {
    TickKeepsInv(s);
    TickIsExact(s);
  }

  lemma {:induction false} TickLoopStaysOk(s: State, n: nat)
    requires Inv(s) && s.depth == 0 && s.pending == []
    ensures var s' := TickLoop(s, n, 0); Inv(s') && s'.depth == 0 && s'.pending == []
    decreases n
  {
    if n > 0 {
      OneTickKeepsInv(s);
      TickLoopStaysOk(IncrementTick(s, 0), n - 1);
    }
  }

  lemma {:induction false} TickLoopCounts(s: State, n: nat)
    requires Inv(s) && s.depth == 0 && s.pending == []
    ensures var s' := TickLoop(s, n, 0);
            && s'.now == s.now + n && s'.pended == s.pended && s'.delivered == s.delivered && s'.lost == s.lost
            && s'.count == s.count
    decreases n
  {
    if n > 0 {
      OneTickKeepsInv(s);
      TickLoopCounts(IncrementTick(s, 0), n - 1);
    }
  }

  lemma TickLoopKeepsInv(s: State, n: nat)
    requires Inv(s) && s.depth == 0 && s.pending == []
    ensures var s' := TickLoop(s, n, 0);
            && Inv(s') && s'.now == s.now + n && s'.pended == s.pended && s'.delivered == s.delivered && s'.lost == s.lost
            && s'.depth == 0 && s'.pending == [] && s'.count == s.count
  {
    TickLoopStaysOk(s, n);
    TickLoopCounts(s, n);
  }

  lemma {:induction false} TickLoopOnlyCounts(s: State, n: nat, threshold: nat)
    requires threshold != 0
    ensures TickLoop(s, n, threshold) == s.(pended := s.pended + n)
    decreases n
  {
    if n > 0 {
      TickLoopOnlyCounts(s.(pended := s.pended + 1), n - 1, threshold);
    }
  }

  lemma BeforeTicksKeepsInv(s: State)
    requires Inv(s) && s.depth == 1
    ensures var b := BeforeTicks(s);
            && Inv(b) && b.pending == [] && b.depth == 0
            && b == s.(depth := 0, tasks := b.tasks, lists := b.lists, pending := b.pending, top := b.top, nextUnblock := b.nextUnblock)
            && b.tasks == PendingReadied(s.tasks)
  {
    var s0 := s.(depth := 0);
    ReadyPendingKeeps(s0, |s.pending|, s.now + 1, s.nextUnblock);
    ResetNextKeeps(ReadyPending(s0, |s.pending|), s.nextUnblock);
    PendingReadiedSize(s.tasks);
  }

  lemma PendingReadiedSize(tasks: map<nat, Task>)
    ensures |PendingReadied(tasks)| == |tasks|
  {
    assert PendingReadied(tasks).Keys == tasks.Keys;
  }

  /** prvResetNextTaskUnblockTime never sets the time too late. */
  lemma ResetNextKeeps(s: State, next: nat)
    requires ListsOk(s) && TasksOk(s, s.now + 1, next, {})
    ensures var s' := s.(nextUnblock := NextUnblock(s));
            ListsOk(s') && TasksOk(s', s.now + 1, s'.nextUnblock, {}) && s'.nextUnblock <= MAX_DELAY
  {
    NextUnblockIsTick(s);
    forall t | t in s.tasks
      ensures TaskOk(s.tasks[t], s.priorities, s.top, s.inA, s.now, s.now + 1, NextUnblock(s))
    {
      assert TaskOk(s.tasks[t], s.priorities, s.top, s.inA, s.now, s.now + 1, next);
      if s.tasks[t].home == CurrentList(s.inA) {
        NextUnblockIsLeast(s, t);
      }
    }
  }

  lemma AfterTicksKeepsInv(b: State, threshold: nat)
    requires Inv(b) && b.depth == 0 && b.pending == []
    ensures Inv(AfterTicks(b, threshold)) && AfterTicks(b, threshold).pending == []
  {
    if threshold == 0 {
      TickLoopKeepsInv(b, b.pended);
    } else {
      TickLoopOnlyCounts(b, b.pended, threshold);
    }
  }

  lemma BeforeTicksStarts(s: State)
    requires Inv(s) && s.depth > 0
    ensures var s0 := s.(depth := s.depth - 1);
            && ListsOk(s0) && TasksOk(s0, 0, 0, {})
            && (s0.depth == 0 ==> Inv(BeforeTicks(s)) && BeforeTicks(s).pending == [] && BeforeTicks(s).depth == 0)
  {
    var s0 := s.(depth := s.depth - 1);
    WeakerTasks(s0, s.now + 1, s.nextUnblock);
    if s0.depth == 0 {
      BeforeTicksKeepsInv(s);
    }
  }

  lemma PendedTickKeepsInv(s: State, threshold: nat)
    requires Inv(s) && s.depth == 0 && s.pending == []
    ensures var s' := IncrementTick(s, threshold); Inv(s') && s'.depth == 0 && s'.pending == []
  {
    if threshold == 0 {
      OneTickKeepsInv(s);
    }
  }

  lemma ResumedKeepsInv(s: State, threshold: nat)
    requires Inv(s) && s.depth > 0
    ensures Inv(Resumed(s, threshold))
    ensures s.depth == 1 && s.count > 0 ==> Resumed(s, threshold).pending == []
  {
    if s.depth == 1 && s.count == 0 {
      NoTasksNoPending(s);
    } else if s.depth == 1 {
      BeforeTicksKeepsInv(s);
      AfterTicksKeepsInv(BeforeTicks(s), threshold);
    }
  }

  lemma NoTasksNoPending(s: State)
    requires ListsOk(s) && |s.tasks| == 0
    ensures s.pending == []
  {
    assert s.tasks.Keys == {};
    assert s.pending != [] ==> Has(s.pending, s.pending[0].owner);
  }

  // ---------------------------------------------------------------- the other steps

  /** Every task but `t`, which is in transit, is where it should be. */
  ghost predicate InvBut(s: State, t: nat) {
    && ListsOk(s) && TasksOk(s, s.now + 1, s.nextUnblock, {t}) && t in s.tasks && s.tasks[t].priority < s.priorities
    && (s.pending != [] ==> s.depth > 0) && s.nextUnblock <= MAX_DELAY && s.count == |s.tasks|
  }

  lemma DetachKeepsRest(s: State, t: nat)
    requires InvBut(s, t) && s.tasks[t].home in s.lists
    ensures InvBut(Detach(s, t), t) && Detach(s, t).tasks[t] == s.tasks[t].(home := Nowhere)
    ensures Detach(s, t) == s.(tasks := s.tasks[t := s.tasks[t].(home := Nowhere)], lists := Detach(s, t).lists)
  {
    DetachIs(s, t);
    DetachKeepsLists(s, t);
    assert (s.tasks[t := s.tasks[t].(home := Nowhere)]).Keys == s.tasks.Keys;
  }

  lemma UntieKeepsRest(s: State, t: nat)
    requires InvBut(s, t) && s.tasks[t].home in s.lists
    ensures InvBut(Untied(s, t), t) && Untied(s, t).tasks[t] == s.tasks[t].(home := Nowhere, event := Unlisted)
    ensures Untied(s, t) == s.(tasks := s.tasks[t := s.tasks[t].(home := Nowhere, event := Unlisted)],
                               lists := Untied(s, t).lists, pending := Untied(s, t).pending)
  {
    UntieKeepsLists(s, t);
    assert Untied(s, t).tasks.Keys == s.tasks.Keys;
  }

  lemma WeakenInv(s: State, t: nat)
    requires Inv(s) && t in s.tasks
    ensures InvBut(s, t) && s.tasks[t].home in s.lists
  {
    assert TaskOk(s.tasks[t], s.priorities, s.top, s.inA, s.now, s.now + 1, s.nextUnblock);
  }

  lemma AttachKeepsInv(s: State, t: nat, id: ListId)
    requires InvBut(s, t) && s.tasks[t].home == Nowhere && (id == Suspended || (id == Terminated && s.tasks[t].event == Unlisted))
    ensures Inv(Attach(s, t, id))
    ensures Attach(s, t, id) == s.(tasks := s.tasks[t := s.tasks[t].(home := id)], lists := Attach(s, t, id).lists)
  {
    AttachKeepsLists(s, t, id);
    assert Attach(s, t, id).tasks.Keys == s.tasks.Keys;
  }

  lemma MakeReadyKeepsInv(s: State, t: nat)
    requires InvBut(s, t) && s.tasks[t].home == Nowhere && s.tasks[t].event == Unlisted
    ensures Inv(MakeReady(s, t))
  {
    MakeReadyKeeps(s, t);
    var s' := MakeReady(s, t);
    forall u | u in s'.tasks
      ensures TaskOk(s'.tasks[u], s'.priorities, s'.top, s'.inA, s'.now, s'.now + 1, s'.nextUnblock)
    {
      assert u != t ==> TaskOk(s.tasks[u], s.priorities, s.top, s.inA, s.now, s.now + 1, s.nextUnblock);
    }
    assert s'.tasks.Keys == s.tasks.Keys;
  }

  lemma TimedKeepsLists(s: State, t: nat, ticks: nat)
    requires ListsOk(s) && t in s.tasks && s.tasks[t].home == Nowhere
    ensures ListsOk(Timed(s, t, ticks))
  {
    ListsIgnoreNext(s, SoonerOf(s, ticks));
    UpdateKeepsLists(s.(nextUnblock := SoonerOf(s, ticks)), t, s.tasks[t].(due := s.now + ticks));
  }

  lemma DelayForKeepsLists(s: State, t: nat, ticks: nat)
    requires ListsOk(s) && t in s.tasks && s.tasks[t].home == Nowhere
    ensures ListsOk(DelayFor(s, t, ticks))
  {
    TimedKeepsLists(s, t, ticks);
    AttachInOrderKeepsLists(Timed(s, t, ticks), t, WakeList(s, ticks));
  }

  lemma DelayForIs(s: State, t: nat, ticks: nat)
    requires t in s.tasks && WakeList(s, ticks) in s.lists
    ensures var s' := DelayFor(s, t, ticks);
            && s'.tasks == s.tasks[t := s.tasks[t].(due := s.now + ticks, home := WakeList(s, ticks))]
            && s' == s.(tasks := s'.tasks, lists := s'.lists, nextUnblock := SoonerOf(s, ticks))
  {
  }

  lemma WakeTick(now: nat, ticks: nat)
    ensures TickAdd(TickOf(now), ticks) == TickOf(now + ticks)
  {
  }

  lemma DelayForShape(s: State, t: nat, ticks: nat, wake: nat)
    requires t in s.tasks && WakeList(s, ticks) in s.lists && wake == TickOf(s.now + ticks)
    ensures DelayFor(s, t, ticks) == InsertedIn(s, t, ticks, WakeList(s, ticks), wake).(nextUnblock := SoonerOf(s, ticks))
  {
  }

  lemma InsertedIs(s: State, t: nat, ticks: nat, wake: nat)
    requires t in s.tasks && DelayedA in s.lists && DelayedB in s.lists && wake == TickAdd(TickOf(s.now), ticks)
    ensures wake < TickOf(s.now) ==>
              DelayFor(s, t, ticks) == InsertedIn(s, t, ticks, OverflowList(s.inA), wake)
    ensures wake >= TickOf(s.now) ==>
              DelayFor(s, t, ticks) == InsertedIn(s, t, ticks, CurrentList(s.inA), wake).(
                nextUnblock := if wake < s.nextUnblock then wake else s.nextUnblock)
  {
    WakeTick(s.now, ticks);
    DelayForShape(s, t, ticks, wake);
  }

  ghost function InsertedIn(s: State, t: nat, ticks: nat, id: ListId, wake: nat): State
    requires t in s.tasks && id in s.lists
  {
    s.(tasks := s.tasks[t := s.tasks[t].(due := s.now + ticks, home := id)],
       lists := s.lists[id := InsertInOrder(s.lists[id], Item(t, wake))])
  }

  lemma ListsIgnoreNext(s: State, next: nat)
    requires ListsOk(s)
    ensures ListsOk(s.(nextUnblock := next))
  {
  }

  /** The 32-bit comparison tells whether the wake time is in this round of the tick count or the next. */
  lemma WakeListIsRight(s: State, ticks: nat)
    requires 0 < ticks <= MAX_DELAY
    ensures TickAdd(TickOf(s.now), ticks) == TickOf(s.now + ticks)
    ensures EpochOf(s.now + ticks) == EpochOf(s.now) + (if WakeList(s, ticks) == CurrentList(s.inA) then 0 else 1)
  {
    WithinOneWrap(s.now, s.now + ticks);
  }

  lemma DelayedTaskOk(s: State, t: nat, ticks: nat)
    requires t in s.tasks && s.tasks[t].priority < s.priorities && 0 < ticks <= MAX_DELAY
    ensures TaskOk(s.tasks[t].(due := s.now + ticks, home := WakeList(s, ticks)), s.priorities, s.top, s.inA, s.now,
                   s.now + 1, SoonerOf(s, ticks))
  {
    WakeListIsRight(s, ticks);
  }

  lemma DelayForKeepsInv(s: State, t: nat, ticks: nat)
    requires InvBut(s, t) && s.tasks[t].home == Nowhere && 0 < ticks <= MAX_DELAY
    ensures Inv(DelayFor(s, t, ticks))
  {
    var s' := DelayFor(s, t, ticks);
    DelayForKeepsLists(s, t, ticks);
    DelayForIs(s, t, ticks);
    forall k | k in s'.tasks
      ensures TaskOk(s'.tasks[k], s'.priorities, s'.top, s'.inA, s'.now, s'.now + 1, s'.nextUnblock)
    {
      if k == t {
        DelayedTaskOk(s, t, ticks);
      } else {
        assert TaskOk(s.tasks[k], s.priorities, s.top, s.inA, s.now, s.now + 1, s.nextUnblock);
      }
    }
    assert s'.tasks.Keys == s.tasks.Keys;
  }

  lemma BlockForKeepsInv(s: State, t: nat, ticks: nat, forEver: bool)
    requires InvBut(s, t) && s.tasks[t].home in s.lists && 0 < ticks <= MAX_DELAY
    ensures Inv(BlockFor(s, t, ticks, forEver))
  {
    DetachKeepsRest(s, t);
    if ticks == MAX_DELAY && forEver {
      AttachKeepsInv(Detach(s, t), t, Suspended);
    } else {
      DelayForKeepsInv(Detach(s, t), t, ticks);
    }
  }

  lemma UpdateKeepsRest(s: State, t: nat, task: Task)
    requires InvBut(s, t) && task.home == s.tasks[t].home && task.due == s.tasks[t].due
    requires (task.event == Pending <==> s.tasks[t].event == Pending) && task.priority < s.priorities
    ensures InvBut(Update(s, t, task), t)
  {
    UpdateKeepsLists(s, t, task);
    assert Update(s, t, task).tasks.Keys == s.tasks.Keys;
  }

  lemma AwaitingKeepsInv(s: State, t: nat, ticks: nat)
    requires Inv(s) && t in s.tasks && s.tasks[t].home.Ready? && 0 < ticks <= MAX_DELAY
    ensures Inv(Awaiting(s, t, ticks))
  {
    WeakenInv(s, t);
    assert TaskOk(s.tasks[t], s.priorities, s.top, s.inA, s.now, s.now + 1, s.nextUnblock);
    UpdateKeepsRest(s, t, s.tasks[t].(event := Waiting));
    BlockForKeepsInv(Update(s, t, s.tasks[t].(event := Waiting)), t, ticks, true);
  }

  lemma ReadiedKeepsInv(s: State, t: nat)
    requires Inv(s) && t in s.tasks
    ensures Inv(Readied(s, t))
  {
    WeakenInv(s, t);
    UntieKeepsRest(s, t);
    MakeReadyKeepsInv(Untied(s, t), t);
  }

  lemma PendKeepsLists(s: State, t: nat)
    requires ListsOk(s) && t in s.tasks && s.tasks[t].event == Waiting
    ensures ListsOk(Update(s, t, s.tasks[t].(event := Pending)).(pending := InsertAt(s.pending, |s.pending|, Item(t, 0))))
  {
    var task := s.tasks[t].(event := Pending);
    forall id | id in s.lists
      ensures ListOk(s.tasks[t := task], s.lists[id], id)
    {
      assert ListOk(s.tasks, s.lists[id], id);
      ListFrame(s.tasks, s.lists[id], id, t, task);
    }
    DelayedFrame(s.tasks, Items(s, DelayedA), t, task);
    DelayedFrame(s.tasks, Items(s, DelayedB), t, task);
    InsertKeepsMembers(s.pending, |s.pending|, Item(t, 0));
  }

  lemma SignalledKeepsInv(s: State, t: nat)
    requires Inv(s) && t in s.tasks && s.tasks[t].event == Waiting
    ensures Inv(Signalled(s, t))
  {
    if s.depth == 0 {
      ReadiedKeepsInv(s, t);
    } else {
      PendKeepsLists(s, t);
      var s' := Signalled(s, t);
      forall k | k in s'.tasks
        ensures TaskOk(s'.tasks[k], s'.priorities, s'.top, s'.inA, s'.now, s'.now + 1, s'.nextUnblock)
      {
        assert TaskOk(s.tasks[k], s.priorities, s.top, s.inA, s.now, s.now + 1, s.nextUnblock);
      }
      assert s'.tasks.Keys == s.tasks.Keys;
    }
  }

  lemma ResetKeepsInv(s: State)
    requires Inv(s)
    ensures Inv(s.(nextUnblock := NextUnblock(s)))
  {
    ResetNextKeeps(s, s.nextUnblock);
  }

  lemma SuspendedKeepsInv(s: State, t: nat)
    requires Inv(s) && t in s.tasks
    ensures Inv(SuspendedTask(s, t))
  {
    WeakenInv(s, t);
    UntieKeepsRest(s, t);
    AttachKeepsInv(Untied(s, t), t, Suspended);
    ResetKeepsInv(Attach(Untied(s, t), t, Suspended));
  }

  lemma ReprioritisedKeepsInv(s: State, t: nat, priority: nat)
    requires Inv(s) && t in s.tasks && priority < s.priorities
    ensures Inv(Reprioritised(s, t, priority))
  {
    WeakenInv(s, t);
    assert TaskOk(s.tasks[t], s.priorities, s.top, s.inA, s.now, s.now + 1, s.nextUnblock);
    if s.tasks[t].home.Ready? {
      DetachKeepsRest(s, t);
      var d := Detach(s, t);
      UpdateKeepsRest(d, t, d.tasks[t].(priority := priority));
      MakeReadyKeepsInv(Update(d, t, d.tasks[t].(priority := priority)), t);
    } else {
      UpdateKeepsRest(s, t, s.tasks[t].(priority := priority));
    }
  }

  lemma DropKeepsLists(s: State, t: nat)
    requires ListsOk(s) && t in s.tasks && s.tasks[t].home == Nowhere && s.tasks[t].event == Unlisted
    ensures ListsOk(s.(tasks := s.tasks - {t}))
  {
    var tasks' := s.tasks - {t};
    forall id | id in s.lists
      ensures ListOk(tasks', s.lists[id], id) && !Has(s.lists[id].items, t)
    {
      assert ListOk(s.tasks, s.lists[id], id);
    }
    DelayedDrop(s.tasks, Items(s, DelayedA), t);
    DelayedDrop(s.tasks, Items(s, DelayedB), t);
  }

  lemma DelayedDrop(tasks: map<nat, Task>, items: seq<Item>, t: nat)
    requires DelayedOk(tasks, items) && !Has(items, t)
    ensures DelayedOk(tasks - {t}, items)
  {
    assert forall k | 0 <= k < |items| :: Has(items, items[k].owner);
  }

  lemma ForgottenKeepsInv(s: State, t: nat)
    requires Inv(s) && t in s.tasks
    ensures Inv(Forgotten(s, t))
  {
    WeakenInv(s, t);
    UntieKeepsRest(s, t);
    var u := Untied(s, t);
    DropKeepsLists(u, t);
    assert (u.tasks - {t}).Keys == u.tasks.Keys - {t};
    assert |u.tasks - {t}| == |u.tasks| - 1;
  }

  lemma DeletedKeepsInv(s: State, t: nat)
    requires Inv(s) && t in s.tasks
    ensures Inv(Deleted(s, t))
  {
    if t == s.running {
      WeakenInv(s, t);
      UntieKeepsRest(s, t);
      AttachKeepsInv(Untied(s, t), t, Terminated);
    } else {
      ForgottenKeepsInv(s, t);
      ResetKeepsInv(Forgotten(s, t));
    }
  }

  lemma NewTaskKeepsLists(s: State, t: nat, task: Task)
    requires ListsOk(s) && t !in s.tasks && task.home == Nowhere && task.event == Unlisted
    ensures ListsOk(Update(s, t, task))
  {
    forall id | id in s.lists
      ensures ListOk(s.tasks[t := task], s.lists[id], id) && !Has(s.lists[id].items, t)
    {
      assert ListOk(s.tasks, s.lists[id], id);
      ListFrame(s.tasks, s.lists[id], id, t, task);
    }
    DelayedFrame(s.tasks, Items(s, DelayedA), t, task);
    DelayedFrame(s.tasks, Items(s, DelayedB), t, task);
    PendingFrame(s.tasks, s.pending, t, task);
  }

  lemma NewTaskKeepsTasks(s: State, t: nat, task: Task)
    requires TasksOk(s, s.now + 1, s.nextUnblock, {}) && t !in s.tasks
    ensures TasksOk(Update(s, t, task), s.now + 1, s.nextUnblock, {t})
  {
    forall k | k in s.tasks
      ensures TaskOk(s.tasks[k], s.priorities, s.top, s.inA, s.now, s.now + 1, s.nextUnblock)
    {
    }
  }

  lemma OneMoreTask(tasks: map<nat, Task>, t: nat, task: Task)
    requires t !in tasks
    ensures |tasks[t := task]| == |tasks| + 1
  {
    assert tasks[t := task].Keys == tasks.Keys + {t};
  }

  lemma CountFrame(s: State, count: nat, t: nat)
    requires ListsOk(s) && TasksOk(s, s.now + 1, s.nextUnblock, {t})
    ensures ListsOk(s.(count := count)) && TasksOk(s.(count := count), s.now + 1, s.nextUnblock, {t})
  {
  }

  lemma AddedKeepsRest(s: State, t: nat, priority: nat)
    requires Inv(s) && t !in s.tasks && priority < s.priorities
    ensures InvBut(Added(s, t, priority), t)
  {
    NewTaskKeepsLists(s, t, Task(priority, Nowhere, Unlisted, 0));
    NewTaskKeepsTasks(s, t, Task(priority, Nowhere, Unlisted, 0));
    CountFrame(Update(s, t, Task(priority, Nowhere, Unlisted, 0)), s.count + 1, t);
    OneMoreTask(s.tasks, t, Task(priority, Nowhere, Unlisted, 0));
  }

  lemma CreatedKeepsInv(s: State, t: nat, priority: nat)
    requires Inv(s) && t !in s.tasks && priority < s.priorities
    ensures Inv(Created(s, t, priority))
  {
    AddedKeepsRest(s, t, priority);
    MakeReadyKeepsInv(Added(s, t, priority), t);
  }

  // ---------------------------------------------------------------- choosing the task to run

  lemma {:induction false} HighestReadyIs(s: State, p: nat)
    ensures var r := HighestReady(s, p);
            && r <= p && (forall q | r < q <= p :: Items(s, Ready(q)) == [])
            && (Items(s, Ready(r)) != [] || r == 0)
    decreases p
  {
    if p != 0 && Items(s, Ready(p)) == [] {
      HighestReadyIs(s, p - 1);
    }
  }

  lemma HighestReadyBounds(s: State, t: nat)
    requires Inv(s) && t in s.tasks && s.tasks[t].home.Ready?
    ensures s.tasks[t].priority <= HighestReady(s, s.top)
    ensures Ready(HighestReady(s, s.top)) in s.lists && s.lists[Ready(HighestReady(s, s.top))].items != []
  {
    HighestReadyIs(s, s.top);
    assert TaskOk(s.tasks[t], s.priorities, s.top, s.inA, s.now, s.now + 1, s.nextUnblock);
    var q := s.tasks[t].priority;
    assert ListOk(s.tasks, s.lists[Ready(q)], Ready(q));
    assert Items(s, Ready(q)) != [];
  }

  lemma AdvanceKeepsLists(s: State, p: nat, top: nat)
    requires ListsOk(s) && Ready(p) in s.lists && s.lists[Ready(p)].items != [] && top < s.priorities
    requires s.lists[Ready(p)].index <= |s.lists[Ready(p)].items|
    ensures ListsOk(s.(lists := s.lists[Ready(p) := Advance(s.lists[Ready(p)])], top := top))
  {
    var s' := s.(lists := s.lists[Ready(p) := Advance(s.lists[Ready(p)])], top := top);
    forall id | id in s'.lists
      ensures ListOk(s'.tasks, s'.lists[id], id)
    {
      assert ListOk(s.tasks, s.lists[id], id);
    }
  }

  lemma SwitchedKeepsInv(s: State)
    requires Inv(s)
    ensures Inv(Switched(s))
  {
    var p := HighestReady(s, s.top);
    HighestReadyIs(s, s.top);
    if Ready(p) in s.lists && s.lists[Ready(p)].items != [] && s.lists[Ready(p)].index <= |s.lists[Ready(p)].items| {
      AdvanceKeepsLists(s, p, p);
      var s' := Switched(s);
      forall t | t in s.tasks
        ensures TaskOk(s'.tasks[t], s'.priorities, s'.top, s'.inA, s'.now, s'.now + 1, s'.nextUnblock)
      {
        assert TaskOk(s.tasks[t], s.priorities, s.top, s.inA, s.now, s.now + 1, s.nextUnblock);
        if s.tasks[t].home.Ready? {
          HighestReadyBounds(s, t);
        }
      }
    }
  }

  ghost predicate Moves(e: Event) {
    e.Suspend? || e.Resume? || e.Reprioritise? || e.Delete? || e.CleanUp? || e.Signal?
  }

  lemma MoveKeepsInv(s: State, e: Event)
    requires Inv(s) && Moves(e) && Enabled(s, e)
    ensures Inv(Step(s, e))
  {
    match e {
      case Signal(t) => SignalledKeepsInv(s, t);
      case Suspend(t) => SuspendedKeepsInv(s, t);
      case Resume(t) => ReadiedKeepsInv(s, t);
      case Reprioritise(t, priority) => ReprioritisedKeepsInv(s, t, priority);
      case Delete(t) => DeletedKeepsInv(s, t);
      case CleanUp(t) => ForgottenKeepsInv(s, t);
      case _ =>
    }
  }

  lemma IncrementTickKeepsInv(s: State, threshold: nat)
    requires Inv(s)
    ensures Inv(IncrementTick(s, threshold))
  {
    if s.depth == 0 && threshold == 0 {
      TickKeepsInv(s);
    }
  }

  lemma DeliveryKeepsInv(s: State)
    requires Inv(s)
    ensures Inv(Counted(s))
  {
  }

  lemma TickStepKeepsInv(s: State, threshold: nat)
    requires Inv(s)
    ensures Inv(TickHandled(s, threshold))
  {
    DeliveryKeepsInv(s);
    IncrementTickKeepsInv(Counted(s), threshold);
  }

  lemma ResumeStepKeepsInv(s: State, threshold: nat)
    requires Inv(s)
    ensures Inv(Step(s, ResumeAll(threshold)))
  {
    if s.depth > 0 {
      ResumedKeepsInv(s, threshold);
    }
  }

  lemma ClockKeepsInv(s: State, e: Event)
    requires Inv(s) && (e.Tick? || e.SuspendAll? || e.ResumeAll?) && Enabled(s, e)
    ensures Inv(Step(s, e))
  {
    match e {
      case Tick(threshold) => TickStepKeepsInv(s, threshold);
      case ResumeAll(threshold) => ResumeStepKeepsInv(s, threshold);
      case _ =>
    }
  }

  lemma RunKeepsInv(s: State, e: Event)
    requires Inv(s) && (e.Create? || e.Switch? || e.Delay? || e.Await?) && Enabled(s, e)
    ensures Inv(Step(s, e))
  {
    match e {
      case Create(t, priority) => CreatedKeepsInv(s, t, priority);
      case Switch => SwitchedKeepsInv(s);
      case Delay(ticks) =>
        WeakenInv(s, s.running);
        BlockForKeepsInv(s, s.running, ticks, false);
      case Await(ticks) => AwaitingKeepsInv(s, s.running, ticks);
      case _ =>
    }
  }

  lemma StepKeepsInv(s: State, e: Event)
    requires Inv(s)
    ensures Inv(Step(s, e))
  {
    if Enabled(s, e) {
      if Moves(e) {
        MoveKeepsInv(s, e);
      } else if e.Tick? || e.SuspendAll? || e.ResumeAll? {
        ClockKeepsInv(s, e);
      } else {
        RunKeepsInv(s, e);
      }
    }
  }

  lemma {:induction false} ExecKeepsInv(s: State, es: seq<Event>)
    requires Inv(s)
    ensures Inv(Exec(s, es))
    decreases |es|
  {
    if es != [] {
      StepKeepsInv(s, es[0]);
      ExecKeepsInv(Step(s, es[0]), es[1..]);
    }
  }

  lemma InitIsOk(priorities: nat, now: nat)
    requires priorities > 0
    ensures Inv(Init(priorities, now))
  {
    var s := Init(priorities, now);
    assert forall id :: id in s.lists <==> IsList(priorities, id);
  }

  // ---------------------------------------------------------------- one list for every task

  /** In every reachable state each task is on exactly one state list, a ready one on the list of its
      priority; uxTopReadyPriority bounds the ready lists; nobody is left pending once the scheduler runs;
      and uxCurrentNumberOfTasks counts exactly the tasks on the lists. */
  lemma StatePartition(priorities: nat, now: nat, es: seq<Event>)
    requires priorities > 0
    ensures var s := Exec(Init(priorities, now), es);
            && (forall t, id | t in s.tasks && id in s.lists :: Has(s.lists[id].items, t) <==> s.tasks[t].home == id)
            && (forall t | t in s.tasks :: s.tasks[t].home in s.lists)
            && (forall t, id | id in s.lists && Has(s.lists[id].items, t) :: t in s.tasks)
            && (forall id | id in s.lists :: Distinct(s.lists[id].items))
            && (forall t | t in s.tasks && s.tasks[t].home.Ready? :: s.tasks[t].home.p == s.tasks[t].priority <= s.top)
            && (s.depth == 0 ==> s.pending == [])
            && s.count == |s.tasks|
  {
    InitIsOk(priorities, now);
    ExecKeepsInv(Init(priorities, now), es);
    var s := Exec(Init(priorities, now), es);
    forall id | id in s.lists
      ensures ListOk(s.tasks, s.lists[id], id)
    {
    }
    forall t | t in s.tasks
      ensures TaskOk(s.tasks[t], s.priorities, s.top, s.inA, s.now, s.now + 1, s.nextUnblock)
    {
    }
  }

  lemma SwitchSelects(s: State, t: nat)
    requires Inv(s) && t in s.tasks && s.tasks[t].home.Ready?
    ensures var s' := Switched(s);
            && s'.tasks == s.tasks && s'.running in s.tasks && s.tasks[s'.running].home.Ready?
            && s.tasks[t].priority <= s.tasks[s'.running].priority
  {
    HighestReadyBounds(s, t);
    var p := HighestReady(s, s.top);
    assert ListOk(s.tasks, s.lists[Ready(p)], Ready(p));
    var l := Advance(s.lists[Ready(p)]);
    assert Has(l.items, Selected(l));
    assert TaskOk(s.tasks[Selected(l)], s.priorities, s.top, s.inA, s.now, s.now + 1, s.nextUnblock);
  }

  /** Hence an unsuspended context switch picks a ready task that no ready task exceeds in priority. */
  lemma SwitchSelectsHighest(priorities: nat, now: nat, es: seq<Event>, t: nat)
    requires priorities > 0
    ensures var s := Exec(Init(priorities, now), es);
            var s' := Step(s, Switch);
            s.depth == 0 && t in s.tasks && s.tasks[t].home.Ready? ==>
              && s'.running in s'.tasks && s'.tasks[s'.running].home.Ready?
              && s.tasks[t].priority <= s'.tasks[s'.running].priority
  {
    InitIsOk(priorities, now);
    ExecKeepsInv(Init(priorities, now), es);
    var s := Exec(Init(priorities, now), es);
    if s.depth == 0 && t in s.tasks && s.tasks[t].home.Ready? {
      SwitchSelects(s, t);
    }
  }

  // ---------------------------------------------------------------- exact wake-up

  ghost predicate Delayed(t: Task) {
    t.home == DelayedA || t.home == DelayedB
  }

  /** What `n` ticks from `now` on make of a task. */
  ghost function AfterTicksOf(t: Task, now: nat, n: nat): Task {
    if Delayed(t) && now < t.due <= now + n then t.(home := Ready(t.priority), event := Unlisted) else t
  }

  lemma TickWakes(s: State, t: nat)
    requires Inv(s) && t in s.tasks
    requires s.depth == 0
    ensures var s' := IncrementTick(s, 0);
            && t in s'.tasks && s'.tasks[t] == Wakes(s.tasks[t], s.now + 1) && s'.now == s.now + 1
            && (Delayed(s.tasks[t]) ==> s.now < s.tasks[t].due)
  {
    TickIsExact(s);
    assert TaskOk(s.tasks[t], s.priorities, s.top, s.inA, s.now, s.now + 1, s.nextUnblock);
  }

  lemma OneTickThenMore(t: Task, now: nat, n: nat)
    requires n > 0 && (Delayed(t) ==> now < t.due)
    ensures AfterTicksOf(Wakes(t, now + 1), now + 1, n - 1) == AfterTicksOf(t, now, n)
  {
  }

  lemma {:induction false} TickLoopWakes(s: State, n: nat, t: nat)
    requires Inv(s) && s.depth == 0 && s.pending == [] && t in s.tasks
    ensures t in TickLoop(s, n, 0).tasks && TickLoop(s, n, 0).tasks[t] == AfterTicksOf(s.tasks[t], s.now, n)
    decreases n
  {
    if n > 0 {
      PendedTickKeepsInv(s, 0);
      TickWakes(s, t);
      TickLoopWakes(IncrementTick(s, 0), n - 1, t);
      OneTickThenMore(s.tasks[t], s.now, n);
    }
  }

  /** `t` is delayed until `due`, and no event has come for it. */
  ghost predicate Asleep(s: State, t: nat, due: nat) {
    t in s.tasks && Delayed(s.tasks[t]) && s.tasks[t].due == due && s.tasks[t].event != Pending
  }

  /** The events that end a delay early. */
  ghost predicate Disturbs(e: Event, t: nat) {
    e == Signal(t) || e == Suspend(t) || e == Delete(t)
  }

  /** `t` goes through a step: either it is still asleep before its time, or it is ready at it. */
  ghost predicate OnTime(s': State, t: nat, due: nat) {
    && (s'.now < due ==> Asleep(s', t, due))
    && (s'.now >= due ==> t in s'.tasks && s'.tasks[t].home == Ready(s'.tasks[t].priority))
  }

  lemma AfterTicksIsOnTime(b: State, threshold: nat, t: nat, due: nat)
    requires Inv(b) && Asleep(b, t, due) && b.now < due && b.depth == 0 && b.pending == []
    ensures OnTime(AfterTicks(b, threshold), t, due)
  {
    if threshold == 0 {
      TickLoopWakes(b, b.pended, t);
      TickLoopKeepsInv(b, b.pended);
    } else {
      TickLoopOnlyCounts(b, b.pended, threshold);
    }
  }

  lemma ResumeIsOnTime(s: State, threshold: nat, t: nat, due: nat)
    requires Inv(s) && Asleep(s, t, due) && s.now < due && s.depth > 0
    ensures OnTime(Resumed(s, threshold), t, due)
  {
    if s.depth == 1 && s.count > 0 {
      BeforeTicksKeepsInv(s);
      AfterTicksIsOnTime(BeforeTicks(s), threshold, t, due);
    }
  }

  lemma TickIsOnTime(s: State, threshold: nat, t: nat, due: nat)
    requires Inv(s) && Asleep(s, t, due) && s.now < due
    ensures var s' := IncrementTick(s, threshold); OnTime(s', t, due) && s.now <= s'.now <= s.now + 1
  {
    if s.depth == 0 && threshold == 0 {
      TickIsExact(s);
    }
  }

  /** The step takes no time, handles no tick, changes no task but `u`, and leaves it at that which task runs. */
  ghost predicate Touches(s: State, s': State, u: nat) {
    && s'.now == s.now && s'.pended == s.pended && s'.delivered == s.delivered && s'.lost == s.lost
    && s'.running == s.running && s'.depth == s.depth
    && forall t {:trigger s'.tasks[t]} {:trigger t in s'.tasks} | t != u ::
         (t in s'.tasks <==> t in s.tasks) && (t in s.tasks ==> s'.tasks[t] == s.tasks[t])
  }

  lemma DetachTouches(s: State, u: nat)
    requires u in s.tasks
    ensures Touches(s, Detach(s, u), u) && u in Detach(s, u).tasks
  {
  }

  lemma AttachTouches(s: State, u: nat, id: ListId)
    requires u in s.tasks
    ensures Touches(s, Attach(s, u, id), u)
  {
  }

  lemma MakeReadyTouches(s: State, u: nat)
    requires u in s.tasks
    ensures Touches(s, MakeReady(s, u), u)
  {
    AttachTouches(s, u, Ready(s.tasks[u].priority));
  }

  lemma UntiedTouches(s: State, u: nat)
    requires u in s.tasks
    ensures Touches(s, Untied(s, u), u) && u in Untied(s, u).tasks
  {
    DetachTouches(s, u);
  }

  lemma ReadiedTouches(s: State, u: nat)
    requires u in s.tasks
    ensures Touches(s, Readied(s, u), u)
  {
    UntiedTouches(s, u);
    MakeReadyTouches(Untied(s, u), u);
  }

  lemma ReprioritisedTouches(s: State, u: nat, priority: nat)
    requires u in s.tasks
    ensures Touches(s, Reprioritised(s, u, priority), u)
  {
    if s.tasks[u].home.Ready? {
      DetachTouches(s, u);
      var d := Detach(s, u);
      MakeReadyTouches(Update(d, u, d.tasks[u].(priority := priority)), u);
    }
  }

  lemma SuspendedTouches(s: State, u: nat)
    requires u in s.tasks
    ensures Touches(s, SuspendedTask(s, u), u)
  {
    UntiedTouches(s, u);
    AttachTouches(Untied(s, u), u, Suspended);
  }

  lemma DeletedTouches(s: State, u: nat)
    requires u in s.tasks
    ensures Touches(s, Deleted(s, u), u) && Touches(s, Forgotten(s, u), u)
  {
    UntiedTouches(s, u);
    AttachTouches(Untied(s, u), u, Terminated);
  }

  lemma DelayForTouches(s: State, u: nat, ticks: nat)
    requires u in s.tasks
    ensures Touches(s, DelayFor(s, u, ticks), u)
  {
  }

  lemma BlockForTouches(s: State, u: nat, ticks: nat, forEver: bool)
    requires u in s.tasks
    ensures Touches(s, BlockFor(s, u, ticks, forEver), u)
  {
    DetachTouches(s, u);
    AttachTouches(Detach(s, u), u, Suspended);
    DelayForTouches(Detach(s, u), u, ticks);
  }

  lemma AwaitingTouches(s: State, u: nat, ticks: nat)
    requires u in s.tasks
    ensures Touches(s, Awaiting(s, u, ticks), u)
  {
    BlockForTouches(Update(s, u, s.tasks[u].(event := Waiting)), u, ticks, true);
  }

  lemma MoveTouches(s: State, e: Event)
    requires Enabled(s, e) && Moves(e)
    ensures Touches(s, Step(s, e), e.t)
  {
    match e {
      case Signal(u) => ReadiedTouches(s, u);
      case Suspend(u) => SuspendedTouches(s, u);
      case Resume(u) => ReadiedTouches(s, u);
      case Reprioritise(u, priority) => ReprioritisedTouches(s, u, priority);
      case Delete(u) => DeletedTouches(s, u);
      case CleanUp(u) => DeletedTouches(s, u);
      case _ =>
    }
  }

  /** What each of these calls is to make of the task it names, with the scheduler running or not. */
  ghost predicate AsAsked(s: State, s': State, e: Event)
    requires Moves(e) && e.t in s.tasks
  {
    var before := s.tasks[e.t];
    match e
    case Signal(t) =>
      t in s'.tasks &&
      s'.tasks[t] == if s.depth == 0 then before.(home := Ready(before.priority), event := Unlisted) else before.(event := Pending)
    case Suspend(t) => t in s'.tasks && s'.tasks[t] == before.(home := Suspended, event := Unlisted)
    case Resume(t) => t in s'.tasks && s'.tasks[t] == before.(home := Ready(before.priority))
    case Reprioritise(t, priority) =>
      t in s'.tasks &&
      s'.tasks[t] == before.(priority := priority, home := if before.home.Ready? then Ready(priority) else before.home)
    case Delete(t) =>
      if t == s.running then t in s'.tasks && s'.tasks[t] == before.(home := Terminated, event := Unlisted) else t !in s'.tasks
    case CleanUp(t) => t !in s'.tasks
  }

  lemma ReadiedIs(s: State, t: nat)
    requires Inv(s) && t in s.tasks
    ensures t in Readied(s, t).tasks
    ensures Readied(s, t).tasks[t] == s.tasks[t].(home := Ready(s.tasks[t].priority), event := Unlisted)
  {
    WeakenInv(s, t);
    UntieKeepsLists(s, t);
    MakeReadyKeeps(Untied(s, t), t);
  }

  lemma SuspendedIs(s: State, t: nat)
    requires Inv(s) && t in s.tasks
    ensures t in SuspendedTask(s, t).tasks
    ensures SuspendedTask(s, t).tasks[t] == s.tasks[t].(home := Suspended, event := Unlisted)
  {
    WeakenInv(s, t);
    UntieKeepsRest(s, t);
    AttachKeepsInv(Untied(s, t), t, Suspended);
  }

  lemma DeletedIs(s: State, t: nat)
    requires Inv(s) && t in s.tasks
    ensures t == s.running ==> t in Deleted(s, t).tasks && Deleted(s, t).tasks[t] == s.tasks[t].(home := Terminated, event := Unlisted)
    ensures t != s.running ==> t !in Deleted(s, t).tasks
  {
    WeakenInv(s, t);
    UntieKeepsRest(s, t);
    AttachKeepsInv(Untied(s, t), t, Terminated);
  }

  lemma ReprioritisedIs(s: State, t: nat, priority: nat)
    requires Inv(s) && t in s.tasks && priority < s.priorities
    ensures t in Reprioritised(s, t, priority).tasks
    ensures Reprioritised(s, t, priority).tasks[t] ==
            s.tasks[t].(priority := priority, home := if s.tasks[t].home.Ready? then Ready(priority) else s.tasks[t].home)
  {
    if s.tasks[t].home.Ready? {
      WeakenInv(s, t);
      DetachKeepsRest(s, t);
      var d := Detach(s, t);
      UpdateKeepsRest(d, t, d.tasks[t].(priority := priority));
      MakeReadyKeeps(Update(d, t, d.tasks[t].(priority := priority)), t);
    }
  }

  /** Each call does to its task what it is asked to, and nothing to any other. */
  lemma MoveIsAsAsked(s: State, e: Event)
    requires Inv(s) && Moves(e) && Enabled(s, e)
    ensures AsAsked(s, Step(s, e), e) && Touches(s, Step(s, e), e.t)
  {
    MoveTouches(s, e);
    match e {
      case Signal(t) => ReadiedIs(s, t);
      case Suspend(t) => SuspendedIs(s, t);
      case Resume(t) => ReadiedIs(s, t);
      case Reprioritise(t, priority) => ReprioritisedIs(s, t, priority);
      case Delete(t) => DeletedIs(s, t);
      case CleanUp(t) =>
    }
  }

  ghost predicate Runs(e: Event) {
    e.Create? || e.Switch? || e.Delay? || e.Await?
  }

  lemma RunTouches(s: State, e: Event)
    requires Enabled(s, e) && Runs(e)
    ensures !e.Switch? ==> Touches(s, Step(s, e), if e.Create? then e.t else s.running)
    ensures e.Switch? ==> Step(s, e) == s.(lists := Step(s, e).lists, running := Step(s, e).running, top := Step(s, e).top)
  {
    match e {
      case Create(u, priority) => MakeReadyTouches(Added(s, u, priority), u);
      case Delay(ticks) => BlockForTouches(s, s.running, ticks, false);
      case Await(ticks) => AwaitingTouches(s, s.running, ticks);
      case _ =>
    }
  }

  lemma TickStepIsOnTime(s: State, threshold: nat, t: nat, due: nat)
    requires Inv(s) && Asleep(s, t, due) && s.now < due
    ensures OnTime(TickHandled(s, threshold), t, due)
  {
    DeliveryKeepsInv(s);
    TickIsOnTime(Counted(s), threshold, t, due);
  }

  lemma ResumeStepIsOnTime(s: State, threshold: nat, t: nat, due: nat)
    requires Inv(s) && Asleep(s, t, due) && s.now < due
    ensures OnTime(Step(s, ResumeAll(threshold)), t, due)
  {
    if s.depth > 0 {
      ResumeIsOnTime(s, threshold, t, due);
    }
  }

  lemma OwnMoveIsOnTime(s: State, e: Event, t: nat, due: nat)
    requires Asleep(s, t, due) && s.now < due && Enabled(s, e) && Moves(e) && e.t == t && !Disturbs(e, t)
    ensures OnTime(Step(s, e), t, due)
  {
    assert e.Reprioritise?;
  }

  lemma RunIsOnTime(s: State, e: Event, t: nat, due: nat)
    requires Asleep(s, t, due) && s.now < due && Enabled(s, e) && Runs(e)
    ensures OnTime(Step(s, e), t, due)
  {
    RunTouches(s, e);
    if e.Switch? {
      assert Step(s, e).tasks == s.tasks;
    }
  }

  lemma StepIsOnTime(s: State, e: Event, t: nat, due: nat)
    requires Inv(s) && Asleep(s, t, due) && s.now < due && !Disturbs(e, t)
    ensures OnTime(Step(s, e), t, due)
  {
    if Enabled(s, e) {
      if e.Tick? {
        TickStepIsOnTime(s, e.threshold, t, due);
      } else if e.ResumeAll? {
        ResumeStepIsOnTime(s, e.threshold, t, due);
      } else if e.SuspendAll? {
      } else if Runs(e) {
        RunIsOnTime(s, e, t, due);
      } else if e.t == t {
        OwnMoveIsOnTime(s, e, t, due);
      } else {
        MoveTouches(s, e);
      }
    }
  }

  ghost predicate Undisturbed(es: seq<Event>, t: nat) {
    forall k | 0 <= k < |es| :: !Disturbs(es[k], t)
  }

  /** A delayed task that nobody disturbs stays asleep as long as its instant has not been reached. */
  lemma {:induction false} SleepsUntilDue(s: State, es: seq<Event>, t: nat, due: nat)
    requires Inv(s) && Asleep(s, t, due) && s.now < due && Undisturbed(es, t)
    requires Exec(s, es).now < due
    ensures Asleep(Exec(s, es), t, due)
    decreases |es|
  {
    if es != [] {
      StepKeepsInv(s, es[0]);
      StepIsOnTime(s, es[0], t, due);
      ClockIsMonotone(Step(s, es[0]), es[1..]);
      SleepsUntilDue(Step(s, es[0]), es[1..], t, due);
    }
  }

  /** Blocking with a timeout: a delay, or a wait for an event that is not for ever. */
  ghost predicate Blocks(e: Event) {
    e.Delay? || (e.Await? && e.ticks != MAX_DELAY)
  }

  /** The running task blocks for some ticks, anything but a disturbance happens, and then comes a step `e`.
      As long as the clock is short of the instant, the task is asleep; the step that takes the clock there
      leaves it on the ready list of its priority. Only an xTaskResumeAll that catches up with several ticks
      moves the clock by more than one. */
  lemma ExactWake(s: State, b: Event, es: seq<Event>, e: Event)
    requires Inv(s) && Blocks(b) && Enabled(s, b) && Undisturbed(es, s.running) && !Disturbs(e, s.running)
    ensures var due := s.now + b.ticks;
            var s1 := Exec(Step(s, b), es);
            var s2 := Step(s1, e);
            s1.now < due ==>
              && Asleep(s1, s.running, due)
              && (s2.now < due ==> Asleep(s2, s.running, due))
              && (s2.now >= due ==> s.running in s2.tasks && s2.tasks[s.running].home == Ready(s2.tasks[s.running].priority))
              && (!e.ResumeAll? ==> s2.now <= s1.now + 1)
  {
    var s0, due := Step(s, b), s.now + b.ticks;
    BlockingSleeps(s, b);
    StepKeepsInv(s, b);
    ExecKeepsInv(s0, es);
    if Exec(s0, es).now < due {
      SleepsUntilDue(s0, es, s.running, due);
      StepIsOnTime(Exec(s0, es), e, s.running, due);
      StepConserves(Exec(s0, es), e);
    }
  }

  lemma BlockingSleeps(s: State, b: Event)
    requires Inv(s) && Blocks(b) && Enabled(s, b)
    ensures Asleep(Step(s, b), s.running, s.now + b.ticks) && Step(s, b).now == s.now
  {
    WeakenInv(s, s.running);
    assert TaskOk(s.tasks[s.running], s.priorities, s.top, s.inA, s.now, s.now + 1, s.nextUnblock);
    if b.Delay? {
      BlockForSleeps(s, s.running, b.ticks, false);
    } else {
      var task := s.tasks[s.running].(event := Waiting);
      UpdateKeepsRest(s, s.running, task);
      BlockForSleeps(Update(s, s.running, task), s.running, b.ticks, true);
    }
  }

  lemma BlockForSleeps(s: State, t: nat, ticks: nat, forEver: bool)
    requires InvBut(s, t) && s.tasks[t].home in s.lists && s.tasks[t].event != Pending && !(ticks == MAX_DELAY && forEver)
    ensures Asleep(BlockFor(s, t, ticks, forEver), t, s.now + ticks) && BlockFor(s, t, ticks, forEver).now == s.now
  {
    DetachKeepsRest(s, t);
    DelayForIs(Detach(s, t), t, ticks);
  }

  // ---------------------------------------------------------------- waiting for ever

  /** On the list of suspended tasks, and on the waiting list of some object. */
  ghost predicate WaitsForEver(s: State, t: nat) {
    t in s.tasks && s.tasks[t].home == Suspended && s.tasks[t].event == Waiting
  }

  lemma AwaitsForEver(s: State)
    requires Inv(s) && Enabled(s, Await(MAX_DELAY))
    ensures WaitsForEver(Step(s, Await(MAX_DELAY)), s.running)
  {
    var task := s.tasks[s.running].(event := Waiting);
    WeakenInv(s, s.running);
    assert TaskOk(s.tasks[s.running], s.priorities, s.top, s.inA, s.now, s.now + 1, s.nextUnblock);
    UpdateKeepsRest(s, s.running, task);
    BlocksForEver(Update(s, s.running, task), s.running);
  }

  lemma BlocksForEver(s: State, t: nat)
    requires InvBut(s, t) && s.tasks[t].home in s.lists
    ensures var s' := BlockFor(s, t, MAX_DELAY, true); t in s'.tasks && s'.tasks[t] == s.tasks[t].(home := Suspended)
  {
    DetachKeepsRest(s, t);
    AttachKeepsLists(Detach(s, t), t, Suspended);
  }

  lemma TicksLeaveWaiting(s: State, threshold: nat, t: nat)
    requires Inv(s) && WaitsForEver(s, t)
    ensures WaitsForEver(TickHandled(s, threshold), t)
  {
    DeliveryKeepsInv(s);
    if s.depth == 0 && threshold == 0 {
      TickIsExact(Counted(s));
    }
  }

  lemma ResumeLeavesWaiting(s: State, threshold: nat, t: nat)
    requires Inv(s) && WaitsForEver(s, t) && s.depth > 0
    ensures WaitsForEver(Resumed(s, threshold), t)
  {
    if s.depth == 1 && s.count > 0 {
      BeforeTicksKeepsInv(s);
      var b := BeforeTicks(s);
      if threshold == 0 {
        TickLoopWakes(b, b.pended, t);
      } else {
        TickLoopOnlyCounts(b, b.pended, threshold);
      }
    }
  }

  lemma StepLeavesWaiting(s: State, e: Event, t: nat)
    requires Inv(s) && WaitsForEver(s, t) && !Disturbs(e, t)
    ensures WaitsForEver(Step(s, e), t)
  {
    if Enabled(s, e) {
      if e.Tick? {
        TicksLeaveWaiting(s, e.threshold, t);
      } else if e.ResumeAll? {
        ResumeLeavesWaiting(s, e.threshold, t);
      } else if Runs(e) {
        RunTouches(s, e);
      } else if Moves(e) {
        MoveTouches(s, e);
      }
    }
  }

  lemma {:induction false} StaysWaiting(s: State, es: seq<Event>, t: nat)
    requires Inv(s) && WaitsForEver(s, t) && Undisturbed(es, t)
    ensures WaitsForEver(Exec(s, es), t)
    decreases |es|
  {
    if es != [] {
      StepKeepsInv(s, es[0]);
      StepLeavesWaiting(s, es[0], t);
      StaysWaiting(Step(s, es[0]), es[1..], t);
    }
  }

  /** A task that waits for an event without a timeout goes to the suspended list, and stays there, whatever ticks and
      resumptions come, until it is signalled, suspended or deleted. */
  lemma WaitsForEverUnlessDisturbed(s: State, es: seq<Event>)
    requires Inv(s) && Enabled(s, Await(MAX_DELAY)) && Undisturbed(es, s.running)
    ensures WaitsForEver(Exec(Step(s, Await(MAX_DELAY)), es), s.running)
  {
    AwaitsForEver(s);
    StepKeepsInv(s, Await(MAX_DELAY));
    StaysWaiting(Step(s, Await(MAX_DELAY)), es, s.running);
  }

  /** The current delayed list holds exactly the delayed tasks due in this round of the tick count and the
      overflow list those due in the next; both are sorted by tick; nobody is overdue; xNextTaskUnblockTime is
      not after the head of the current list; and if the next tick wraps the count, the list to be switched
      out is empty. */
  ghost predicate ByRound(s: State) {
    var current, overflow := Items(s, CurrentList(s.inA)), Items(s, OverflowList(s.inA));
    && (forall t :: Has(current, t) <==> t in s.tasks && Delayed(s.tasks[t]) && EpochOf(s.tasks[t].due) == EpochOf(s.now))
    && (forall t :: Has(overflow, t) <==> t in s.tasks && Delayed(s.tasks[t]) && EpochOf(s.tasks[t].due) == EpochOf(s.now) + 1)
    && (forall t | t in s.tasks && Delayed(s.tasks[t]) :: s.now < s.tasks[t].due && (Has(current, t) || Has(overflow, t)))
    && Sorted(current) && Sorted(overflow)
    && (current != [] ==> s.nextUnblock <= current[0].value)
    && (TickOf(s.now + 1) == 0 ==> current == [])
  }

  /** In every reachable state the delayed lists hold what they should. */
  lemma DelayedListsByRound(priorities: nat, now: nat, es: seq<Event>)
    requires priorities > 0
    ensures ByRound(Exec(Init(priorities, now), es))
  {
    InitIsOk(priorities, now);
    ExecKeepsInv(Init(priorities, now), es);
    ListsByRound(Exec(Init(priorities, now), es));
  }

  lemma ListsByRound(s: State)
    requires Inv(s)
    ensures ByRound(s)
  {
    var c, o := CurrentList(s.inA), OverflowList(s.inA);
    assert ListOk(s.tasks, s.lists[c], c) && ListOk(s.tasks, s.lists[o], o);
    forall t | t in s.tasks && Delayed(s.tasks[t])
      ensures s.now < s.tasks[t].due
      ensures s.tasks[t].home == c ==> EpochOf(s.tasks[t].due) == EpochOf(s.now) && s.nextUnblock <= TickOf(s.tasks[t].due)
      ensures s.tasks[t].home == o ==> EpochOf(s.tasks[t].due) == EpochOf(s.now) + 1
    {
      assert TaskOk(s.tasks[t], s.priorities, s.top, s.inA, s.now, s.now + 1, s.nextUnblock);
    }
    assert DelayedOk(s.tasks, Items(s, c)) && DelayedOk(s.tasks, Items(s, o));
    if Items(s, c) != [] {
      assert Has(Items(s, c), Items(s, c)[0].owner);
    }
    if TickOf(s.now + 1) == 0 {
      SwitchedOutListIsEmpty(s);
    }
  }

  // ---------------------------------------------------------------- ticks are conserved

  /** Ticks delivered, less those processed, pended and dropped. */
  ghost function Balance(s: State): int {
    s.delivered - s.now - s.pended - s.lost
  }

  /** xTaskResumeAll loses ticks exactly if it runs to its end with ticks pended while the interrupt threshold
      is raised: each of them is pended again, and then the count is cleared. */
  lemma ResumeLosesTicks(s: State, threshold: nat)
    requires Inv(s) && s.depth > 0
    ensures var s' := Resumed(s, threshold);
            && s'.now + s'.pended + s'.lost == s.now + s.pended + s.lost && s'.delivered == s.delivered && s.now <= s'.now
            && (s'.now + s'.pended == s.now + s.pended <==> threshold == 0 || s.pended == 0 || s.depth > 1 || s.count == 0)
  {
    if s.depth == 1 && s.count > 0 {
      BeforeTicksKeepsInv(s);
      var b := BeforeTicks(s);
      if threshold == 0 {
        TickLoopKeepsInv(b, b.pended);
      } else {
        TickLoopOnlyCounts(b, b.pended, threshold);
      }
    }
  }

  /** With the scheduler running and no tick pended, a step leaves one pended exactly if it is a tick under a raised
      threshold. */
  lemma PendsUnsuspendedIff(s: State, e: Event)
    requires Inv(s) && s.depth == 0 && s.pended == 0
    ensures Step(s, e).depth == 0 && Step(s, e).pended > 0 <==> e.Tick? && e.threshold != 0
  {
    if e.Tick? {
      TickPendsIff(s, e.threshold);
    } else if Enabled(s, e) && Runs(e) {
      RunTouches(s, e);
    } else if Enabled(s, e) && Moves(e) {
      MoveTouches(s, e);
    }
  }

  lemma TickPendsIff(s: State, threshold: nat)
    requires Inv(s) && s.depth == 0
    ensures TickHandled(s, threshold).depth == 0
    ensures TickHandled(s, threshold).pended == s.pended + if threshold != 0 then 1 else 0
  {
    DeliveryKeepsInv(s);
    if threshold == 0 {
      TickIsExact(Counted(s));
    }
  }

  /** So "not suspended implies no pended ticks" does not hold. */
  lemma TickCanPendUnsuspended()
    ensures var s := Exec(Init(1, 0), [Create(0, 0), Tick(1)]); s.depth == 0 && s.pended == 1
  {
    OneTaskCreated();
    var s0, a, b := Init(1, 0), Create(0, 0), Tick(1);
    assert Step(s0, a) == Created(s0, 0, 0);
    TickPendsIff(Step(s0, a), 1);
    assert [a, b][1..] == [b] && [b][1..] == [];
    assert Exec(Step(s0, a), [b]) == Step(Step(s0, a), b);
  }

  /** A resume under a raised threshold drops every pended tick. */
  lemma ResumeDrops(s: State, threshold: nat)
    requires Inv(s) && s.depth == 1 && s.count > 0 && threshold != 0
    ensures var s' := Resumed(s, threshold); s'.depth == 0 && s'.delivered == s.delivered && s'.now == s.now && s'.pended == 0
  {
    BeforeTicksKeepsInv(s);
    TickLoopOnlyCounts(BeforeTicks(s), BeforeTicks(s).pended, threshold);
  }

  lemma OneTaskCreated()
    ensures var s := Created(Init(1, 0), 0, 0); Inv(s) && s.depth == 0 && s.count == 1 && s.now == s.pended == s.delivered == 0
  {
    InitIsOk(1, 0);
    CreatedKeepsInv(Init(1, 0), 0, 0);
    MakeReadyTouches(Added(Init(1, 0), 0, 0), 0);
  }

  lemma TickPends(s: State)
    requires Inv(s) && s.depth == 0
    ensures var s' := Step(Step(s, SuspendAll), Tick(0));
            Inv(s') && s' == s.(depth := 1, delivered := s.delivered + 1, pended := s.pended + 1)
  {
    StepKeepsInv(s, SuspendAll);
    StepKeepsInv(Step(s, SuspendAll), Tick(0));
  }

  lemma TickIsDropped(s: State)
    requires Inv(s) && s.depth == 0 && s.count > 0
    ensures var s' := Step(Step(Step(s, SuspendAll), Tick(0)), ResumeAll(1));
            s'.depth == 0 && s'.delivered == s.delivered + 1 && s'.now == s.now && s'.pended == 0
  {
    TickPends(s);
    ResumeDrops(Step(Step(s, SuspendAll), Tick(0)), 1);
  }

  /** One task, the scheduler suspended, one tick pended, and a resume while the threshold is raised: the tick is
      neither processed nor pended. */
  lemma ResumeCanLoseTicks()
    ensures var s := Exec(Init(1, 0), [Create(0, 0), SuspendAll, Tick(0), ResumeAll(1)]);
            s.depth == 0 && s.delivered == 1 && s.now == 0 && s.pended == 0
  {
    OneTaskCreated();
    assert Step(Init(1, 0), Create(0, 0)) == Created(Init(1, 0), 0, 0);
    TickIsDropped(Step(Init(1, 0), Create(0, 0)));
    ExecFour(Init(1, 0), Create(0, 0), SuspendAll, Tick(0), ResumeAll(1));
  }

  lemma ExecFour(s: State, a: Event, b: Event, c: Event, d: Event)
    ensures Exec(s, [a, b, c, d]) == Step(Step(Step(Step(s, a), b), c), d)
  {
    var s1 := Step(s, a);
    var s2 := Step(s1, b);
    assert [a, b, c, d][1..] == [b, c, d] && [b, c, d][1..] == [c, d] && [c, d][1..] == [d] && [d][1..] == [];
    assert Exec(Step(s2, c), [d]) == Step(Step(s2, c), d);
    assert Exec(s2, [c, d]) == Exec(Step(s2, c), [d]);
    assert Exec(s1, [b, c, d]) == Exec(s2, [c, d]);
  }

  lemma TickConserves(s: State, threshold: nat)
    requires Inv(s)
    ensures var s' := IncrementTick(s, threshold);
            s'.now + s'.pended == s.now + s.pended + 1 && s'.lost == s.lost && s'.delivered == s.delivered && s.now <= s'.now <= s.now + 1
  {
    if s.depth == 0 && threshold == 0 {
      TickIsExact(s);
    }
  }

  lemma TickStepConserves(s: State, threshold: nat)
    requires Inv(s)
    ensures var s' := TickHandled(s, threshold); Balance(s') == Balance(s) && s.now <= s'.now <= s.now + 1 && s'.lost == s.lost
  {
    DeliveryKeepsInv(s);
    TickConserves(Counted(s), threshold);
  }

  lemma ResumeStepConserves(s: State, threshold: nat)
    requires Inv(s)
    ensures var s' := Step(s, ResumeAll(threshold));
            Balance(s') == Balance(s) && s.now <= s'.now && (threshold == 0 ==> s'.lost == s.lost)
  {
    if s.depth > 0 {
      ResumeLosesTicks(s, threshold);
    }
  }

  lemma OtherStepConserves(s: State, e: Event)
    requires Runs(e) || Moves(e) || e.SuspendAll?
    ensures var s' := Step(s, e); Balance(s') == Balance(s) && s.now == s'.now && s'.lost == s.lost
  {
    if Enabled(s, e) {
      if Runs(e) {
        RunTouches(s, e);
      } else if Moves(e) {
        MoveTouches(s, e);
      }
    }
  }

  lemma StepConserves(s: State, e: Event)
    requires Inv(s)
    ensures Balance(Step(s, e)) == Balance(s) && s.now <= Step(s, e).now
    ensures !(e.ResumeAll? && e.threshold != 0) ==> Step(s, e).lost == s.lost
    ensures !e.ResumeAll? ==> Step(s, e).now <= s.now + 1
  {
    if e.Tick? {
      TickStepConserves(s, e.threshold);
    } else if e.ResumeAll? {
      ResumeStepConserves(s, e.threshold);
    } else {
      OtherStepConserves(s, e);
    }
  }

  lemma {:induction false} ClockIsMonotone(s: State, es: seq<Event>)
    requires Inv(s)
    ensures Balance(Exec(s, es)) == Balance(s) && s.now <= Exec(s, es).now
    decreases |es|
  {
    if es != [] {
      StepKeepsInv(s, es[0]);
      StepConserves(s, es[0]);
      ClockIsMonotone(Step(s, es[0]), es[1..]);
    }
  }

  lemma {:induction false} NothingIsLost(s: State, es: seq<Event>)
    requires Inv(s) && forall k | 0 <= k < |es| :: es[k].ResumeAll? ==> es[k].threshold == 0
    ensures Exec(s, es).lost == s.lost
    decreases |es|
  {
    if es != [] {
      StepKeepsInv(s, es[0]);
      StepConserves(s, es[0]);
      NothingIsLost(Step(s, es[0]), es[1..]);
    }
  }

  /** Over every run, each delivered tick is processed, pended or dropped by an xTaskResumeAll; if that never
      runs with the threshold raised, each is processed or pended. */
  lemma TicksAreConserved(priorities: nat, now: nat, es: seq<Event>)
    requires priorities > 0
    ensures var s := Exec(Init(priorities, now), es);
            && s.delivered == s.now + s.pended + s.lost
            && ((forall k | 0 <= k < |es| :: es[k].ResumeAll? ==> es[k].threshold == 0) ==> s.delivered == s.now + s.pended)
  {
    InitIsOk(priorities, now);
    ClockIsMonotone(Init(priorities, now), es);
    if forall k | 0 <= k < |es| :: es[k].ResumeAll? ==> es[k].threshold == 0 {
      NothingIsLost(Init(priorities, now), es);
    }
  }
}
