/** The scheduler as it runs: globals changed step by step, and loops that move tasks one by one. Each
    method is proved to do what the step of the same name does to the whole state. */
module Kernel {
  import opened Clock
  import opened Lists
  import opened S = Scheduler

  /** `tickCount` is xTickCount, 32 bits wide. The ghost fields count ticks without bound. */
  class Kernel {
    const priorities: nat
    var tasks: map<nat, Task>
    var lists: map<ListId, KList>
    var pending: seq<Item>
    var inA: bool
    var top: nat
    var nextUnblock: nat
    var running: nat
    var depth: nat
    var count: nat
    var tickCount: nat
    var pended: nat
    ghost var now: nat
    ghost var delivered: nat
    ghost var lost: nat

    ghost function View(): State
      reads this
    {
      State(priorities, tasks, lists, pending, inA, top, nextUnblock, running, depth, count, now, pended, delivered, lost)
    }

    ghost predicate Valid()
      reads this
    {
      tickCount == TickOf(now)
    }

    /** uxListRemove of the state item, then of the event item if it is on a list. */
    method Untie(t: nat)
      requires Valid() && ListsOk(View()) && t in tasks && tasks[t].home in lists
      modifies this
      ensures Valid() && View() == S.Untied(old(View()), t)
    {
      TakeOffStateList(t);
      if Has(pending, t) {
        pending := Remove(pending, t);
      }
      tasks := tasks[t := tasks[t].(event := Unlisted)];
    }

    /** prvAddTaskToReadyList */
    method AddTaskToReadyList(t: nat)
      requires Valid() && ListsOk(View()) && t in tasks && tasks[t].home == Nowhere && tasks[t].priority < priorities
      modifies this
      ensures Valid() && View() == S.MakeReady(old(View()), t)
    {
      var p := tasks[t].priority;
      var list := Ready(p);
      assert ListOk(tasks, lists[list], list);
      if p > top {
        top := p;
      }
      lists := lists[list := InsertEnd(lists[list], Item(t, 0))];
      tasks := tasks[t := tasks[t].(home := list)];
    }

    method ReadyTask(t: nat)
      requires Valid() && ListsOk(View()) && t in tasks && tasks[t].home in lists && tasks[t].priority < priorities
      modifies this
      ensures Valid() && View() == S.Readied(old(View()), t)
    {
      UntieKeepsLists(View(), t);
      Untie(t);
      AddTaskToReadyList(t);
    }

    /** prvResetNextTaskUnblockTime */
    method ResetNextTaskUnblockTime()
      requires Valid() && ListsOk(View())
      modifies this`nextUnblock
      ensures nextUnblock == NextUnblock(old(View()))
    {
      var d := lists[CurrentList(inA)].items;
      nextUnblock := if d == [] then MAX_DELAY else d[0].value;
    }

    /** The loop of xTaskIncrementTick. */
    method WakeDueTasks()
      requires Valid() && ListsOk(View()) && TasksOk(View(), now, 0, {})
      modifies this
      ensures Valid() && View() == WakeLoop(old(View()), |Items(old(View()), CurrentList(old(inA)))|)
    {
      ghost var end := WakeLoop(View(), |Items(View(), CurrentList(inA))|);
      while true
        invariant Valid() && ListsOk(View()) && TasksOk(View(), now, 0, {})
        invariant WakeLoop(View(), |Items(View(), CurrentList(inA))|) == end
        decreases |Items(View(), CurrentList(inA))|
      {
        var d := lists[CurrentList(inA)].items;
        if d == [] {
          nextUnblock := MAX_DELAY;
          break;
        }
        if tickCount < d[0].value {
          nextUnblock := d[0].value;
          break;
        }
        WakeHeadShortens(View());
        WakeHeadKeeps(View());
        WakeLoopUnrolls(View());
        assert TaskOk(tasks[d[0].owner], priorities, top, inA, now, now, 0);
        ReadyTask(d[0].owner);
      }
    }

    /** taskSWITCH_DELAYED_LISTS */
    method SwitchDelayedLists()
      requires Valid() && ListsOk(View())
      modifies this`inA, this`nextUnblock
      ensures inA == !old(inA) && nextUnblock == NextUnblock(old(View()).(inA := !old(inA)))
    {
      inA := !inA;
      ResetNextTaskUnblockTime();
    }

    method AdvanceTickCount()
      requires Valid() && ListsOk(View())
      modifies this`tickCount, this`now, this`inA, this`nextUnblock
      ensures Valid() && View() == S.AdvanceClock(old(View()))
    {
      tickCount := (tickCount + 1) % 0x1_0000_0000;
      now := now + 1;
      if tickCount == 0 {
        SwitchDelayedLists();
      }
    }

    /** xTaskIncrementTick */
    method IncrementTick(threshold: nat)
      requires Valid() && Inv(View())
      modifies this
      ensures Valid() && View() == S.IncrementTick(old(View()), threshold)
    {
      if depth == 0 && threshold == 0 {
        AdvanceClockKeeps(View());
        AdvanceTickCount();
        if tickCount >= nextUnblock {
          WeakerNext(View(), now, nextUnblock);
          WakeDueTasks();
        }
      } else {
        pended := pended + 1;
      }
    }

    /** The loop of xTaskResumeAll over the tasks readied meanwhile. */
    method DrainPendingReadyList()
      requires Valid() && ListsOk(View()) && TasksOk(View(), 0, 0, {})
      modifies this
      ensures Valid() && ListsOk(View()) && View() == ReadyPending(old(View()), |old(pending)|)
    {
      ghost var end := ReadyPending(View(), |pending|);
      while pending != []
        invariant Valid() && ListsOk(View()) && TasksOk(View(), 0, 0, {})
        invariant ReadyPending(View(), |pending|) == end
        decreases |pending|
      {
        var t := pending[0].owner;
        PendingHead(View());
        ReadiedKeeps(View(), t, 0, 0);
        DetachIs(View(), t);
        ReadyTask(t);
      }
    }

    /** One of the ticks that xTaskResumeAll catches up with. */
    method PendedTick(threshold: nat)
      requires Valid() && Inv(View()) && depth == 0 && pending == []
      modifies this
      ensures Valid() && Inv(View()) && depth == 0 && pending == []
      ensures View() == S.IncrementTick(old(View()), threshold)
    {
      PendedTickKeepsInv(View(), threshold);
      IncrementTick(threshold);
    }

    /** The loop of xTaskResumeAll over the ticks pended meanwhile. */
    method CatchUp(threshold: nat)
      requires Valid() && Inv(View()) && depth == 0 && pending == []
      modifies this
      ensures Valid() && View() == AfterTicks(old(View()), threshold)
    {
      ghost var before := View();
      var left := pended;
      while left > 0
        invariant Valid() && Inv(View()) && depth == 0 && pending == []
        invariant TickLoop(View(), left, threshold) == TickLoop(before, before.pended, threshold)
      {
        PendedTick(threshold);
        left := left - 1;
      }
      lost := before.lost + (if threshold == 0 then 0 else before.pended);
      pended := 0;
    }

    /** What xTaskResumeAll does before the pended ticks. */
    method ReadyTheWoken()
      requires Valid() && ListsOk(View()) && TasksOk(View(), 0, 0, {})
      modifies this
      ensures Valid() && View() == Refreshed(ReadyPending(old(View()), |old(pending)|), old(pending) != [])
    {
      var moved := pending != [];
      DrainPendingReadyList();
      if moved {
        ResetNextTaskUnblockTime();
      }
    }

    /** xTaskResumeAll */
    method ResumeAll(threshold: nat)
      requires Valid() && Inv(View()) && depth > 0
      modifies this
      ensures Valid() && View() == S.Resumed(old(View()), threshold)
    {
      BeforeTicksStarts(View());
      depth := depth - 1;
      if depth == 0 && count > 0 {
        ReadyTheWoken();
        CatchUp(threshold);
      }
    }

    /** prvAddCurrentTaskToDelayedList */
    method AddCurrentTaskToDelayedList(ticks: nat, canBlockIndefinitely: bool)
      requires Valid() && ListsOk(View()) && running in tasks && tasks[running].home in lists && ticks <= MAX_DELAY
      modifies this
      ensures Valid() && View() == S.BlockFor(old(View()), old(running), ticks, canBlockIndefinitely)
    {
      DetachKeepsLists(View(), running);
      TakeOffStateList(running);
      if ticks == MAX_DELAY && canBlockIndefinitely {
        AppendToSuspendedList(running);
      } else {
        InsertInDelayedList(running, ticks);
      }
    }

    method TakeOffStateList(t: nat)
      requires Valid() && ListsOk(View()) && t in tasks && tasks[t].home in lists
      modifies this`lists, this`tasks
      ensures Valid() && View() == S.Detach(old(View()), t)
    {
      DetachIs(View(), t);
      var home := tasks[t].home;
      lists := lists[home := RemoveItem(lists[home], t)];
      tasks := tasks[t := tasks[t].(home := Nowhere)];
    }

    method AppendToSuspendedList(t: nat)
      requires Valid() && ListsOk(View()) && t in tasks
      modifies this`lists, this`tasks
      ensures Valid() && View() == S.Attach(old(View()), t, Suspended)
    {
      assert ListOk(tasks, lists[Suspended], Suspended);
      lists := lists[Suspended := InsertEnd(lists[Suspended], Item(t, 0))];
      tasks := tasks[t := tasks[t].(home := Suspended)];
    }

    method InsertInDelayedList(t: nat, ticks: nat)
      requires Valid() && DelayedA in lists && DelayedB in lists && t in tasks && ticks <= MAX_DELAY
      modifies this`lists, this`tasks, this`nextUnblock
      ensures Valid() && View() == S.DelayFor(old(View()), t, ticks)
    {
      var wake := TickAdd(tickCount, ticks);
      InsertedIs(View(), t, ticks, wake);
      if wake < tickCount {
        PutInDelayedList(t, ticks, OverflowList(inA), wake);
      } else {
        PutInDelayedList(t, ticks, CurrentList(inA), wake);
        if wake < nextUnblock {
          nextUnblock := wake;
        }
      }
    }

    method PutInDelayedList(t: nat, ticks: nat, id: ListId, wake: nat)
      requires id in lists && t in tasks
      modifies this`lists, this`tasks
      ensures View() == S.InsertedIn(old(View()), t, ticks, id, wake)
    {
      lists := lists[id := InsertInOrder(lists[id], Item(t, wake))];
      tasks := tasks[t := tasks[t].(due := now + ticks, home := id)];
    }

    /** The search of taskSELECT_HIGHEST_PRIORITY_TASK. */
    method FindHighestPriority() returns (p: nat)
      requires ListsOk(View()) && Items(View(), Ready(HighestReady(View(), top))) != []
      ensures p == HighestReady(View(), top) && p <= top && Ready(p) in lists && lists[Ready(p)].items != []
    {
      p := top;
      while lists[Ready(p)].items == []
        invariant p <= top && Ready(p) in lists && HighestReady(View(), p) == HighestReady(View(), top)
        decreases p
      {
        p := p - 1;
      }
    }

    /** vTaskSwitchContext with the scheduler running; some task, if only the idle task, is always ready. */
    method SwitchContext(ghost idle: nat)
      requires Valid() && Inv(View()) && idle in tasks && tasks[idle].home.Ready?
      modifies this`lists, this`running, this`top
      ensures Valid() && View() == S.Switched(old(View()))
    {
      HighestReadyBounds(View(), idle);
      var p := FindHighestPriority();
      assert ListOk(tasks, lists[Ready(p)], Ready(p));
      var l := Advance(lists[Ready(p)]);
      lists := lists[Ready(p) := l];
      running := Selected(l);
      top := p;
    }
  }
}
