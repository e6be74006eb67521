/** What each event of the scheduler does to every task, said without the lists. */
module Effects {
  import opened Clock
  import opened Lists
  import opened Scheduler

  ghost function MadeReady(t: Task): Task {
    t.(home := Ready(t.priority), event := Unlisted)
  }

  /** A task blocked for `ticks` from `now`: on the list of the round in which that tick comes. */
  ghost function PutToSleep(inA: bool, now: nat, t: Task, ticks: nat): Task {
    t.(home := if EpochOf(now + ticks) == EpochOf(now) then CurrentList(inA) else OverflowList(inA), due := now + ticks)
  }

  /** The tasks of which an outermost xTaskResumeAll makes ready ones. */
  ghost predicate ReadiedByResume(s: State, threshold: nat, t: Task) {
    t.event == Pending || (threshold == 0 && Delayed(t) && t.due <= s.now + s.pended)
  }

  ghost function AfterResume(s: State, threshold: nat): map<nat, Task> {
    map t | t in s.tasks :: if ReadiedByResume(s, threshold, s.tasks[t]) then MadeReady(s.tasks[t]) else s.tasks[t]
  }

  ghost function AfterTick(s: State): map<nat, Task> {
    map t | t in s.tasks :: if Delayed(s.tasks[t]) && s.tasks[t].due == s.now + 1 then MadeReady(s.tasks[t]) else s.tasks[t]
  }

  /** A wait for an event; the largest number of ticks stands for ever. */
  ghost function Waited(s: State, t: Task, ticks: nat): Task {
    if ticks == MAX_DELAY then t.(event := Waiting, home := Suspended) else PutToSleep(s.inA, s.now, t.(event := Waiting), ticks)
  }

  /** All the tasks after an event. */
  ghost function Expected(s: State, e: Event): map<nat, Task>
    requires Enabled(s, e)
  {
    match e
    case Create(t, priority) => s.tasks[t := Task(priority, Ready(priority), Unlisted, 0)]
    case Switch => s.tasks
    case Tick(threshold) =>
      if s.depth > 0 || threshold != 0 then s.tasks else AfterTick(s)
    case SuspendAll => s.tasks
    case ResumeAll(threshold) =>
      if s.depth > 1 then s.tasks else AfterResume(s, threshold)
    case Delay(ticks) => s.tasks[s.running := PutToSleep(s.inA, s.now, s.tasks[s.running], ticks)]
    case Await(ticks) => s.tasks[s.running := Waited(s, s.tasks[s.running], ticks)]
    case Signal(t) =>
      s.tasks[t := if s.depth == 0 then MadeReady(s.tasks[t]) else s.tasks[t].(event := Pending)]
    case Suspend(t) => s.tasks[t := s.tasks[t].(home := Suspended, event := Unlisted)]
    case Resume(t) => s.tasks[t := MadeReady(s.tasks[t])]
    case Reprioritise(t, priority) =>
      s.tasks[t := s.tasks[t].(priority := priority,
                               home := if s.tasks[t].home.Ready? then Ready(priority) else s.tasks[t].home)]
    case Delete(t) =>
      if t == s.running then s.tasks[t := s.tasks[t].(home := Terminated, event := Unlisted)] else s.tasks - {t}
    case CleanUp(t) => s.tasks - {t}
  }

  /** Everything else that can be seen of the scheduler. Only a switch changes who runs. */
  ghost predicate RestExpected(s: State, s': State, e: Event)
    requires Enabled(s, e)
  {
    var processed := s.depth == 0 && e.Tick? && e.threshold == 0;
    var resumed := e.ResumeAll? && s.depth == 1 && s.tasks != map[];
    && (!e.Switch? ==> s'.running == s.running)
    && s'.depth == (if e.SuspendAll? then s.depth + 1 else if e.ResumeAll? then s.depth - 1 else s.depth)
    && s'.now == s.now + (if processed then 1 else if resumed && e.threshold == 0 then s.pended else 0)
    && s'.pended == (if resumed then 0 else if e.Tick? && !processed then s.pended + 1 else s.pended)
  }

  // ---------------------------------------------------------------- one task at a time

  lemma CreateHasEffect(s: State, t: nat, priority: nat)
    requires Inv(s) && Enabled(s, Create(t, priority))
    ensures Step(s, Create(t, priority)).tasks == Expected(s, Create(t, priority))
    ensures RestExpected(s, Step(s, Create(t, priority)), Create(t, priority))
  {
    AddedKeepsRest(s, t, priority);
    MakeReadyKeeps(Added(s, t, priority), t);
  }

  /** The task that an event is about becomes `task`, and nothing else does. */
  lemma OneTaskChanges(s: State, s': State, u: nat, task: Task)
    requires Touches(s, s', u) && u in s'.tasks && s'.tasks[u] == task
    ensures s'.tasks == s.tasks[u := task]
  {
  }

  lemma OneTaskLeaves(s: State, s': State, u: nat)
    requires Touches(s, s', u) && u !in s'.tasks
    ensures s'.tasks == s.tasks - {u}
  {
  }

  lemma MoveHasEffect(s: State, e: Event)
    requires Inv(s) && Enabled(s, e) && Moves(e)
    ensures Step(s, e).tasks == Expected(s, e) && RestExpected(s, Step(s, e), e)
  {
    MoveIsAsAsked(s, e);
    var s' := Step(s, e);
    if e.t in s'.tasks {
      OneTaskChanges(s, s', e.t, s'.tasks[e.t]);
    } else {
      OneTaskLeaves(s, s', e.t);
    }
  }

  lemma SleepHasEffect(s: State, ticks: nat)
    requires InvBut(s, s.running) && s.tasks[s.running].home in s.lists && 0 < ticks <= MAX_DELAY
    ensures var s', t := BlockFor(s, s.running, ticks, false), s.running;
            t in s'.tasks && s'.tasks[t] == PutToSleep(s.inA, s.now, s.tasks[t], ticks)
  {
    DetachKeepsRest(s, s.running);
    DelayForIs(Detach(s, s.running), s.running, ticks);
    WakeListIsRight(s, ticks);
  }

  /** The running task, marked as waiting for an event. */
  ghost function Marked(s: State): State
    requires s.running in s.tasks
  {
    Update(s, s.running, s.tasks[s.running].(event := Waiting))
  }

  lemma MarkedKeepsRest(s: State)
    requires Inv(s) && s.running in s.tasks && s.tasks[s.running].home.Ready?
    ensures InvBut(Marked(s), s.running) && Marked(s).tasks[s.running].home in s.lists
  {
    assert TaskOk(s.tasks[s.running], s.priorities, s.top, s.inA, s.now, s.now + 1, s.nextUnblock);
    WeakenInv(s, s.running);
    UpdateKeepsRest(s, s.running, s.tasks[s.running].(event := Waiting));
  }

  lemma WaiterIs(s: State, ticks: nat)
    requires Inv(s) && Enabled(s, Await(ticks))
    ensures var s', t := Awaiting(s, s.running, ticks), s.running;
            t in s'.tasks && s'.tasks[t] == Waited(s, s.tasks[t], ticks)
  {
    AwaitBlocks(s, ticks);
    if ticks == MAX_DELAY {
      MarkedKeepsRest(s);
      BlocksForEver(Marked(s), s.running);
    } else {
      SleeperIs(s, ticks);
    }
  }

  lemma SleeperIs(s: State, ticks: nat)
    requires Inv(s) && Enabled(s, Await(ticks))
    ensures var s', t := BlockFor(Marked(s), s.running, ticks, false), s.running;
            t in s'.tasks && s'.tasks[t] == PutToSleep(s.inA, s.now, Marked(s).tasks[t], ticks)
  {
    MarkedKeepsRest(s);
    SleepHasEffect(Marked(s), ticks);
  }

  lemma AwaitBlocks(s: State, ticks: nat)
    requires s.running in s.tasks
    ensures Awaiting(s, s.running, ticks) == BlockFor(Marked(s), s.running, ticks, ticks == MAX_DELAY)
  {
  }

  lemma AwaitHasEffect(s: State, ticks: nat)
    requires Inv(s) && Enabled(s, Await(ticks))
    ensures Awaiting(s, s.running, ticks).tasks == s.tasks[s.running := Waited(s, s.tasks[s.running], ticks)]
  {
    AwaitingTouches(s, s.running, ticks);
    WaiterIs(s, ticks);
    OneTaskChanges(s, Awaiting(s, s.running, ticks), s.running, Waited(s, s.tasks[s.running], ticks));
  }

  lemma DelayHasEffect(s: State, ticks: nat)
    requires Inv(s) && Enabled(s, Delay(ticks))
    ensures BlockFor(s, s.running, ticks, false).tasks == s.tasks[s.running := PutToSleep(s.inA, s.now, s.tasks[s.running], ticks)]
  {
    BlockForTouches(s, s.running, ticks, false);
    assert TaskOk(s.tasks[s.running], s.priorities, s.top, s.inA, s.now, s.now + 1, s.nextUnblock);
    WeakenInv(s, s.running);
    SleepHasEffect(s, ticks);
    OneTaskChanges(s, BlockFor(s, s.running, ticks, false), s.running, PutToSleep(s.inA, s.now, s.tasks[s.running], ticks));
  }

  // ---------------------------------------------------------------- ticks

  lemma AllWakeIs(s: State)
    ensures AllWake(s.tasks, s.now + 1) == AfterTick(s)
  {
  }

  lemma TickHasEffect(s: State, threshold: nat)
    requires Inv(s)
    ensures var s', processed := TickHandled(s, threshold), s.depth == 0 && threshold == 0;
            && s'.tasks == (if processed then AfterTick(s) else s.tasks)
            && s'.running == s.running && s'.depth == s.depth
            && s'.now == s.now + (if processed then 1 else 0) && s'.pended == s.pended + if processed then 0 else 1
  {
    DeliveryKeepsInv(s);
    if s.depth == 0 && threshold == 0 {
      ProcessedHasEffect(Counted(s));
    }
  }

  lemma ProcessedHasEffect(s: State)
    requires Inv(s)
    ensures var s' := ProcessTick(s);
            s'.tasks == AfterTick(s) && s'.running == s.running && s'.depth == s.depth && s'.now == s.now + 1 && s'.pended == s.pended
  {
    TickIsExact(s);
    AllWakeIs(s);
  }

  lemma {:induction false} TickLoopLeavesRunning(s: State, n: nat, threshold: nat)
    requires Inv(s) && s.depth == 0 && s.pending == []
    ensures TickLoop(s, n, threshold).running == s.running
    decreases n
  {
    if n > 0 {
      PendedTickKeepsInv(s, threshold);
      if threshold == 0 {
        TickIsExact(s);
      }
      TickLoopLeavesRunning(IncrementTick(s, threshold), n - 1, threshold);
    }
  }

  lemma CatchUpHasEffect(b: State, threshold: nat)
    requires Inv(b) && b.depth == 0 && b.pending == []
    ensures var s' := AfterTicks(b, threshold);
            && s'.tasks.Keys == b.tasks.Keys
            && (forall t | t in b.tasks ::
                  s'.tasks[t] == if threshold == 0 && Delayed(b.tasks[t]) && b.tasks[t].due <= b.now + b.pended
                                 then MadeReady(b.tasks[t]) else b.tasks[t])
            && s'.running == b.running && s'.depth == 0 && s'.pended == 0
            && s'.now == b.now + if threshold == 0 then b.pended else 0
  {
    TickLoopLeavesRunning(b, b.pended, threshold);
    if threshold == 0 {
      TickLoopKeepsInv(b, b.pended);
      forall t | t in b.tasks
        ensures t in TickLoop(b, b.pended, 0).tasks
        ensures TickLoop(b, b.pended, 0).tasks[t] == AfterTicksOf(b.tasks[t], b.now, b.pended)
        ensures Delayed(b.tasks[t]) ==> b.now < b.tasks[t].due
      {
        TickLoopWakes(b, b.pended, t);
        assert TaskOk(b.tasks[t], b.priorities, b.top, b.inA, b.now, b.now + 1, b.nextUnblock);
      }
      TickLoopKeepsKeys(b, b.pended);
    } else {
      TickLoopOnlyCounts(b, b.pended, threshold);
    }
  }

  lemma {:induction false} TickLoopKeepsKeys(s: State, n: nat)
    requires Inv(s) && s.depth == 0 && s.pending == []
    ensures TickLoop(s, n, 0).tasks.Keys == s.tasks.Keys
    decreases n
  {
    if n > 0 {
      PendedTickKeepsInv(s, 0);
      TickIsExact(s);
      TickLoopKeepsKeys(IncrementTick(s, 0), n - 1);
    }
  }

  lemma OutermostHasEffect(s: State, threshold: nat)
    requires Inv(s) && s.depth == 1
    ensures var s' := AfterTicks(BeforeTicks(s), threshold);
            && s'.tasks == AfterResume(s, threshold) && s'.running == s.running && s'.depth == 0 && s'.pended == 0
            && s'.now == s.now + if threshold == 0 then s.pended else 0
  {
    DrainHasEffect(s);
    var b := BeforeTicks(s);
    CatchUpHasEffect(b, threshold);
    DrainThenCatchUp(s, b.tasks, AfterTicks(b, threshold).tasks, threshold);
  }

  lemma DrainHasEffect(s: State)
    requires Inv(s) && s.depth == 1
    ensures var b := BeforeTicks(s);
            && Inv(b) && b.depth == 0 && b.pending == [] && b.tasks == PendingReadied(s.tasks)
            && b.running == s.running && b.now == s.now && b.pended == s.pended
  {
    BeforeTicksKeepsInv(s);
  }

  lemma DrainThenCatchUp(s: State, a: map<nat, Task>, b: map<nat, Task>, threshold: nat)
    requires s.depth == 1 && a == PendingReadied(s.tasks) && b.Keys == a.Keys
    requires forall t | t in a ::
               b[t] == if threshold == 0 && Delayed(a[t]) && a[t].due <= s.now + s.pended then MadeReady(a[t]) else a[t]
    ensures b == AfterResume(s, threshold)
  {
  }

  lemma ResumeHasEffect(s: State, threshold: nat)
    requires Inv(s) && s.depth > 0
    ensures var s', outermost := Resumed(s, threshold), s.depth == 1 && s.tasks != map[];
            && s'.tasks == (if s.depth > 1 then s.tasks else AfterResume(s, threshold))
            && s'.running == s.running && s'.depth == s.depth - 1
            && s'.now == s.now + (if outermost && threshold == 0 then s.pended else 0)
            && s'.pended == if outermost then 0 else s.pended
  {
    if s.depth == 1 && s.count > 0 {
      OutermostHasEffect(s, threshold);
    } else if s.depth == 1 {
      assert s.tasks == map[];
    }
  }

  lemma ClockHasEffect(s: State, e: Event)
    requires Inv(s) && Enabled(s, e) && (e.Tick? || e.ResumeAll?)
    ensures Step(s, e).tasks == Expected(s, e) && RestExpected(s, Step(s, e), e)
  {
    if e.Tick? {
      TickHasEffect(s, e.threshold);
    } else {
      ResumeHasEffect(s, e.threshold);
    }
  }

  lemma BlockLeavesRest(s: State, e: Event)
    requires Enabled(s, e) && (e.Delay? || e.Await?)
    ensures RestExpected(s, Step(s, e), e)
  {
    RunTouches(s, e);
  }

  lemma DelayIsExpected(s: State, ticks: nat)
    requires Inv(s) && Enabled(s, Delay(ticks))
    ensures Step(s, Delay(ticks)).tasks == Expected(s, Delay(ticks))
  {
    DelayHasEffect(s, ticks);
    StepDelays(s, ticks);
    DelayExpects(s, ticks);
  }

  lemma DelayExpects(s: State, ticks: nat)
    requires Enabled(s, Delay(ticks))
    ensures Expected(s, Delay(ticks)) == s.tasks[s.running := PutToSleep(s.inA, s.now, s.tasks[s.running], ticks)]
  {
  }

  lemma StepDelays(s: State, ticks: nat)
    requires Enabled(s, Delay(ticks))
    ensures Step(s, Delay(ticks)) == BlockFor(s, s.running, ticks, false)
  {
  }

  lemma AwaitIsExpected(s: State, ticks: nat)
    requires Inv(s) && Enabled(s, Await(ticks))
    ensures Step(s, Await(ticks)).tasks == Expected(s, Await(ticks))
  {
    AwaitHasEffect(s, ticks);
    assert Step(s, Await(ticks)) == Awaiting(s, s.running, ticks);
  }

  lemma BlockHasEffect(s: State, e: Event)
    requires Inv(s) && Enabled(s, e) && (e.Delay? || e.Await?)
    ensures Step(s, e).tasks == Expected(s, e) && RestExpected(s, Step(s, e), e)
  {
    BlockLeavesRest(s, e);
    if e.Delay? {
      DelayIsExpected(s, e.ticks);
    } else {
      AwaitIsExpected(s, e.ticks);
    }
  }

  /** Every event does to every task exactly what is expected of it. */
  lemma StepHasEffect(s: State, e: Event)
    requires Inv(s) && Enabled(s, e)
    ensures Step(s, e).tasks == Expected(s, e) && RestExpected(s, Step(s, e), e)
  {
    if Moves(e) {
      MoveHasEffect(s, e);
    } else if e.Tick? || e.ResumeAll? {
      ClockHasEffect(s, e);
    } else if e.Delay? || e.Await? {
      BlockHasEffect(s, e);
    } else if e.Create? {
      CreateHasEffect(s, e.t, e.priority);
    }
  }
}
