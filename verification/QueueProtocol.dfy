/** The blocking protocol of a queue: xQueueGenericSend, xQueueReceive and xQueuePeek running in any number
    of tasks, cut at their critical sections, against interrupts that send and receive, waits that are cut
    short, and the tick. The waiting lists are touched only while the queue is unlocked. */
module QueueProtocol {
  import opened Clock
  import opened Lists
  import opened Wrappers

  const UNLOCKED := -1
  const INT8_MAX := 127

  datatype Position = Back | Front | Overwrite

  datatype Op<T> = Send(item: T, position: Position) | Receive | Peek

  /** Where a task leaves the locked section to. */
  datatype Exit = ToBlock | ToRetry | ToGiveUp

  /** The next atomic section of a task inside one of the three calls. */
  datatype Pc =
    | Test            // the critical section at the head of the retry loop
    | Lock            // vTaskSuspendAll, prvLockQueue
    | CheckTime       // xTaskCheckForTimeOut
    | CheckRoom       // prvIsQueueFull or prvIsQueueEmpty
    | Place           // vTaskPlaceOnEventList
    | UnlockTx(exit: Exit)
    | UnlockRx(exit: Exit)
    | Resume(exit: Exit)
    | Blocked         // yielded; continues at Test once off the waiting list
    | Recheck         // prvIsQueueEmpty after a timeout

  /** The local state of a call. `wait` and `start` are its argument and the time it was made, `entered` the
      instant of the last time stamp; `rank` is the value of the task's event list item; `excused` says that the
      last look at the time found the delay aborted. */
  datatype Call<T> = Call(op: Op<T>, rank: nat, pc: Pc, ticks: nat, entrySet: bool, timeOut: TimeOut,
                          wait: nat, start: nat, entered: nat, excused: bool)

  /** A call of `t` that returned errQUEUE_FULL or errQUEUE_EMPTY; `excused` if its last look at the time found that
      its delay had been aborted. */
  datatype Failure = Failure(t: nat, wait: nat, start: nat, at: nat, excused: bool)

  /** `wokenReceivers` and `wokenSenders` are the tasks taken off a waiting list that have not tested the
      queue since; `aborted` are those whose flag ucDelayAborted is set; `sent`, `received` and `failures` record
      what has happened so far. */
  datatype State<T> = State(
    length: nat, contents: seq<T>, rxLock: int, txLock: int,
    receivers: seq<Item>, senders: seq<Item>, window: Option<nat>, now: nat,
    calls: map<nat, Call<T>>, wokenReceivers: set<nat>, wokenSenders: set<nat>, aborted: set<nat>,
    sent: seq<T>, received: seq<T>, failures: seq<Failure>)

  datatype Event<T> =
    | Start(t: nat, op: Op<T>, rank: nat, wait: nat)
    | Run(t: nat)
    | Cut(t: nat)     // the wait ends without an event: by the tick, or by suspension
    | Abort(t: nat)   // xTaskAbortDelay
    | Revalue(t: nat, rank: nat)   // the priority of `t` changes, by vTaskPrioritySet or inheritance
    | Tick
    | IsrSend(item: T, position: Position)
    | IsrReceive

  function Init<T>(length: nat, now: nat): State<T> {
    State(length, [], UNLOCKED, UNLOCKED, [], [], None, now, map[], {}, {}, {}, [], [], [])
  }

  // ---------------------------------------------------------------- the queue itself

  function Store<T>(contents: seq<T>, item: T, position: Position): seq<T> {
    match position
    case Back => contents + [item]
    case Front => [item] + contents
    case Overwrite => [item] + (if contents == [] then [] else contents[1..])
  }

  predicate HasRoom<T>(s: State<T>, position: Position) {
    |s.contents| < s.length || position == Overwrite
  }

  /** xTaskRemoveFromEventList on xTasksWaitingToReceive, if anyone is there. */
  function WakeReceiver<T>(s: State<T>): State<T> {
    if s.receivers == [] then s
    else s.(receivers := s.receivers[1..], wokenReceivers := s.wokenReceivers + {s.receivers[0].owner})
  }

  function WakeSender<T>(s: State<T>): State<T> {
    if s.senders == [] then s
    else s.(senders := s.senders[1..], wokenSenders := s.wokenSenders + {s.senders[0].owner})
  }

  function Put<T>(s: State<T>, item: T, position: Position): State<T> {
    s.(contents := Store(s.contents, item, position), sent := s.sent + [item])
  }

  function Take<T>(s: State<T>): State<T>
    requires s.contents != []
  {
    s.(contents := s.contents[1..], received := s.received + [s.contents[0]])
  }

  function Owners(waiting: seq<Item>): set<nat> {
    set i | 0 <= i < |waiting| :: waiting[i].owner
  }

  /** How many tasks a loop of prvUnlockQueue wakes. */
  function Drained(lock: int, waiting: seq<Item>): (n: nat)
    ensures n <= |waiting|
  {
    if lock <= 0 then 0 else if lock < |waiting| then lock else |waiting|
  }

  /** The two halves of prvUnlockQueue. */
  function DrainReceivers<T>(s: State<T>): State<T> {
    var n := Drained(s.txLock, s.receivers);
    s.(txLock := UNLOCKED, receivers := s.receivers[n..],
       wokenReceivers := s.wokenReceivers + Owners(s.receivers[..n]))
  }

  function DrainSenders<T>(s: State<T>): State<T> {
    var n := Drained(s.rxLock, s.senders);
    s.(rxLock := UNLOCKED, senders := s.senders[n..],
       wokenSenders := s.wokenSenders + Owners(s.senders[..n]))
  }

  /** xQueueGenericSendFromISR */
  function SendFromIsr<T>(s: State<T>, item: T, position: Position): State<T> {
    if !HasRoom(s, position) then s
    else if s.txLock == UNLOCKED then WakeReceiver(Put(s, item, position))
    else Put(s, item, position).(txLock := s.txLock + 1)
  }

  /** xQueueReceiveFromISR */
  function ReceiveFromIsr<T>(s: State<T>): State<T> {
    if s.contents == [] then s
    else if s.rxLock == UNLOCKED then WakeSender(Take(s))
    else Take(s).(rxLock := s.rxLock + 1)
  }

  // ---------------------------------------------------------------- the calls

  function Goto<T>(s: State<T>, t: nat, pc: Pc): State<T>
    requires t in s.calls
  {
    s.(calls := s.calls[t := s.calls[t].(pc := pc)])
  }

  function Return<T>(s: State<T>, t: nat): State<T> {
    s.(calls := s.calls - {t})
  }

  function Fail<T>(s: State<T>, t: nat): State<T>
    requires t in s.calls
  {
    var c := s.calls[t];
    Return(s, t).(failures := s.failures + [Failure(t, c.wait, c.start, s.now, c.excused)])
  }

  predicate CanProceed<T>(s: State<T>, op: Op<T>) {
    match op
    case Send(_, position) => HasRoom(s, position)
    case _ => s.contents != []
  }

  /** The effect of a call that finds what it needs. */
  function Proceed<T>(s: State<T>, op: Op<T>): State<T>
    requires CanProceed(s, op)
  {
    match op
    case Send(item, position) => WakeReceiver(Put(s, item, position))
    case Receive => WakeSender(Take(s))
    case Peek => WakeReceiver(s)
  }

  function Tested<T>(s: State<T>, t: nat): State<T> {
    s.(wokenReceivers := s.wokenReceivers - {t}, wokenSenders := s.wokenSenders - {t})
  }

  function RunTest<T>(s: State<T>, t: nat): State<T>
    requires t in s.calls
  {
    var c := s.calls[t];
    if CanProceed(s, c.op) then Return(Proceed(Tested(s, t), c.op), t)
    else if c.ticks == 0 then Fail(Tested(s, t), t)
    else GoOn(s, t)
  }

  /** The entry time is noted only the first time round the loop. */
  function GoOn<T>(s: State<T>, t: nat): State<T>
    requires t in s.calls
  {
    var c := s.calls[t];
    var stamped := if c.entrySet then c else c.(entrySet := true, timeOut := StampOf(s.now), entered := s.now);
    Tested(s, t).(calls := s.calls[t := stamped.(pc := Lock)])
  }

  function RunLock<T>(s: State<T>, t: nat): State<T>
    requires t in s.calls
  {
    Goto(s, t, CheckTime).(window := Some(t),
                           rxLock := if s.rxLock == UNLOCKED then 0 else s.rxLock,
                           txLock := if s.txLock == UNLOCKED then 0 else s.txLock)
  }

  function RunCheckTime<T>(s: State<T>, t: nat): State<T>
    requires t in s.calls
  {
    s.(calls := s.calls[t := Checked(s.calls[t], s.now, t in s.aborted)], aborted := s.aborted - {t})
  }

  /** A call after xTaskCheckForTimeOut. */
  function Checked<T>(c: Call<T>, now: nat, aborted: bool): Call<T> {
    var check := CheckForTimeOut(c.timeOut, c.ticks, now, aborted);
    var entered := if check.expired || c.ticks == MAX_DELAY then c.entered else now;
    c.(pc := if check.expired then UnlockTx(ToGiveUp) else CheckRoom,
       ticks := check.ticks, timeOut := check.timeOut, entered := entered, excused := aborted)
  }

  function RunPlace<T>(s: State<T>, t: nat): State<T>
    requires t in s.calls
  {
    var item := Item(t, s.calls[t].rank);
    var s' := if s.calls[t].op.Send? then s.(senders := InsertSorted(s.senders, item))
              else s.(receivers := InsertSorted(s.receivers, item));
    Goto(s', t, UnlockTx(ToBlock)).(aborted := s.aborted - {t})
  }

  function RunResume<T>(s: State<T>, t: nat, exit: Exit): State<T>
    requires t in s.calls
  {
    var s' := s.(window := None);
    match exit
    case ToBlock => Goto(s', t, Blocked)
    case ToRetry => Goto(s', t, Test)
    case ToGiveUp => if s.calls[t].op.Send? then Fail(s', t) else Goto(s', t, Recheck)
  }

  predicate MustWait<T>(s: State<T>, op: Op<T>) {
    if op.Send? then |s.contents| == s.length else s.contents == []
  }

  function RunTask<T>(s: State<T>, t: nat): State<T>
    requires t in s.calls
  {
    match s.calls[t].pc
    case Test => RunTest(s, t)
    case Blocked => RunTest(s, t)
    case Lock => RunLock(s, t)
    case CheckTime => RunCheckTime(s, t)
    case CheckRoom => Goto(s, t, if MustWait(s, s.calls[t].op) then Place else UnlockTx(ToRetry))
    case Place => RunPlace(s, t)
    case UnlockTx(exit) => Goto(DrainReceivers(s), t, UnlockRx(exit))
    case UnlockRx(exit) => Goto(DrainSenders(s), t, Resume(exit))
    case Resume(exit) => RunResume(s, t, exit)
    case Recheck => if s.contents == [] then Fail(s, t) else Goto(s, t, Test)
  }

  /** Only one task is inside the locked section, and while it is, no other task runs and no tick is
      processed. The asserts of the source are part of this: an overwrite needs a queue of length one, and
      a lock count must not pass INT8_MAX. */
  predicate Enabled<T>(s: State<T>, e: Event<T>) {
    match e
    case Start(t, op, _, wait) =>
      s.window.None? && t !in s.calls && wait <= MAX_DELAY && (op.Send? ==> PositionOk(s, op.position))
    case Run(t) =>
      && t in s.calls && (s.window.None? || s.window == Some(t))
      && (s.calls[t].pc.Blocked? ==> !Has(s.receivers, t) && !Has(s.senders, t))
    case Cut(t) => s.window.None? && (Has(s.receivers, t) || Has(s.senders, t))
    case Abort(t) => s.window.None? && (Has(s.receivers, t) || Has(s.senders, t))
    case Revalue(t, _) => s.window.None? && t in s.calls
    case Tick => s.window.None?
    case IsrSend(_, position) => PositionOk(s, position) && s.txLock != INT8_MAX
    case IsrReceive => s.rxLock != INT8_MAX
  }

  predicate PositionOk<T>(s: State<T>, position: Position) {
    position == Overwrite ==> s.length == 1
  }

  function CutWait<T>(s: State<T>, t: nat): State<T>
    requires Has(s.receivers, t) || Has(s.senders, t)
  {
    if Has(s.receivers, t) then
      s.(receivers := Remove(s.receivers, t), wokenReceivers := s.wokenReceivers + {t})
    else
      s.(senders := Remove(s.senders, t), wokenSenders := s.wokenSenders + {t})
  }

  function Aborted<T>(s: State<T>, t: nat): State<T>
    requires Has(s.receivers, t) || Has(s.senders, t)
  {
    CutWait(s, t).(aborted := s.aborted + {t})
  }

  /** The event item gets its new value where it is: no waiting list is sorted again. */
  function Reranked<T>(s: State<T>, t: nat, rank: nat): State<T>
    requires t in s.calls
  {
    s.(calls := s.calls[t := s.calls[t].(rank := rank)],
       receivers := Revalued(s.receivers, t, rank), senders := Revalued(s.senders, t, rank))
  }

  function Started<T>(s: State<T>, t: nat, op: Op<T>, rank: nat, wait: nat): State<T> {
    s.(calls := s.calls[t := Call(op, rank, Test, wait, false, StampOf(0), wait, s.now, 0, false)])
  }

  /** One step of the system; an event that cannot happen in `s` changes nothing. */
  function Step<T>(s: State<T>, e: Event<T>): State<T> {
    if !Enabled(s, e) then s else
      match e
      case Start(t, op, rank, wait) => Started(s, t, op, rank, wait)
      case Run(t) => RunTask(s, t)
      case Cut(t) => CutWait(s, t)
      case Abort(t) => Aborted(s, t)
      case Revalue(t, rank) => Reranked(s, t, rank)
      case Tick => s.(now := s.now + 1)
      case IsrSend(item, position) => SendFromIsr(s, item, position)
      case IsrReceive => ReceiveFromIsr(s)
  }

  function Exec<T>(s: State<T>, es: seq<Event<T>>): State<T>
    decreases |es|
  {
    if es == [] then s else Exec(Step(s, es[0]), es[1..])
  }

  // ---------------------------------------------------------------- what every step keeps

  predicate Placed(pc: Pc) {
    pc.Blocked? || ((pc.UnlockTx? || pc.UnlockRx? || pc.Resume?) && pc.exit == ToBlock)
  }

  predicate InWindow(pc: Pc) {
    pc.CheckTime? || pc.CheckRoom? || pc.Place? || pc.UnlockTx? || pc.UnlockRx? || pc.Resume?
  }

  /** `t` has put itself on the waiting list of one side and has not tested the queue since. */
  predicate Awaits<T>(calls: map<nat, Call<T>>, sending: bool, t: nat) {
    t in calls && calls[t].op.Send? == sending && Placed(calls[t].pc)
  }

  /** One side: the woken tasks of that side are exactly those that placed themselves on the list, are off it again, and have not tested the queue. */
  ghost predicate SideOk<T>(calls: map<nat, Call<T>>, sending: bool, waiting: seq<Item>, woken: set<nat>) {
    && Distinct(waiting)
    && (forall t :: Has(waiting, t) ==> Awaits(calls, sending, t))
    && (forall t :: t in woken <==> Awaits(calls, sending, t) && !Has(waiting, t))
  }

  ghost predicate WindowOk<T>(s: State<T>) {
    && (forall t | t in s.calls :: InWindow(s.calls[t].pc) <==> s.window == Some(t))
    && (s.window.Some? ==> s.window.value in s.calls)
    && (if s.window.None? then s.rxLock == s.txLock == UNLOCKED
        else
          var pc := s.calls[s.window.value].pc;
          && (if pc.UnlockRx? || pc.Resume? then s.txLock == UNLOCKED else 0 <= s.txLock <= INT8_MAX)
          && (if pc.Resume? then s.rxLock == UNLOCKED else 0 <= s.rxLock <= INT8_MAX))
  }

  function Count(lock: int): nat {
    if lock > 0 then lock else 0
  }

  predicate Placing<T>(s: State<T>, sending: bool) {
    && s.window.Some? && s.window.value in s.calls
    && s.calls[s.window.value].pc == Place && s.calls[s.window.value].op.Send? == sending
  }

  /** Messages that nobody has been woken for can only be there while no receiver waits for them. */
  ghost predicate ReceiversServed<T>(s: State<T>) {
    && (s.receivers != [] ==> |s.contents| <= |s.wokenReceivers| + Count(s.txLock))
    && (Placing(s, false) ==> |s.contents| <= Count(s.txLock))
  }

  ghost predicate SendersServed<T>(s: State<T>) {
    && (s.senders != [] ==> s.length - |s.contents| <= |s.wokenSenders| + Count(s.rxLock))
    && (Placing(s, true) ==> s.length - |s.contents| <= Count(s.rxLock))
  }

  ghost predicate Inv<T>(s: State<T>) {
    && |s.contents| <= s.length
    && (forall t | t in s.calls && s.calls[t].op.Send? :: PositionOk(s, s.calls[t].op.position))
    && SideOk(s.calls, false, s.receivers, s.wokenReceivers)
    && SideOk(s.calls, true, s.senders, s.wokenSenders)
    && WindowOk(s)
    && ReceiversServed(s)
    && SendersServed(s)
  }

  // ---------------------------------------------------------------- preservation

  lemma WakeHeadOk<T>(calls: map<nat, Call<T>>, sending: bool, waiting: seq<Item>, woken: set<nat>)
    requires SideOk(calls, sending, waiting, woken) && waiting != []
    ensures SideOk(calls, sending, waiting[1..], woken + {waiting[0].owner})
    ensures |woken + {waiting[0].owner}| == |woken| + 1
  {
    TailKeepsMembers(waiting);
  }

  lemma WakeReceiverOk<T>(s: State<T>)
    requires SideOk(s.calls, false, s.receivers, s.wokenReceivers)
    ensures var s' := WakeReceiver(s);
            && SideOk(s.calls, false, s'.receivers, s'.wokenReceivers)
            && (s.receivers != [] ==> |s'.wokenReceivers| == |s.wokenReceivers| + 1)
  {
    if s.receivers != [] {
      WakeHeadOk(s.calls, false, s.receivers, s.wokenReceivers);
    }
  }

  lemma WakeSenderOk<T>(s: State<T>)
    requires SideOk(s.calls, true, s.senders, s.wokenSenders)
    ensures var s' := WakeSender(s);
            && SideOk(s.calls, true, s'.senders, s'.wokenSenders)
            && (s.senders != [] ==> |s'.wokenSenders| == |s.wokenSenders| + 1)
  {
    if s.senders != [] {
      WakeHeadOk(s.calls, true, s.senders, s.wokenSenders);
    }
  }

  lemma OwnersGrow(waiting: seq<Item>, n: nat)
    requires n < |waiting|
    ensures Owners(waiting[..n + 1]) == Owners(waiting[..n]) + {waiting[n].owner}
  {
    var a, b := waiting[..n], waiting[..n + 1];
    assert forall i | 0 <= i < n :: a[i] == b[i];
  }

  lemma DrainOneMore<T>(calls: map<nat, Call<T>>, sending: bool, waiting: seq<Item>, woken: set<nat>, n: nat)
    requires n < |waiting| && SideOk(calls, sending, waiting[n..], woken + Owners(waiting[..n]))
    ensures SideOk(calls, sending, waiting[n + 1..], woken + Owners(waiting[..n + 1]))
    ensures |woken + Owners(waiting[..n + 1])| == |woken + Owners(waiting[..n])| + 1
  {
    var k, k' := woken + Owners(waiting[..n]), woken + Owners(waiting[..n + 1]);
    assert k' == k + {waiting[n].owner} by {
      OwnersGrow(waiting, n);
    }
    assert waiting[n..][1..] == waiting[n + 1..];
    WakeOneMore(calls, sending, waiting[n..], k, waiting[n + 1..], k');
  }

  lemma DrainNone(waiting: seq<Item>, woken: set<nat>)
    ensures waiting[0..] == waiting && woken + Owners(waiting[..0]) == woken
  {
    assert waiting[..0] == [];
    assert Owners([]) == {};
  }

  lemma {:induction false} DrainOk<T>(calls: map<nat, Call<T>>, sending: bool, waiting: seq<Item>, woken: set<nat>, n: nat)
    requires SideOk(calls, sending, waiting, woken) && n <= |waiting|
    ensures SideOk(calls, sending, waiting[n..], woken + Owners(waiting[..n]))
    ensures |woken + Owners(waiting[..n])| == |woken| + n
    decreases n
  {
    if n == 0 {
      DrainNone(waiting, woken);
    } else {
      DrainOk(calls, sending, waiting, woken, n - 1);
      DrainOneMore(calls, sending, waiting, woken, n - 1);
    }
  }

  lemma WakeOneMore<T>(calls: map<nat, Call<T>>, sending: bool, w: seq<Item>, k: set<nat>, w': seq<Item>, k': set<nat>)
    requires SideOk(calls, sending, w, k) && w != []
    requires w' == w[1..] && k' == k + {w[0].owner}
    ensures SideOk(calls, sending, w', k') && |k'| == |k| + 1
  {
    WakeHeadOk(calls, sending, w, k);
  }

  /** All of `Inv` that does not depend on how full the queue is. */
  ghost predicate Structure<T>(s: State<T>) {
    && |s.contents| <= s.length
    && (forall t | t in s.calls && s.calls[t].op.Send? :: PositionOk(s, s.calls[t].op.position))
    && SideOk(s.calls, false, s.receivers, s.wokenReceivers)
    && SideOk(s.calls, true, s.senders, s.wokenSenders)
    && WindowOk(s)
  }

  /** One message more than there are woken receivers is put right by one wake-up. */
  lemma WakeReceiverRestores<T>(s: State<T>)
    requires Structure(s) && SendersServed(s) && (Placing(s, false) ==> |s.contents| <= Count(s.txLock))
    requires s.receivers != [] ==> |s.contents| <= |s.wokenReceivers| + Count(s.txLock) + 1
    ensures Inv(WakeReceiver(s))
  {
    WakeReceiverOk(s);
  }

  lemma WakeSenderRestores<T>(s: State<T>)
    requires Structure(s) && ReceiversServed(s) && (Placing(s, true) ==> s.length - |s.contents| <= Count(s.rxLock))
    requires s.senders != [] ==> s.length - |s.contents| <= |s.wokenSenders| + Count(s.rxLock) + 1
    ensures Inv(WakeSender(s))
  {
    WakeSenderOk(s);
  }

  lemma SendFromIsrKeepsInv<T>(s: State<T>, item: T, position: Position)
    requires Inv(s) && PositionOk(s, position) && s.txLock != INT8_MAX
    ensures Inv(SendFromIsr(s, item, position))
  {
    if HasRoom(s, position) && s.txLock == UNLOCKED {
      WakeReceiverRestores(Put(s, item, position));
    }
  }

  lemma ReceiveFromIsrKeepsInv<T>(s: State<T>)
    requires Inv(s) && s.rxLock != INT8_MAX
    ensures Inv(ReceiveFromIsr(s))
  {
    if s.contents != [] && s.rxLock == UNLOCKED {
      WakeSenderRestores(Take(s));
    }
  }

  lemma CutWaitKeepsInv<T>(s: State<T>, t: nat)
    requires Inv(s) && s.window.None? && (Has(s.receivers, t) || Has(s.senders, t))
    ensures Inv(CutWait(s, t))
  {
    if Has(s.receivers, t) {
      RemoveKeepsMembers(s.receivers, t);
    } else {
      RemoveKeepsMembers(s.senders, t);
    }
  }

  lemma GotoKeepsSides<T>(s: State<T>, t: nat, pc: Pc)
    requires t in s.calls && (Placed(pc) <==> Placed(s.calls[t].pc))
    requires SideOk(s.calls, false, s.receivers, s.wokenReceivers)
    requires SideOk(s.calls, true, s.senders, s.wokenSenders)
    ensures SideOk(Goto(s, t, pc).calls, false, s.receivers, s.wokenReceivers)
    ensures SideOk(Goto(s, t, pc).calls, true, s.senders, s.wokenSenders)
  {
    var s' := Goto(s, t, pc);
    assert forall u :: Awaits(s'.calls, false, u) <==> Awaits(s.calls, false, u);
    assert forall u :: Awaits(s'.calls, true, u) <==> Awaits(s.calls, true, u);
  }

  lemma DrainReceiversOk<T>(s: State<T>)
    requires SideOk(s.calls, false, s.receivers, s.wokenReceivers)
    ensures var d := DrainReceivers(s);
            && SideOk(s.calls, false, d.receivers, d.wokenReceivers)
            && (d.receivers != [] ==> s.receivers != [] && |d.wokenReceivers| == |s.wokenReceivers| + Count(s.txLock))
  {
    DrainOk(s.calls, false, s.receivers, s.wokenReceivers, Drained(s.txLock, s.receivers));
  }

  lemma DrainSendersOk<T>(s: State<T>)
    requires SideOk(s.calls, true, s.senders, s.wokenSenders)
    ensures var d := DrainSenders(s);
            && SideOk(s.calls, true, d.senders, d.wokenSenders)
            && (d.senders != [] ==> s.senders != [] && |d.wokenSenders| == |s.wokenSenders| + Count(s.rxLock))
  {
    DrainOk(s.calls, true, s.senders, s.wokenSenders, Drained(s.rxLock, s.senders));
  }

  lemma UnlockTxKeepsInv<T>(s: State<T>, t: nat)
    requires Inv(s) && s.window == Some(t) && s.calls[t].pc.UnlockTx?
    ensures Inv(Goto(DrainReceivers(s), t, UnlockRx(s.calls[t].pc.exit)))
  {
    DrainReceiversOk(s);
    AfterDrainReceivers(s, t, DrainReceivers(s));
  }

  lemma AfterDrainReceivers<T>(s: State<T>, t: nat, d: State<T>)
    requires Inv(s) && s.window == Some(t) && s.calls[t].pc.UnlockTx?
    requires d == s.(txLock := UNLOCKED, receivers := d.receivers, wokenReceivers := d.wokenReceivers)
    requires SideOk(s.calls, false, d.receivers, d.wokenReceivers)
    requires d.receivers != [] ==> s.receivers != [] && |d.wokenReceivers| == |s.wokenReceivers| + Count(s.txLock)
    ensures Inv(Goto(d, t, UnlockRx(s.calls[t].pc.exit)))
  {
    GotoKeepsSides(d, t, UnlockRx(s.calls[t].pc.exit));
  }

  lemma UnlockRxKeepsInv<T>(s: State<T>, t: nat)
    requires Inv(s) && s.window == Some(t) && s.calls[t].pc.UnlockRx?
    ensures Inv(Goto(DrainSenders(s), t, Resume(s.calls[t].pc.exit)))
  {
    DrainSendersOk(s);
    AfterDrainSenders(s, t, DrainSenders(s));
  }

  lemma AfterDrainSenders<T>(s: State<T>, t: nat, d: State<T>)
    requires Inv(s) && s.window == Some(t) && s.calls[t].pc.UnlockRx?
    requires d == s.(rxLock := UNLOCKED, senders := d.senders, wokenSenders := d.wokenSenders)
    requires SideOk(s.calls, true, d.senders, d.wokenSenders)
    requires d.senders != [] ==> s.senders != [] && |d.wokenSenders| == |s.wokenSenders| + Count(s.rxLock)
    ensures Inv(Goto(d, t, Resume(s.calls[t].pc.exit)))
  {
    GotoKeepsSides(d, t, Resume(s.calls[t].pc.exit));
  }

  lemma PlaceOnSide<T>(s: State<T>, t: nat, sending: bool, waiting: seq<Item>, woken: set<nat>)
    requires SideOk(s.calls, sending, waiting, woken)
    requires t in s.calls && s.calls[t].op.Send? == sending && s.calls[t].pc.Place?
    ensures SideOk(RunPlace(s, t).calls, sending, InsertSorted(waiting, Item(t, s.calls[t].rank)), woken)
  {
    var item := Item(t, s.calls[t].rank);
    assert !Has(waiting, t);
    InsertKeepsMembers(waiting, InsertPoint(waiting, item.value), item);
    var calls' := RunPlace(s, t).calls;
    assert forall u :: Awaits(calls', sending, u) <==> Awaits(s.calls, sending, u) || u == t;
  }

  lemma PlaceKeepsInv<T>(s: State<T>, t: nat)
    requires Inv(s) && s.window == Some(t) && s.calls[t].pc.Place?
    ensures Inv(RunTask(s, t))
  {
    var s', sending := RunTask(s, t), s.calls[t].op.Send?;
    var other := !sending;
    PlaceOnSide(s, t, sending, if sending then s.senders else s.receivers,
                if sending then s.wokenSenders else s.wokenReceivers);
    assert forall u :: Awaits(s'.calls, other, u) <==> Awaits(s.calls, other, u);
  }

  /** A call that tests the queue and leaves takes nothing but its own entries with it. */
  lemma LeaveKeepsStructure<T>(s: State<T>, t: nat)
    requires Inv(s) && s.window.None? && t in s.calls && !Has(s.receivers, t) && !Has(s.senders, t)
    ensures var s0 := Return(Tested(s, t), t);
            && Structure(s0)
            && |s0.wokenReceivers| >= |s.wokenReceivers| - (if s.calls[t].op.Send? then 0 else 1)
            && |s0.wokenSenders| >= |s.wokenSenders| - (if s.calls[t].op.Send? then 1 else 0)
  {
    var calls' := s.calls - {t};
    assert forall u :: Awaits(calls', false, u) <==> Awaits(s.calls, false, u) && u != t;
    assert forall u :: Awaits(calls', true, u) <==> Awaits(s.calls, true, u) && u != t;
    assert !Awaits(s.calls, !s.calls[t].op.Send?, t);
  }

  lemma SendKeepsInv<T>(s: State<T>, t: nat)
    requires Inv(s) && s.window.None? && t in s.calls && !Has(s.receivers, t) && !Has(s.senders, t)
    requires s.calls[t].op.Send? && HasRoom(s, s.calls[t].op.position)
    ensures Inv(RunTest(s, t))
  {
    LeaveKeepsStructure(s, t);
    var s1 := Put(Return(Tested(s, t), t), s.calls[t].op.item, s.calls[t].op.position);
    assert Structure(s1);
    WakeReceiverRestores(s1);
    assert RunTest(s, t) == WakeReceiver(s1);
  }

  lemma ReceiveKeepsInv<T>(s: State<T>, t: nat)
    requires Inv(s) && s.window.None? && t in s.calls && !Has(s.receivers, t) && !Has(s.senders, t)
    requires s.calls[t].op.Receive? && s.contents != []
    ensures Inv(RunTest(s, t))
  {
    LeaveKeepsStructure(s, t);
    var s1 := Take(Return(Tested(s, t), t));
    assert Structure(s1);
    WakeSenderRestores(s1);
    assert RunTest(s, t) == WakeSender(s1);
  }

  lemma PeekKeepsInv<T>(s: State<T>, t: nat)
    requires Inv(s) && s.window.None? && t in s.calls && !Has(s.receivers, t) && !Has(s.senders, t)
    requires s.calls[t].op.Peek? && s.contents != []
    ensures Inv(RunTest(s, t))
  {
    LeaveKeepsStructure(s, t);
    var s1 := Return(Tested(s, t), t);
    WakeReceiverRestores(s1);
    assert RunTest(s, t) == WakeReceiver(s1);
  }

  lemma FailKeepsInv<T>(s: State<T>, t: nat)
    requires Inv(s) && s.window.None? && t in s.calls && !Has(s.receivers, t) && !Has(s.senders, t)
    requires !CanProceed(s, s.calls[t].op) && s.calls[t].ticks == 0
    ensures Inv(RunTest(s, t))
  {
    LeaveKeepsStructure(s, t);
  }

  lemma GoOnKeepsSide<T>(s: State<T>, t: nat, sending: bool, waiting: seq<Item>, woken: set<nat>)
    requires SideOk(s.calls, sending, waiting, woken) && t in s.calls && !Has(waiting, t)
    ensures SideOk(GoOn(s, t).calls, sending, waiting, woken - {t})
  {
    var calls' := GoOn(s, t).calls;
    assert forall u :: Awaits(calls', sending, u) <==> Awaits(s.calls, sending, u) && u != t;
  }

  lemma GoOnKeepsInv<T>(s: State<T>, t: nat)
    requires Inv(s) && s.window.None? && t in s.calls && !Has(s.receivers, t) && !Has(s.senders, t)
    requires !CanProceed(s, s.calls[t].op)
    ensures Inv(GoOn(s, t))
  {
    GoOnKeepsSide(s, t, false, s.receivers, s.wokenReceivers);
    GoOnKeepsSide(s, t, true, s.senders, s.wokenSenders);
    assert !Awaits(s.calls, !s.calls[t].op.Send?, t);
  }

  lemma TestKeepsInv<T>(s: State<T>, t: nat)
    requires Inv(s) && s.window.None? && t in s.calls && !Has(s.receivers, t) && !Has(s.senders, t)
    ensures Inv(RunTest(s, t))
  {
    if !CanProceed(s, s.calls[t].op) {
      if s.calls[t].ticks == 0 {
        FailKeepsInv(s, t);
      } else {
        GoOnKeepsInv(s, t);
      }
    } else {
      match s.calls[t].op {
        case Send(_, _) => SendKeepsInv(s, t);
        case Receive => ReceiveKeepsInv(s, t);
        case Peek => PeekKeepsInv(s, t);
      }
    }
  }

  lemma LockKeepsInv<T>(s: State<T>, t: nat)
    requires Inv(s) && s.window.None? && t in s.calls && s.calls[t].pc.Lock?
    ensures Inv(RunTask(s, t))
  {
    GotoKeepsSides(s, t, CheckTime);
  }

  lemma CheckTimeKeepsInv<T>(s: State<T>, t: nat)
    requires Inv(s) && s.window == Some(t) && s.calls[t].pc.CheckTime?
    ensures Inv(RunTask(s, t))
  {
    var s' := RunTask(s, t);
    GotoKeepsSides(s, t, s'.calls[t].pc);
    assert forall u :: Awaits(s'.calls, false, u) <==> Awaits(s.calls, false, u);
    assert forall u :: Awaits(s'.calls, true, u) <==> Awaits(s.calls, true, u);
  }

  lemma RoomMissingKeepsInv<T>(s: State<T>, t: nat)
    requires Inv(s) && s.window == Some(t) && s.calls[t].pc.CheckRoom? && MustWait(s, s.calls[t].op)
    ensures Inv(Goto(s, t, Place))
  {
    GotoKeepsSides(s, t, Place);
  }

  lemma RoomFoundKeepsInv<T>(s: State<T>, t: nat)
    requires Inv(s) && s.window == Some(t) && s.calls[t].pc.CheckRoom?
    ensures Inv(Goto(s, t, UnlockTx(ToRetry)))
  {
    GotoKeepsSides(s, t, UnlockTx(ToRetry));
  }

  lemma CheckRoomKeepsInv<T>(s: State<T>, t: nat)
    requires Inv(s) && s.window == Some(t) && s.calls[t].pc.CheckRoom?
    ensures Inv(Goto(s, t, if MustWait(s, s.calls[t].op) then Place else UnlockTx(ToRetry)))
  {
    if MustWait(s, s.calls[t].op) {
      RoomMissingKeepsInv(s, t);
    } else {
      RoomFoundKeepsInv(s, t);
    }
  }

  lemma ResumeKeepsInv<T>(s: State<T>, t: nat)
    requires Inv(s) && s.window == Some(t) && s.calls[t].pc.Resume?
    ensures Inv(RunTask(s, t))
  {
    match s.calls[t].pc.exit {
      case ToBlock => BlockKeepsInv(s, t);
      case ToRetry => RetryKeepsInv(s, t);
      case ToGiveUp => GiveUpKeepsInv(s, t);
    }
  }

  lemma BlockKeepsInv<T>(s: State<T>, t: nat)
    requires Inv(s) && s.window == Some(t) && s.calls[t].pc == Resume(ToBlock)
    ensures Inv(RunTask(s, t))
  {
    GotoKeepsSides(s, t, Blocked);
  }

  lemma RetryKeepsInv<T>(s: State<T>, t: nat)
    requires Inv(s) && s.window == Some(t) && s.calls[t].pc == Resume(ToRetry)
    ensures Inv(RunTask(s, t))
  {
    GotoKeepsSides(s, t, Test);
  }

  lemma SendGivesUpKeepsInv<T>(s: State<T>, t: nat)
    requires Inv(s) && s.window == Some(t) && s.calls[t].pc == Resume(ToGiveUp)
    ensures Inv(Fail(s.(window := None), t))
  {
    var calls' := s.calls - {t};
    assert forall u :: Awaits(calls', false, u) <==> Awaits(s.calls, false, u);
    assert forall u :: Awaits(calls', true, u) <==> Awaits(s.calls, true, u);
  }

  lemma ReceiveGivesUpKeepsInv<T>(s: State<T>, t: nat)
    requires Inv(s) && s.window == Some(t) && s.calls[t].pc == Resume(ToGiveUp)
    ensures Inv(Goto(s.(window := None), t, Recheck))
  {
    GotoKeepsSides(s, t, Recheck);
  }

  lemma GiveUpKeepsInv<T>(s: State<T>, t: nat)
    requires Inv(s) && s.window == Some(t) && s.calls[t].pc == Resume(ToGiveUp)
    ensures Inv(RunResume(s, t, ToGiveUp))
  {
    if s.calls[t].op.Send? {
      SendGivesUpKeepsInv(s, t);
    } else {
      ReceiveGivesUpKeepsInv(s, t);
    }
  }

  lemma RecheckKeepsInv<T>(s: State<T>, t: nat)
    requires Inv(s) && s.window.None? && t in s.calls && s.calls[t].pc.Recheck?
    ensures Inv(RunTask(s, t))
  {
    var s' := RunTask(s, t);
    GotoKeepsSides(s, t, Test);
    assert forall u :: Awaits(s'.calls, false, u) <==> Awaits(s.calls, false, u);
    assert forall u :: Awaits(s'.calls, true, u) <==> Awaits(s.calls, true, u);
  }

  lemma RunKeepsInv<T>(s: State<T>, t: nat)
    requires Inv(s) && Enabled(s, Run(t))
    ensures Inv(RunTask(s, t))
  {
    match s.calls[t].pc {
      case Test => TestKeepsInv(s, t);
      case Blocked => TestKeepsInv(s, t);
      case Lock => LockKeepsInv(s, t);
      case CheckTime => CheckTimeKeepsInv(s, t);
      case CheckRoom => CheckRoomKeepsInv(s, t);
      case Place => PlaceKeepsInv(s, t);
      case UnlockTx(_) => UnlockTxKeepsInv(s, t);
      case UnlockRx(_) => UnlockRxKeepsInv(s, t);
      case Resume(_) => ResumeKeepsInv(s, t);
      case Recheck => RecheckKeepsInv(s, t);
    }
  }

  lemma StartKeepsInv<T>(s: State<T>, t: nat, op: Op<T>, rank: nat, wait: nat)
    requires Inv(s) && s.window.None? && t !in s.calls && (op.Send? ==> PositionOk(s, op.position))
    ensures Inv(Started(s, t, op, rank, wait))
  {
    var calls' := Started(s, t, op, rank, wait).calls;
    assert forall u :: Awaits(calls', false, u) <==> Awaits(s.calls, false, u);
    assert forall u :: Awaits(calls', true, u) <==> Awaits(s.calls, true, u);
  }

  lemma AbortKeepsInv<T>(s: State<T>, t: nat)
    requires Inv(s) && s.window.None? && (Has(s.receivers, t) || Has(s.senders, t))
    ensures Inv(Aborted(s, t))
  {
    CutWaitKeepsInv(s, t);
  }

  lemma RerankKeepsInv<T>(s: State<T>, t: nat, rank: nat)
    requires Inv(s) && t in s.calls
    ensures Inv(Reranked(s, t, rank))
  {
    RevaluedMembers(s.receivers, t, rank);
    RevaluedMembers(s.senders, t, rank);
    var calls' := Reranked(s, t, rank).calls;
    assert forall u :: Awaits(calls', false, u) <==> Awaits(s.calls, false, u);
    assert forall u :: Awaits(calls', true, u) <==> Awaits(s.calls, true, u);
  }

  lemma TickKeepsInv<T>(s: State<T>)
    requires Inv(s)
    ensures Inv(s.(now := s.now + 1))
  {
  }

  lemma InterruptKeepsInv<T>(s: State<T>, e: Event<T>)
    requires Inv(s) && Enabled(s, e) && (e.Tick? || e.IsrSend? || e.IsrReceive?)
    ensures Inv(Step(s, e))
  {
    match e {
      case IsrSend(item, position) => SendFromIsrKeepsInv(s, item, position);
      case IsrReceive => ReceiveFromIsrKeepsInv(s);
      case _ => TickKeepsInv(s);
    }
  }

  lemma StepKeepsInv<T>(s: State<T>, e: Event<T>)
    requires Inv(s)
    ensures Inv(Step(s, e))
  {
    if Enabled(s, e) {
      match e {
        case Start(t, op, rank, wait) => StartKeepsInv(s, t, op, rank, wait);
        case Run(t) => RunKeepsInv(s, t);
        case Cut(t) => CutWaitKeepsInv(s, t);
        case Abort(t) => AbortKeepsInv(s, t);
        case Revalue(t, rank) => RerankKeepsInv(s, t, rank);
        case _ => InterruptKeepsInv(s, e);
      }
    }
  }

  lemma {:induction false} ExecKeepsInv<T>(s: State<T>, es: seq<Event<T>>)
    requires Inv(s)
    ensures Inv(Exec(s, es))
    decreases |es|
  {
    if es != [] {
      StepKeepsInv(s, es[0]);
      ExecKeepsInv(Step(s, es[0]), es[1..]);
    }
  }

  // ---------------------------------------------------------------- no lost wake-up

  /** The tasks taken off the waiting list of one side that have not tested the queue since. */
  function Woken<T>(s: State<T>, sending: bool): set<nat> {
    var waiting := if sending then s.senders else s.receivers;
    set t | t in s.calls && Awaits(s.calls, sending, t) && !Has(waiting, t)
  }

  /** In every reachable state, if a side is unlocked and a task is still listed as waiting on it, every
      message (or free slot) is matched by a task that has been woken and is on its way to the queue. */
  lemma NoLostWakeUp<T>(length: nat, now: nat, es: seq<Event<T>>)
    ensures var s := Exec(Init(length, now), es);
            && (s.txLock == UNLOCKED && s.receivers != [] ==> |s.contents| <= |Woken(s, false)|)
            && (s.rxLock == UNLOCKED && s.senders != [] ==> length - |s.contents| <= |Woken(s, true)|)
  {
    var s := Exec(Init(length, now), es);
    ExecKeepsInv(Init(length, now), es);
    LengthIsFixed(Init(length, now), es);
    assert Woken(s, false) == s.wokenReceivers;
    assert Woken(s, true) == s.wokenSenders;
  }

  /** Hence nobody sleeps next to what it waits for: once every woken task has tested the queue, receivers
      wait only on an empty queue and senders only on a full one. */
  lemma NobodySleepsOnWork<T>(length: nat, now: nat, es: seq<Event<T>>)
    ensures var s := Exec(Init(length, now), es);
            s.window.None? && Woken(s, false) == {} && Woken(s, true) == {} ==>
              (s.receivers != [] ==> s.contents == []) && (s.senders != [] ==> |s.contents| == length)
  {
    NoLostWakeUp(length, now, es);
    ExecKeepsInv(Init(length, now), es);
    LengthIsFixed(Init(length, now), es);
  }

  /** Nobody leaves the list, or the front of it does. */
  ghost predicate FrontLeaves(w: seq<Item>, w': seq<Item>) {
    (forall t :: Has(w, t) ==> Has(w', t)) || exists n :: 0 <= n <= |w| && w' == w[n..]
  }

  lemma PlacingTakesNobody(w: seq<Item>, x: Item)
    ensures FrontLeaves(w, InsertSorted(w, x))
  {
    var p, r := InsertPoint(w, x.value), InsertSorted(w, x);
    forall t | Has(w, t)
      ensures Has(r, t)
    {
      var i := Find(w, t);
      assert r[if i < p then i else i + 1].owner == t;
    }
  }

  /** The first item, or the first `n`, or nobody has left. */
  predicate Shortened(w: seq<Item>, w': seq<Item>, n: nat)
    requires n <= |w|
  {
    w' == w || (w != [] && w' == w[1..]) || w' == w[n..]
  }

  lemma ShortenedIsFront(w: seq<Item>, w': seq<Item>, n: nat)
    requires n <= |w| && Shortened(w, w', n)
    ensures FrontLeaves(w, w')
  {
  }

  lemma TestShortens<T>(s: State<T>, t: nat)
    requires t in s.calls
    ensures Shortened(s.receivers, RunTest(s, t).receivers, 0) && Shortened(s.senders, RunTest(s, t).senders, 0)
  {
  }

  lemma RunShortens<T>(s: State<T>, t: nat)
    requires t in s.calls && !s.calls[t].pc.Place?
    ensures Shortened(s.receivers, RunTask(s, t).receivers, Drained(s.txLock, s.receivers))
    ensures Shortened(s.senders, RunTask(s, t).senders, Drained(s.rxLock, s.senders))
  {
    var pc := s.calls[t].pc;
    if pc.Test? || pc.Blocked? {
      TestShortens(s, t);
    } else if pc.UnlockTx? {
      UnlockTxShortens(s, t);
    } else if pc.UnlockRx? {
      UnlockRxShortens(s, t);
    } else {
      OthersLeaveLists(s, t);
    }
  }

  lemma UnlockTxShortens<T>(s: State<T>, t: nat)
    requires t in s.calls && s.calls[t].pc.UnlockTx?
    ensures RunTask(s, t).receivers == s.receivers[Drained(s.txLock, s.receivers)..] && RunTask(s, t).senders == s.senders
  {
  }

  lemma UnlockRxShortens<T>(s: State<T>, t: nat)
    requires t in s.calls && s.calls[t].pc.UnlockRx?
    ensures RunTask(s, t).senders == s.senders[Drained(s.rxLock, s.senders)..] && RunTask(s, t).receivers == s.receivers
  {
  }

  lemma OthersLeaveLists<T>(s: State<T>, t: nat)
    requires t in s.calls
    requires var pc := s.calls[t].pc; pc.Lock? || pc.CheckTime? || pc.CheckRoom? || pc.Resume? || pc.Recheck?
    ensures RunTask(s, t).receivers == s.receivers && RunTask(s, t).senders == s.senders
  {
  }

  lemma PlaceTakesNobody<T>(s: State<T>, t: nat)
    requires t in s.calls && s.calls[t].pc.Place?
    ensures FrontLeaves(s.receivers, RunTask(s, t).receivers) && FrontLeaves(s.senders, RunTask(s, t).senders)
  {
    PlacingTakesNobody(s.receivers, Item(t, s.calls[t].rank));
    PlacingTakesNobody(s.senders, Item(t, s.calls[t].rank));
  }

  lemma RunTakesFront<T>(s: State<T>, t: nat)
    requires t in s.calls && !s.calls[t].pc.Place?
    ensures FrontLeaves(s.receivers, RunTask(s, t).receivers) && FrontLeaves(s.senders, RunTask(s, t).senders)
  {
    RunShortens(s, t);
    ShortenedIsFront(s.receivers, RunTask(s, t).receivers, Drained(s.txLock, s.receivers));
    ShortenedIsFront(s.senders, RunTask(s, t).senders, Drained(s.rxLock, s.senders));
  }

  lemma IsrShortens<T>(s: State<T>, e: Event<T>)
    requires !e.Cut? && !e.Abort? && !e.Run? && !e.Revalue?
    ensures Shortened(s.receivers, Step(s, e).receivers, 0) && Shortened(s.senders, Step(s, e).senders, 0)
  {
  }

  lemma RerankTakesNobody<T>(s: State<T>, t: nat, rank: nat)
    requires t in s.calls
    ensures FrontLeaves(s.receivers, Reranked(s, t, rank).receivers) && FrontLeaves(s.senders, Reranked(s, t, rank).senders)
  {
    RevaluedMembers(s.receivers, t, rank);
    RevaluedMembers(s.senders, t, rank);
  }

  lemma StepTakesFront<T>(s: State<T>, e: Event<T>)
    requires !e.Cut? && !e.Abort? && Enabled(s, e)
    ensures FrontLeaves(s.receivers, Step(s, e).receivers) && FrontLeaves(s.senders, Step(s, e).senders)
  {
    if e.Run? {
      if s.calls[e.t].pc.Place? {
        PlaceTakesNobody(s, e.t);
      } else {
        RunTakesFront(s, e.t);
      }
    } else if e.Revalue? {
      RerankTakesNobody(s, e.t, e.rank);
    } else {
      IsrShortens(s, e);
      ShortenedIsFront(s.receivers, Step(s, e).receivers, 0);
      ShortenedIsFront(s.senders, Step(s, e).senders, 0);
    }
  }

  ghost predicate InOrder<T>(s: State<T>) {
    Sorted(s.receivers) && Sorted(s.senders)
  }

  /** A change of priority fits in if the new value is between those of the neighbours on the list. */
  predicate Fits<T>(s: State<T>, e: Event<T>) {
    e.Revalue? && Enabled(s, e) ==> FitsIn(s.receivers, e.t, e.rank) && FitsIn(s.senders, e.t, e.rank)
  }

  lemma ShortenedInOrder(w: seq<Item>, w': seq<Item>, n: nat)
    requires n <= |w| && Shortened(w, w', n) && Sorted(w)
    ensures Sorted(w')
  {
  }

  lemma PlaceInOrder<T>(s: State<T>, t: nat)
    requires InOrder(s) && t in s.calls && s.calls[t].pc.Place?
    ensures InOrder(RunTask(s, t))
  {
    InsertSortedIsStable(s.receivers, Item(t, s.calls[t].rank));
    InsertSortedIsStable(s.senders, Item(t, s.calls[t].rank));
  }

  lemma RunInOrder<T>(s: State<T>, t: nat)
    requires InOrder(s) && t in s.calls
    ensures InOrder(RunTask(s, t))
  {
    if s.calls[t].pc.Place? {
      PlaceInOrder(s, t);
    } else {
      RunShortens(s, t);
      ShortenedInOrder(s.receivers, RunTask(s, t).receivers, Drained(s.txLock, s.receivers));
      ShortenedInOrder(s.senders, RunTask(s, t).senders, Drained(s.rxLock, s.senders));
    }
  }

  lemma CutInOrder<T>(s: State<T>, t: nat)
    requires Inv(s) && InOrder(s) && (Has(s.receivers, t) || Has(s.senders, t))
    ensures InOrder(CutWait(s, t))
  {
    if Has(s.receivers, t) {
      RemoveKeepsMembers(s.receivers, t);
    } else {
      RemoveKeepsMembers(s.senders, t);
    }
  }

  /** A step leaves the waiting lists in order of urgency exactly if it is not a change of priority that does not fit
      in where the task is. */
  lemma StepKeepsOrderIff<T>(s: State<T>, e: Event<T>)
    requires Inv(s) && InOrder(s)
    ensures InOrder(Step(s, e)) <==> Fits(s, e)
  {
    if Enabled(s, e) {
      match e {
        case Run(t) => RunInOrder(s, t);
        case Cut(t) => CutInOrder(s, t);
        case Abort(t) => CutInOrder(s, t);
        case Revalue(t, rank) =>
          RevalueKeepsOrderIff(s.receivers, t, rank);
          RevalueKeepsOrderIff(s.senders, t, rank);
        case _ =>
          IsrShortens(s, e);
          ShortenedInOrder(s.receivers, Step(s, e).receivers, 0);
          ShortenedInOrder(s.senders, Step(s, e).senders, 0);
      }
    }
  }

  ghost predicate AlwaysInOrder<T>(s: State<T>, es: seq<Event<T>>)
    decreases |es|
  {
    InOrder(s) && (es == [] || AlwaysInOrder(Step(s, es[0]), es[1..]))
  }

  predicate AlwaysFits<T>(s: State<T>, es: seq<Event<T>>)
    decreases |es|
  {
    es == [] || (Fits(s, es[0]) && AlwaysFits(Step(s, es[0]), es[1..]))
  }

  /** Over whole runs: the lists are in order all the way exactly if every change of priority fits in. */
  lemma {:induction false} OrderLastsIff<T>(s: State<T>, es: seq<Event<T>>)
    requires Inv(s) && InOrder(s)
    ensures AlwaysInOrder(s, es) <==> AlwaysFits(s, es)
    ensures AlwaysFits(s, es) ==> InOrder(Exec(s, es))
    decreases |es|
  {
    if es != [] {
      StepKeepsInv(s, es[0]);
      StepKeepsOrderIff(s, es[0]);
      if InOrder(Step(s, es[0])) {
        OrderLastsIff(Step(s, es[0]), es[1..]);
      }
    }
  }

  /** `u` is off the list and `v` is still on it. */
  predicate Overtakes(w: seq<Item>, w': seq<Item>, u: nat, v: nat) {
    Has(w, u) && !Has(w', u) && Has(w, v) && Has(w', v)
  }

  lemma FrontIsUrgent(w: seq<Item>, w': seq<Item>, u: nat, v: nat)
    requires Sorted(w) && Distinct(w) && FrontLeaves(w, w') && Overtakes(w, w', u, v)
    ensures w[Find(w, u)].value <= w[Find(w, v)].value
  {
    var n :| 0 <= n <= |w| && w' == w[n..];
    LeaverIsInFront(w, n, u);
    FindIsUnique(w, n + Find(w', v));
  }

  lemma LeaverIsInFront(w: seq<Item>, n: nat, u: nat)
    requires n <= |w| && Has(w, u) && !Has(w[n..], u)
    ensures Find(w, u) < n
  {
    forall j | n <= j < |w|
      ensures w[j].owner != u
    {
      assert w[n..][j - n] == w[j];
    }
  }

  /** Nobody who leaves is less urgent than anybody who stays. */
  ghost predicate UrgentFirst(w: seq<Item>, w': seq<Item>) {
    forall u, v | Overtakes(w, w', u, v) :: w[Find(w, u)].value <= w[Find(w, v)].value
  }

  lemma FrontIsUrgentFirst(w: seq<Item>, w': seq<Item>)
    requires Sorted(w) && Distinct(w) && FrontLeaves(w, w')
    ensures UrgentFirst(w, w')
  {
    forall u, v | Overtakes(w, w', u, v)
      ensures w[Find(w, u)].value <= w[Find(w, v)].value
    {
      FrontIsUrgent(w, w', u, v);
    }
  }

  /** In every run in which every change of priority fits in, whatever step takes tasks off a waiting list other than
      by cutting their own wait short takes the most urgent ones first. */
  lemma WakesMostUrgent<T>(length: nat, now: nat, es: seq<Event<T>>, e: Event<T>)
    requires AlwaysFits(Init<T>(length, now), es)
    ensures var s := Exec(Init(length, now), es);
            !e.Cut? && !e.Abort? && Enabled(s, e) ==>
              UrgentFirst(s.receivers, Step(s, e).receivers) && UrgentFirst(s.senders, Step(s, e).senders)
  {
    ExecKeepsInv(Init<T>(length, now), es);
    OrderLastsIff(Init<T>(length, now), es);
    var s := Exec(Init(length, now), es);
    if !e.Cut? && !e.Abort? && Enabled(s, e) {
      StepTakesFront(s, e);
      FrontIsUrgentFirst(s.receivers, Step(s, e).receivers);
      FrontIsUrgentFirst(s.senders, Step(s, e).senders);
    }
  }

  lemma {:induction false} LengthIsFixed<T>(s: State<T>, es: seq<Event<T>>)
    ensures Exec(s, es).length == s.length
    decreases |es|
  {
    if es != [] {
      StepFrame(s, es[0]);
      LengthIsFixed(Step(s, es[0]), es[1..]);
    }
  }

  lemma StepFrame<T>(s: State<T>, e: Event<T>)
    ensures Step(s, e).length == s.length
  {
  }

  // ---------------------------------------------------------------- no early timeout

  predicate Expired<T>(c: Call<T>, now: nat) {
    c.wait < MAX_DELAY && c.start + c.wait <= now
  }

  /** What a call knows about its deadline `start + wait`. */
  predicate CallTimely<T>(c: Call<T>, now: nat) {
    && c.wait <= MAX_DELAY
    && (c.wait == MAX_DELAY ==> c.ticks == MAX_DELAY)
    && (c.wait < MAX_DELAY ==> c.ticks <= c.wait)
    && (!c.entrySet ==> c.pc == Test && c.ticks == c.wait && c.start <= now)
    && (c.entrySet ==>
          && c.entered <= now && c.timeOut == StampOf(c.entered)
          && (c.ticks == 0 ==> Expired(c, now))
          && (c.ticks > 0 ==> c.start + c.wait <= c.entered + c.ticks))
    && ((c.pc.Lock? || c.pc.CheckTime?) ==> c.ticks > 0)
    && (((c.pc.UnlockTx? || c.pc.UnlockRx? || c.pc.Resume?) && c.pc.exit == ToGiveUp) || c.pc.Recheck? ==> c.ticks == 0 || c.excused)
  }

  predicate FailureTimely(f: Failure) {
    f.wait == 0 || f.excused || (f.wait < MAX_DELAY && f.start + f.wait <= f.at)
  }

  ghost predicate TimeInv<T>(s: State<T>) {
    && (forall t | t in s.calls :: CallTimely(s.calls[t], s.now))
    && (forall f | f in s.failures :: FailureTimely(f))
  }

  lemma CheckTimeKeepsTime<T>(c: Call<T>, now: nat, aborted: bool)
    requires CallTimely(c, now) && c.pc.CheckTime?
    ensures CallTimely(Checked(c, now, aborted), now)
  {
    if c.ticks != MAX_DELAY {
      CheckIsNeverEarly(c.entered, c.ticks, now, aborted);
    }
  }

  lemma TestKeepsTime<T>(s: State<T>, t: nat)
    requires TimeInv(s) && t in s.calls && (s.calls[t].pc.Test? || s.calls[t].pc.Blocked?)
    ensures TimeInv(RunTest(s, t))
  {
    var c, s' := s.calls[t], RunTest(s, t);
    if CanProceed(s, c.op) {
      assert s'.calls == s.calls - {t} && s'.failures == s.failures && s'.now == s.now;
    }
  }

  lemma ResumeKeepsTime<T>(s: State<T>, t: nat)
    requires TimeInv(s) && t in s.calls && s.calls[t].pc.Resume?
    ensures TimeInv(RunResume(s, t, s.calls[t].pc.exit))
  {
    assert CallTimely(s.calls[t], s.now);
  }

  lemma RunKeepsTime<T>(s: State<T>, t: nat)
    requires TimeInv(s) && t in s.calls
    ensures TimeInv(RunTask(s, t))
  {
    var c, s' := s.calls[t], RunTask(s, t);
    match c.pc {
      case Test => TestKeepsTime(s, t);
      case Blocked => TestKeepsTime(s, t);
      case CheckTime => CheckTimeKeepsTime(c, s.now, t in s.aborted);
      case Resume(_) => ResumeKeepsTime(s, t);
      case _ =>
    }
  }

  lemma StepKeepsTime<T>(s: State<T>, e: Event<T>)
    requires TimeInv(s)
    ensures TimeInv(Step(s, e))
  {
    if Enabled(s, e) {
      if e.Run? {
        RunKeepsTime(s, e.t);
      } else if e.Tick? {
        assert forall c: Call<T> :: CallTimely(c, s.now) ==> CallTimely(c, s.now + 1);
      }
    }
  }

  lemma {:induction false} ExecKeepsTime<T>(s: State<T>, es: seq<Event<T>>)
    requires TimeInv(s)
    ensures TimeInv(Exec(s, es))
    decreases |es|
  {
    if es != [] {
      StepKeepsTime(s, es[0]);
      ExecKeepsTime(Step(s, es[0]), es[1..]);
    }
  }

  /** The tasks for which `es` holds an abort. */
  ghost function AbortedIn<T>(es: seq<Event<T>>): set<nat> {
    if es == [] then {} else (if es[0].Abort? then {es[0].t} else {}) + AbortedIn(es[1..])
  }

  /** Whoever has the flag, or is excused by it, is one of `ts`. */
  ghost predicate ExcusedAmong<T>(s: State<T>, ts: set<nat>) {
    && s.aborted <= ts
    && (forall t | t in s.calls && s.calls[t].excused :: t in ts)
    && (forall f | f in s.failures && f.excused :: f.t in ts)
  }

  lemma TestKeepsExcused<T>(s: State<T>, t: nat, ts: set<nat>)
    requires ExcusedAmong(s, ts) && t in s.calls
    ensures ExcusedAmong(RunTest(s, t), ts)
  {
    var s' := RunTest(s, t);
    if CanProceed(s, s.calls[t].op) {
      assert s'.calls == s.calls - {t} && s'.failures == s.failures && s'.aborted == s.aborted;
    }
  }

  lemma RunKeepsExcused<T>(s: State<T>, t: nat, ts: set<nat>)
    requires ExcusedAmong(s, ts) && t in s.calls
    ensures ExcusedAmong(RunTask(s, t), ts)
  {
    match s.calls[t].pc {
      case Test => TestKeepsExcused(s, t, ts);
      case Blocked => TestKeepsExcused(s, t, ts);
      case _ =>
    }
  }

  lemma StepKeepsExcused<T>(s: State<T>, e: Event<T>, ts: set<nat>)
    requires ExcusedAmong(s, ts)
    ensures ExcusedAmong(Step(s, e), ts + if e.Abort? then {e.t} else {})
  {
    if Enabled(s, e) && e.Run? {
      RunKeepsExcused(s, e.t, ts);
    }
  }

  lemma {:induction false} ExecKeepsExcused<T>(s: State<T>, es: seq<Event<T>>, ts: set<nat>)
    requires ExcusedAmong(s, ts)
    ensures ExcusedAmong(Exec(s, es), ts + AbortedIn(es))
    decreases |es|
  {
    if es != [] {
      var ts' := ts + if es[0].Abort? then {es[0].t} else {};
      StepKeepsExcused(s, es[0], ts);
      ExecKeepsExcused(Step(s, es[0]), es[1..], ts');
      assert ts' + AbortedIn(es[1..]) == ts + AbortedIn(es);
    }
  }

  /** However often it is woken for nothing and whatever the tick count wraps to, a call with a finite
      non-zero wait reports the queue full or empty only once that wait is over, and a call that waits for
      ever never does, unless its last look at the time found that its delay had been aborted; and that
      happens only to tasks whose delay some xTaskAbortDelay has ended. */
  lemma NoEarlyTimeout<T>(length: nat, now: nat, es: seq<Event<T>>)
    ensures forall f | f in Exec(Init<T>(length, now), es).failures ::
              && (f.wait == 0 || f.excused || (f.wait < MAX_DELAY && f.start + f.wait <= f.at))
              && (f.excused ==> f.t in AbortedIn(es))
  {
    ExecKeepsTime(Init<T>(length, now), es);
    ExecKeepsExcused(Init<T>(length, now), es, {});
  }

  // ---------------------------------------------------------------- which call an abort hits

  /** The two sections of a call that clear the abort flag: its looks at the time, and putting itself on a list. */
  predicate Clears<T>(s: State<T>, e: Event<T>, t: nat) {
    e == Run(t) && t in s.calls && (s.calls[t].pc.CheckTime? || s.calls[t].pc.Place?)
  }

  /** Finding what it needs, a call changes none of this. */
  lemma ProceedLeaves<T>(s: State<T>, op: Op<T>)
    requires CanProceed(s, op)
    ensures var s' := Proceed(s, op);
            s'.calls == s.calls && s'.aborted == s.aborted && s'.failures == s.failures && s'.now == s.now && s'.window == s.window
  {
  }

  lemma TestKeepsFlags<T>(s: State<T>, u: nat)
    requires u in s.calls
    ensures RunTest(s, u).aborted == s.aborted
  {
    if CanProceed(s, s.calls[u].op) {
      ProceedLeaves(Tested(s, u), s.calls[u].op);
    }
  }

  lemma RunKeepsFlag<T>(s: State<T>, u: nat, t: nat)
    requires u in s.calls && (u == t ==> !s.calls[t].pc.CheckTime? && !s.calls[t].pc.Place?)
    ensures t in RunTask(s, u).aborted <==> t in s.aborted
  {
    match s.calls[u].pc {
      case Test => TestKeepsFlags(s, u);
      case Blocked => TestKeepsFlags(s, u);
      case _ =>
    }
  }

  lemma StepKeepsFlag<T>(s: State<T>, e: Event<T>, t: nat)
    requires e != Abort(t) && !Clears(s, e, t)
    ensures t in Step(s, e).aborted <==> t in s.aborted
  {
    if e.Run? && Enabled(s, e) {
      RunKeepsFlag(s, e.t, t);
    }
  }

  ghost predicate NeverClears<T>(s: State<T>, es: seq<Event<T>>, t: nat)
    decreases |es|
  {
    es == [] || (!Clears(s, es[0], t) && NeverClears(Step(s, es[0]), es[1..], t))
  }

  /** In every interleaving the flag of a task stays as it is, set or not, until the task is hit by an abort, looks at
      the time, or puts itself on a waiting list: it outlives the call that was aborted if that call returns first. */
  lemma {:induction false} FlagIsKept<T>(s: State<T>, es: seq<Event<T>>, t: nat)
    requires Abort(t) !in es && NeverClears(s, es, t)
    ensures t in Exec(s, es).aborted <==> t in s.aborted
    decreases |es|
  {
    if es != [] {
      assert es[0] in es;
      StepKeepsFlag(s, es[0], t);
      FlagIsKept(Step(s, es[0]), es[1..], t);
    }
  }

  /** In every interleaving in which nobody aborts the call meanwhile, the first look of a call at the time is excused
      exactly if the task had the flag when it made the call; and then the call gives up there and then, however
      long it asked to wait. */
  lemma FirstLookIsExcusedIff<T>(s: State<T>, t: nat, op: Op<T>, rank: nat, wait: nat, es: seq<Event<T>>)
    requires Enabled(s, Start(t, op, rank, wait)) && Abort(t) !in es
    requires NeverClears(Step(s, Start(t, op, rank, wait)), es, t)
    ensures var s1 := Exec(Step(s, Start(t, op, rank, wait)), es);
            Enabled(s1, Run(t)) && s1.calls[t].pc.CheckTime? ==>
              var c := Step(s1, Run(t)).calls[t];
              && (c.excused <==> t in s.aborted)
              && (t in s.aborted ==> c.pc == UnlockTx(ToGiveUp))
  {
    FlagIsKept(Step(s, Start(t, op, rank, wait)), es, t);
  }

  /** `t` has no flag, and its call, if it is in one, is not excused. */
  predicate Clean<T>(s: State<T>, t: nat) {
    t !in s.aborted && (t in s.calls ==> !s.calls[t].excused)
  }

  function Excuses(fs: seq<Failure>, t: nat): nat {
    if fs == [] then 0
    else Excuses(fs[..|fs| - 1], t) + if fs[|fs| - 1].t == t && fs[|fs| - 1].excused then 1 else 0
  }

  lemma OneMoreFailure(fs: seq<Failure>, f: Failure, t: nat)
    ensures Excuses(fs + [f], t) == Excuses(fs, t) + if f.t == t && f.excused then 1 else 0
  {
    assert (fs + [f])[..|fs|] == fs;
  }

  lemma ReturnStaysClean<T>(s: State<T>, u: nat, t: nat)
    requires Clean(s, t) && u in s.calls && CanProceed(s, s.calls[u].op)
    ensures Clean(RunTest(s, u), t) && RunTest(s, u).failures == s.failures
  {
    ProceedLeaves(Tested(s, u), s.calls[u].op);
  }

  lemma TestStaysClean<T>(s: State<T>, u: nat, t: nat)
    requires Clean(s, t) && u in s.calls
    ensures Clean(RunTest(s, u), t) && Excuses(RunTest(s, u).failures, t) == Excuses(s.failures, t)
  {
    var c := s.calls[u];
    if CanProceed(s, c.op) {
      ReturnStaysClean(s, u, t);
    } else {
      OneMoreFailure(s.failures, Failure(u, c.wait, c.start, s.now, c.excused), t);
    }
  }

  lemma RunStaysClean<T>(s: State<T>, u: nat, t: nat)
    requires Clean(s, t) && u in s.calls
    ensures Clean(RunTask(s, u), t) && Excuses(RunTask(s, u).failures, t) == Excuses(s.failures, t)
  {
    var c := s.calls[u];
    if c.pc.Test? || c.pc.Blocked? {
      TestStaysClean(s, u, t);
    } else if c.pc.Resume? || c.pc.Recheck? {
      OneMoreFailure(s.failures, Failure(u, c.wait, c.start, s.now, c.excused), t);
    } else {
      SectionStaysClean(s, u, t);
    }
  }

  lemma SectionStaysClean<T>(s: State<T>, u: nat, t: nat)
    requires Clean(s, t) && u in s.calls
    requires var pc := s.calls[u].pc; !pc.Test? && !pc.Blocked? && !pc.Resume? && !pc.Recheck?
    ensures Clean(RunTask(s, u), t) && RunTask(s, u).failures == s.failures
  {
  }

  lemma StepStaysClean<T>(s: State<T>, e: Event<T>, t: nat)
    requires Clean(s, t) && e != Abort(t)
    ensures Clean(Step(s, e), t) && Excuses(Step(s, e).failures, t) == Excuses(s.failures, t)
  {
    if e.Run? && Enabled(s, e) {
      RunStaysClean(s, e.t, t);
    }
  }

  /** In every interleaving, a task that has no flag when it makes a call, and is not hit by an abort afterwards, never
      has a failure excused. With FirstLookIsExcusedIff: an abort hits a call exactly if it comes during the call,
      or left its flag behind before it. */
  lemma {:induction false} CleanCallIsNeverExcused<T>(s: State<T>, es: seq<Event<T>>, t: nat)
    requires Clean(s, t) && Abort(t) !in es
    ensures Clean(Exec(s, es), t) && Excuses(Exec(s, es).failures, t) == Excuses(s.failures, t)
    decreases |es|
  {
    if es != [] {
      assert es[0] in es;
      StepStaysClean(s, es[0], t);
      CleanCallIsNeverExcused(Step(s, es[0]), es[1..], t);
    }
  }

  // ---------------------------------------------------------------- two runs

  lemma {:induction false} ExecAppend<T>(s: State<T>, a: seq<Event<T>>, b: seq<Event<T>>)
    ensures Exec(s, a + b) == Exec(Exec(s, a), b)
    decreases |a|
  {
    if a == [] {
      assert a + b == b;
    } else {
      assert (a + b)[1..] == a[1..] + b;
      ExecAppend(Step(s, a[0]), a[1..], b);
    }
  }

  function Runs<T>(t: nat, n: nat): seq<Event<T>> {
    if n == 0 then [] else [Run(t)] + Runs(t, n - 1)
  }

  lemma ExecRuns<T>(s: State<T>, t: nat, n: nat)
    requires n > 0
    ensures Exec(s, Runs(t, n)) == Exec(Step(s, Run(t)), Runs(t, n - 1))
  {
    assert ([Run(t)] + Runs<T>(t, n - 1))[1..] == Runs(t, n - 1);
  }

  /** Three sections of the same task. */
  function Thrice<T>(s: State<T>, t: nat): State<T> {
    Step(Step(Step(s, Run(t)), Run(t)), Run(t))
  }

  lemma ExecThrice<T>(s: State<T>, t: nat, n: nat)
    requires n >= 3
    ensures Exec(s, Runs(t, n)) == Exec(Thrice(s, t), Runs(t, n - 3))
  {
    ExecRuns(s, t, n);
    ExecRuns(Step(s, Run(t)), t, n - 1);
    ExecRuns(Step(Step(s, Run(t)), Run(t)), t, n - 2);
  }

  /** The call of a task that does not find what it needs, at `pc`. */
  function CallOf<T>(s: State<T>, op: Op<T>, rank: nat, wait: nat, pc: Pc, entrySet: bool): Call<T> {
    Call(op, rank, pc, wait, entrySet, if entrySet then StampOf(s.now) else StampOf(0), wait, s.now,
         if entrySet then s.now else 0, false)
  }

  function InCall<T>(s: State<T>, t: nat, op: Op<T>, rank: nat, wait: nat, pc: Pc): State<T> {
    s.(calls := s.calls[t := CallOf(s, op, rank, wait, pc, true)])
  }

  function Locked<T>(s: State<T>, t: nat, tx: int, rx: int): State<T> {
    s.(window := Some(t), txLock := tx, rxLock := rx)
  }

  /** Nobody is in the locked section, `t` is in no call and has no flag, and what `op` needs is not there. */
  predicate Quiet<T>(s: State<T>, t: nat, op: Op<T>) {
    && s.window.None? && s.rxLock == s.txLock == UNLOCKED
    && t !in s.aborted && t !in s.wokenReceivers && t !in s.wokenSenders
    && (if op.Send? then |s.contents| == s.length && op.position != Overwrite else s.contents == [])
  }

  /** On the waiting list. */
  function Listed<T>(s: State<T>, t: nat, op: Op<T>, rank: nat): State<T> {
    if op.Send? then s.(senders := InsertSorted(s.senders, Item(t, rank)))
    else s.(receivers := InsertSorted(s.receivers, Item(t, rank)))
  }

  lemma BlockingStarts<T>(s: State<T>, t: nat, op: Op<T>, rank: nat, wait: nat)
    requires Quiet(s, t, op) && t !in s.calls && 0 < wait <= MAX_DELAY
    ensures Step(Step(Step(s, Start(t, op, rank, wait)), Run(t)), Run(t)) ==
            Locked(InCall(s, t, op, rank, wait, CheckTime), t, 0, 0)
  {
    var s1 := Step(s, Start(t, op, rank, wait));
    assert s1 == s.(calls := s.calls[t := CallOf(s, op, rank, wait, Test, false)]);
    assert Step(s1, Run(t)) == InCall(s, t, op, rank, wait, Lock);
  }

  lemma BlockingPlaces<T>(s: State<T>, t: nat, op: Op<T>, rank: nat, wait: nat)
    requires Quiet(s, t, op) && 0 < wait <= MAX_DELAY
    ensures Thrice(Locked(InCall(s, t, op, rank, wait, CheckTime), t, 0, 0), t) ==
            Locked(InCall(Listed(s, t, op, rank), t, op, rank, wait, UnlockTx(ToBlock)), t, 0, 0)
  {
    BlockingLooks(s, t, op, rank, wait);
    BlockingLists(s, t, op, rank, wait);
  }

  lemma BlockingLooks<T>(s: State<T>, t: nat, op: Op<T>, rank: nat, wait: nat)
    requires Quiet(s, t, op) && 0 < wait <= MAX_DELAY
    ensures Step(Step(Locked(InCall(s, t, op, rank, wait, CheckTime), t, 0, 0), Run(t)), Run(t)) ==
            Locked(InCall(s, t, op, rank, wait, Place), t, 0, 0)
  {
    assert Step(Locked(InCall(s, t, op, rank, wait, CheckTime), t, 0, 0), Run(t)) ==
           Locked(InCall(s, t, op, rank, wait, CheckRoom), t, 0, 0);
  }

  lemma BlockingLists<T>(s: State<T>, t: nat, op: Op<T>, rank: nat, wait: nat)
    requires Quiet(s, t, op)
    ensures Step(Locked(InCall(s, t, op, rank, wait, Place), t, 0, 0), Run(t)) ==
            Locked(InCall(Listed(s, t, op, rank), t, op, rank, wait, UnlockTx(ToBlock)), t, 0, 0)
  {
    var s5 := Locked(InCall(s, t, op, rank, wait, Place), t, 0, 0);
    assert Step(s5, Run(t)) == RunPlace(s5, t);
  }

  lemma BlockingYields<T>(s: State<T>, t: nat, op: Op<T>, rank: nat, wait: nat)
    requires s.window.None? && s.rxLock == s.txLock == UNLOCKED
    ensures Thrice(Locked(InCall(s, t, op, rank, wait, UnlockTx(ToBlock)), t, 0, 0), t) == InCall(s, t, op, rank, wait, Blocked)
  {
    var s6 := Locked(InCall(s, t, op, rank, wait, UnlockTx(ToBlock)), t, 0, 0);
    DrainNone(s.receivers, s.wokenReceivers);
    assert Step(s6, Run(t)) == Locked(InCall(s, t, op, rank, wait, UnlockRx(ToBlock)), t, UNLOCKED, 0);
    DrainNone(s.senders, s.wokenSenders);
    assert Step(Step(s6, Run(t)), Run(t)) == Locked(InCall(s, t, op, rank, wait, Resume(ToBlock)), t, UNLOCKED, UNLOCKED);
  }

  lemma BlocksFromLock<T>(s: State<T>, t: nat, op: Op<T>, rank: nat, wait: nat)
    requires Quiet(s, t, op) && 0 < wait <= MAX_DELAY
    ensures Exec(Locked(InCall(s, t, op, rank, wait, CheckTime), t, 0, 0), Runs(t, 6)) ==
            InCall(Listed(s, t, op, rank), t, op, rank, wait, Blocked)
  {
    var s3 := Locked(InCall(s, t, op, rank, wait, CheckTime), t, 0, 0);
    ExecThrice(s3, t, 6);
    BlockingPlaces(s, t, op, rank, wait);
    ExecThrice(Thrice(s3, t), t, 3);
    BlockingYields(Listed(s, t, op, rank), t, op, rank, wait);
  }

  /** A task that makes a call which the queue cannot serve, and which may wait, blocks if it is left alone for eight
      sections: it is on the waiting list of its side, in its place, and the queue is unlocked. */
  lemma Blocks<T>(s: State<T>, t: nat, op: Op<T>, rank: nat, wait: nat)
    requires Quiet(s, t, op) && t !in s.calls && 0 < wait <= MAX_DELAY
    ensures Exec(Step(s, Start(t, op, rank, wait)), Runs(t, 8)) ==
            InCall(Listed(s, t, op, rank), t, op, rank, wait, Blocked)
  {
    var s1 := Step(s, Start(t, op, rank, wait));
    ExecRuns(s1, t, 8);
    ExecRuns(Step(s1, Run(t)), t, 7);
    BlockingStarts(s, t, op, rank, wait);
    BlocksFromLock(s, t, op, rank, wait);
  }

  /** `s'` is `s` but for the call of `t`, which waits for ever and is at `pc`, and the bookkeeping of the locked
      section. */
  ghost predicate CallAt<T>(s: State<T>, s': State<T>, t: nat, pc: Pc) {
    && t in s'.calls && s'.calls[t].pc == pc && s'.calls[t].op == Receive
    && s'.calls[t].ticks == s'.calls[t].wait == MAX_DELAY && s'.calls[t].start == s.now
    && s'.now == s.now && s'.contents == s.contents && s'.failures == s.failures && s'.received == s.received
    && (s'.window == if InWindow(pc) then Some(t) else None)
  }

  lemma EndlessCallStarts<T>(s: State<T>, t: nat, rank: nat)
    requires s.window.None? && t !in s.calls && t in s.aborted && s.contents == []
    ensures var s' := Step(Step(Step(s, Start(t, Receive, rank, MAX_DELAY)), Run(t)), Run(t));
            CallAt(s, s', t, CheckTime) && t in s'.aborted
  {
    var s1 := Step(s, Start(t, Receive, rank, MAX_DELAY));
    assert s1.calls[t].pc == Test;
    assert Step(s1, Run(t)).calls[t].pc == Lock;
  }

  lemma EndlessCallGivesUp<T>(s: State<T>, s2: State<T>, t: nat)
    requires CallAt(s, s2, t, CheckTime) && t in s2.aborted
    ensures CallAt(s, Thrice(s2, t), t, Resume(ToGiveUp)) && Thrice(s2, t).calls[t].excused
  {
    var s3 := Step(s2, Run(t));
    assert CallAt(s, s3, t, UnlockTx(ToGiveUp)) && s3.calls[t].excused;
    var s4 := Step(s3, Run(t));
    assert CallAt(s, s4, t, UnlockRx(ToGiveUp)) && s4.calls[t].excused;
  }

  lemma EndlessCallFails<T>(s: State<T>, s5: State<T>, t: nat)
    requires CallAt(s, s5, t, Resume(ToGiveUp)) && s5.calls[t].excused && s.contents == []
    ensures var s' := Step(Step(s5, Run(t)), Run(t));
            && t !in s'.calls && s'.now == s.now && s'.received == s.received
            && s'.failures == s.failures + [Failure(t, MAX_DELAY, s.now, s.now, true)]
  {
    var s6 := Step(s5, Run(t));
    assert CallAt(s, s6, t, Recheck) && s6.calls[t].excused;
    assert Step(s6, Run(t)) == Fail(s6, t);
  }

  /** In any state in which a task has the flag, its next receive on an empty queue, left alone, fails at once, even if
      it asks to wait for ever, and although nobody has aborted that call. */
  lemma AbortHitsNextCall<T>(s: State<T>, t: nat, rank: nat)
    requires s.window.None? && t !in s.calls && t in s.aborted && s.contents == []
    ensures var s' := Exec(Step(s, Start(t, Receive, rank, MAX_DELAY)), Runs(t, 7));
            && t !in s'.calls && s'.now == s.now && s'.received == s.received
            && s'.failures == s.failures + [Failure(t, MAX_DELAY, s.now, s.now, true)]
  {
    var s1 := Step(s, Start(t, Receive, rank, MAX_DELAY));
    ExecRuns(s1, t, 7);
    ExecRuns(Step(s1, Run(t)), t, 6);
    var s2 := Step(Step(s1, Run(t)), Run(t));
    EndlessCallStarts(s, t, rank);
    ExecThrice(s2, t, 5);
    EndlessCallGivesUp(s, s2, t);
    var s5 := Thrice(s2, t);
    EndlessCallFails(s, s5, t);
    ExecRuns(s5, t, 2);
    ExecRuns(Step(s5, Run(t)), t, 1);
  }

  lemma ExecFour<T>(s: State<T>, a: Event<T>, b: Event<T>, c: Event<T>, d: Event<T>)
    ensures Exec(s, [a, b, c, d]) == Step(Step(Step(Step(s, a), b), c), d)
  {
    var s1 := Step(s, a);
    var s2 := Step(s1, b);
    assert [a, b, c, d][1..] == [b, c, d] && [b, c, d][1..] == [c, d] && [c, d][1..] == [d] && [d][1..] == [];
    assert Exec(Step(s2, c), [d]) == Step(Step(s2, c), d);
    assert Exec(s2, [c, d]) == Exec(Step(s2, c), [d]);
    assert Exec(s1, [b, c, d]) == Exec(s2, [c, d]);
  }

  lemma ExecBlocks<T>(s: State<T>, t: nat, op: Op<T>, rank: nat, wait: nat)
    requires Quiet(s, t, op) && t !in s.calls && 0 < wait <= MAX_DELAY
    ensures Exec(s, [Start(t, op, rank, wait)] + Runs(t, 8)) == InCall(Listed(s, t, op, rank), t, op, rank, wait, Blocked)
  {
    var e: Event<T> := Start(t, op, rank, wait);
    assert ([e] + Runs(t, 8))[1..] == Runs(t, 8);
    Blocks(s, t, op, rank, wait);
  }

  lemma OnlyItem(t: nat, rank: nat)
    ensures Has([Item(t, rank)], t) && Remove([Item(t, rank)], t) == []
  {
    assert [Item(t, rank)][0].owner == t;
  }

  lemma AbortTakesOff<T>(s: State<T>, t: nat, rank: nat)
    requires s.window.None? && s.receivers == [Item(t, rank)] && Has(s.receivers, t) && Remove(s.receivers, t) == []
    ensures Step(s, Abort(t)) == s.(receivers := [], wokenReceivers := s.wokenReceivers + {t}, aborted := s.aborted + {t})
  {
  }

  lemma SentToNobody<T>(s: State<T>, item: T)
    requires s.window.None? && s.receivers == [] && s.txLock == UNLOCKED && s.contents == [] && s.length == 1
    ensures Step(s, IsrSend(item, Back)) == s.(contents := [item], sent := s.sent + [item])
  {
    assert Store(s.contents, item, Back) == [item];
  }

  lemma AbortedThenSent<T>(s: State<T>, t: nat, rank: nat, item: T)
    requires s.window.None? && s.receivers == [Item(t, rank)] && s.txLock == UNLOCKED && s.contents == [] && s.length == 1
    ensures var s' := Step(Step(s, Abort(t)), IsrSend(item, Back));
            && s'.window.None? && s'.receivers == [] && s'.contents == [item] && t in s'.aborted && s'.calls == s.calls
            && s'.senders == s.senders && s'.received == s.received && s'.failures == s.failures && s'.now == s.now
  {
    OnlyItem(t, rank);
    AbortTakesOff(s, t, rank);
    SentToNobody(s.(receivers := [], wokenReceivers := s.wokenReceivers + {t}, aborted := s.aborted + {t}), item);
  }

  lemma SuccessLeavesFlag<T>(s: State<T>, t: nat, item: T)
    requires s.window.None? && t in s.calls && s.calls[t].pc.Blocked? && s.calls[t].op == Receive
    requires s.receivers == [] && s.senders == [] && s.contents == [item] && t in s.aborted
    ensures var s' := Step(s, Run(t));
            && s'.window.None? && t !in s'.calls && t in s'.aborted && s'.contents == []
            && s'.received == s.received + [item] && s'.failures == s.failures && s'.now == s.now
  {
  }

  /** Task 0 is blocked on an empty queue for five ticks, its delay is aborted, and before it runs an interrupt sends:
      the aborted call succeeds, and leaves the flag. */
  lemma FlagIsLeft()
    ensures var s := Step(Step(Step(InCall(Listed(Init<nat>(1, 0), 0, Receive, 0), 0, Receive, 0, 5, Blocked), Abort(0)), IsrSend(7, Back)), Run(0));
            && s.window.None? && 0 !in s.calls && 0 in s.aborted && s.contents == []
            && s.received == [7] && s.failures == [] && s.now == 0
  {
    var s9 := InCall(Listed(Init<nat>(1, 0), 0, Receive, 0), 0, Receive, 0, 5, Blocked);
    AbortedThenSent(s9, 0, 0, 7);
    SuccessLeavesFlag(Step(Step(s9, Abort(0)), IsrSend(7, Back)), 0, 7);
  }

  /** Nobody aborts the second call of task 0, and it asks to wait for ever; it fails in the instant in which it is
      made, because of the abort of its first call, which succeeded. */
  lemma AbortCanHitNextCall()
    ensures var es := [Start(0, Receive, 0, 5)] + Runs(0, 8)
                      + [Abort(0), IsrSend(7, Back), Run(0), Start(0, Receive, 0, MAX_DELAY)] + Runs(0, 7);
            var s := Exec(Init<nat>(1, 0), es);
            s.received == [7] && s.failures == [Failure(0, MAX_DELAY, 0, 0, true)]
  {
    var s0 := Init<nat>(1, 0);
    var a := [Start(0, Receive, 0, 5)] + Runs<nat>(0, 8);
    var b := [Abort(0), IsrSend(7, Back), Run(0), Start(0, Receive, 0, MAX_DELAY)];
    ExecAppend(s0, a + b, Runs(0, 7));
    ExecAppend(s0, a, b);
    ExecBlocks(s0, 0, Receive, 0, 5);
    var s9 := InCall(Listed(s0, 0, Receive, 0), 0, Receive, 0, 5, Blocked);
    ExecFour(s9, Abort(0), IsrSend(7, Back), Run(0), Start(0, Receive, 0, MAX_DELAY));
    FlagIsLeft();
    AbortHitsNextCall(Step(Step(Step(s9, Abort(0)), IsrSend(7, Back)), Run(0)), 0, 0);
  }

  lemma TwoWait()
    ensures var s := Exec(Init<nat>(1, 0), [Start(1, Receive, 1, 5)] + Runs(1, 8) + ([Start(2, Receive, 2, 5)] + Runs(2, 8)));
            s.receivers == [Item(1, 1), Item(2, 2)] && s.window.None? && 2 in s.calls && s.txLock == UNLOCKED && s.contents == [] && s.length == 1
  {
    var s0 := Init<nat>(1, 0);
    ExecAppend(s0, [Start(1, Receive, 1, 5)] + Runs(1, 8), [Start(2, Receive, 2, 5)] + Runs(2, 8));
    ExecBlocks(s0, 1, Receive, 1, 5);
    var s1 := InCall(Listed(s0, 1, Receive, 1), 1, Receive, 1, 5, Blocked);
    assert s1.receivers == [Item(1, 1)];
    ExecBlocks(s1, 2, Receive, 2, 5);
  }

  lemma SkipsTheUrgent(s: State<nat>)
    requires s.receivers == [Item(1, 1), Item(2, 2)] && s.window.None? && 2 in s.calls
    requires s.txLock == UNLOCKED && s.contents == [] && s.length == 1
    ensures var s' := Step(s, Revalue(2, 0));
            s'.receivers == [Item(1, 1), Item(2, 0)] && Step(s', IsrSend(7, Back)).receivers == [Item(2, 0)]
  {
    assert Revalued(s.receivers, 2, 0) == [Item(1, 1), Item(2, 0)];
  }

  /** Tasks 1 and 2 wait; then task 2 becomes the more urgent of them, where it is in the list; the next wake-up takes
      task 1. */
  lemma WakeCanSkipTheUrgent()
    ensures var es := [Start(1, Receive, 1, 5)] + Runs(1, 8) + ([Start(2, Receive, 2, 5)] + Runs(2, 8));
            var s := Step(Exec(Init<nat>(1, 0), es), Revalue(2, 0));
            s.receivers == [Item(1, 1), Item(2, 0)] && Step(s, IsrSend(7, Back)).receivers == [Item(2, 0)]
  {
    TwoWait();
    SkipsTheUrgent(Exec(Init<nat>(1, 0), [Start(1, Receive, 1, 5)] + Runs(1, 8) + ([Start(2, Receive, 2, 5)] + Runs(2, 8))));
  }

  // ---------------------------------------------------------------- first in, first out

  predicate SendsToBack<T>(e: Event<T>) {
    match e
    case Start(_, op, _, _) => op.Send? ==> op.position == Back
    case IsrSend(_, position) => position == Back
    case _ => true
  }

  ghost predicate FifoInv<T>(s: State<T>) {
    && s.sent == s.received + s.contents
    && (forall t | t in s.calls && s.calls[t].op.Send? :: s.calls[t].op.position == Back)
  }

  lemma TestKeepsFifo<T>(s: State<T>, t: nat)
    requires FifoInv(s) && t in s.calls
    ensures FifoInv(RunTest(s, t))
  {
    var s' := RunTest(s, t);
    assert s'.sent == s'.received + s'.contents;
    assert forall u | u in s'.calls :: u in s.calls && s'.calls[u].op == s.calls[u].op;
  }

  lemma RunKeepsFifo<T>(s: State<T>, t: nat)
    requires FifoInv(s) && t in s.calls
    ensures FifoInv(RunTask(s, t))
  {
    if s.calls[t].pc.Test? || s.calls[t].pc.Blocked? {
      TestKeepsFifo(s, t);
    } else {
      RunKeepsData(s, t);
    }
  }

  lemma RunKeepsData<T>(s: State<T>, t: nat)
    requires t in s.calls && !s.calls[t].pc.Test? && !s.calls[t].pc.Blocked?
    ensures SameData(s, RunTask(s, t))
  {
    match s.calls[t].pc {
      case Lock => assert SameData(s, RunLock(s, t));
      case CheckTime => assert SameData(s, RunCheckTime(s, t));
      case Place => assert SameData(s, RunPlace(s, t));
      case UnlockTx(_) => assert SameData(s, DrainReceivers(s));
      case UnlockRx(_) => assert SameData(s, DrainSenders(s));
      case Resume(exit) => assert SameData(s, RunResume(s, t, exit));
      case _ =>
    }
  }

  ghost predicate SameData<T>(s: State<T>, s': State<T>) {
    && s'.sent == s.sent && s'.received == s.received && s'.contents == s.contents
    && forall u | u in s'.calls :: u in s.calls && s'.calls[u].op == s.calls[u].op
  }

  lemma StepKeepsFifo<T>(s: State<T>, e: Event<T>)
    requires FifoInv(s) && SendsToBack(e)
    ensures FifoInv(Step(s, e))
  {
    if Enabled(s, e) {
      if e.Run? {
        RunKeepsFifo(s, e.t);
      } else {
        var s' := Step(s, e);
        assert e.IsrReceive? && s.contents != [] ==> [s.contents[0]] + s.contents[1..] == s.contents;
        assert s'.sent == s'.received + s'.contents;
      }
    }
  }

  lemma {:induction false} ExecKeepsFifo<T>(s: State<T>, es: seq<Event<T>>)
    requires FifoInv(s) && forall e | e in es :: SendsToBack(e)
    ensures FifoInv(Exec(s, es))
    decreases |es|
  {
    if es != [] {
      assert es[0] in es;
      StepKeepsFifo(s, es[0]);
      ExecKeepsFifo(Step(s, es[0]), es[1..]);
    }
  }

  /** While everyone sends to the back, what has been received and what is still queued are, in order,
      exactly what was sent: nothing is lost, repeated or overtaken. */
  lemma FifoDelivery<T>(length: nat, now: nat, es: seq<Event<T>>)
    requires forall e | e in es :: SendsToBack(e)
    ensures var s := Exec(Init<T>(length, now), es); s.sent == s.received + s.contents
  {
    ExecKeepsFifo(Init<T>(length, now), es);
  }
}
