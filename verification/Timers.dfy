/** The timer service task: two lists of active timers sorted by expiry tick, a command queue, and a tick
    count that wraps. Between any two steps of the task the tick may move on and other tasks may send start
    commands, so that it acts on a time sample that may be stale. The model follows timers from one start
    command; each keeps a record of the calls of its callback, and the unbounded instant at which it is next
    due. */
module Timers {
  import opened Clock
  import opened Lists
  import opened Sequences

  /** Where the list item, or the start command, of a timer is: in no list and with no command pending, in one
      of the two lists, in the command queue, or in the hands of the service task. */
  datatype Place = Idle | Current | Overflow | Queued | Held

  /** A call of the callback for the expiry at `nominal`, made at `at`. */
  datatype Call = Call(nominal: nat, at: nat)

  datatype Timer = Timer(period: nat, autoReload: bool, started: bool, place: Place, start: nat, due: nat, calls: seq<Call>)

  /** What the service task samples the time for. */
  datatype Errand = Expire | Obey(command: Item)

  /** What the service task does next. */
  datatype Daemon =
    | Looking                                  // at the lists or the queue
    | Received(command: Item)                  // has a command, has not looked at the clock since
    | Switching(sample: nat, errand: Errand)   // in prvSwitchTimerLists
    | Acting(errand: Errand)                   // has sampled the time

  /** `last` is the instant of the last time sample, of which xLastTime is the tick. A queued command is an
      item whose value is the command time. */
  datatype State = State(timers: map<nat, Timer>, current: seq<Item>, overflow: seq<Item>, queue: seq<Item>,
                         last: nat, now: nat, daemon: Daemon)

  datatype Event =
    | Tick
    | Start(i: nat, read: nat)   // xTimerStart from any task, which read the tick count at `read`
    | Look                       // prvProcessTimerOrBlockTask reads the clock
    | Receive                    // prvProcessReceivedCommands takes a command off the queue
    | Go                         // the service task goes on with what it is doing

  // ---------------------------------------------------------------- moving one timer

  function Update(s: State, i: nat, t: Timer): State {
    s.(timers := s.timers[i := t])
  }

  /** The callback runs, and the timer is next due one period on. */
  function Fire(s: State, i: nat): State
    requires i in s.timers
  {
    var t := s.timers[i];
    Update(s, i, t.(calls := t.calls + [Call(t.due, s.now)], due := t.due + t.period))
  }

  function Settle(s: State, i: nat, place: Place): State
    requires i in s.timers
  {
    Update(s, i, s.timers[i].(place := place))
  }

  /** xTimerGenericCommand with a start command. */
  function Post(s: State, i: nat, value: nat): State
    requires i in s.timers
  {
    Settle(s, i, Queued).(queue := InsertAt(s.queue, |s.queue|, Item(i, value)))
  }

  function PutCurrent(s: State, i: nat, expiry: nat): State
    requires i in s.timers
  {
    Settle(s, i, Current).(current := InsertSorted(s.current, Item(i, expiry)))
  }

  function PutOverflow(s: State, i: nat, expiry: nat): State
    requires i in s.timers
  {
    Settle(s, i, Overflow).(overflow := InsertSorted(s.overflow, Item(i, expiry)))
  }

  // ---------------------------------------------------------------- prvInsertTimerInActiveList

  datatype Choice = ProcessNow | ToCurrent | ToOverflow

  function ChooseList(expiry: nat, timeNow: nat, commandTime: nat, period: nat): Choice {
    if expiry <= timeNow then
      if TickSub(timeNow, commandTime) >= period then ProcessNow else ToOverflow
    else if timeNow < commandTime && expiry >= commandTime then ProcessNow
    else ToCurrent
  }

  /** From three 32-bit values and the period, the choice is exactly right: a timer started at `command`
      has already expired, expires later in this round of the tick count, or in the next one. */
  lemma ChoiceIsExact(command: nat, period: nat, now: nat)
    requires 0 < period < 0x1_0000_0000 && command <= now < command + 0x1_0000_0000
    ensures var choice := ChooseList(TickAdd(TickOf(command), period), TickOf(now), TickOf(command), period);
            && (choice == ProcessNow <==> command + period <= now)
            && (choice == ToCurrent ==> EpochOf(command + period) == EpochOf(now))
            && (choice == ToOverflow ==> EpochOf(command + period) == EpochOf(now) + 1)
    ensures TickAdd(TickOf(command), period) == TickOf(command + period)
  {
    WithinOneWrap(command, now);
    WithinOneWrap(command, command + period);
    if command + period <= now {
      WithinOneWrap(command + period, now);
    } else {
      WithinOneWrap(now, command + period);
    }
  }

  /** A whole wrap late, an expired timer is taken for one that has yet to expire. */
  lemma ChoiceNeedsPromptness()
    ensures var command, period, now := 0, 10, 0x1_0000_0005;
            && command + period <= now
            && ChooseList(TickAdd(TickOf(command), period), TickOf(now), TickOf(command), period) == ToCurrent
  {
  }

  /** However late the command is obeyed: the choice to process the timer now is right exactly if less than
      one wrap has passed, or the time since the command exceeds the period even without its whole wraps. */
  lemma ChoiceIsRightIff(command: nat, period: nat, now: nat)
    requires 0 < period < 0x1_0000_0000 && command <= now
    ensures var choice := ChooseList(TickAdd(TickOf(command), period), TickOf(now), TickOf(command), period);
            (choice == ProcessNow <==> command + period <= now) <==>
            now < command + 0x1_0000_0000 || period <= (now - command) % 0x1_0000_0000
  {
    SameTick(command, now);
    ChoiceIsExact(command, period, command + (now - command) % 0x1_0000_0000);
  }

  // ---------------------------------------------------------------- prvSwitchTimerLists

  /** Bounds the number of rounds: every round takes a timer off the list or moves it to a later expiry. */
  function Rounds(s: seq<Item>): nat {
    if s == [] then 0
    else (if s[0].value <= MAX_DELAY then 1 + MAX_DELAY - s[0].value else 0) + 1 + Rounds(s[1..])
  }

  lemma {:induction false} RoundsSplit(a: seq<Item>, b: seq<Item>)
    ensures Rounds(a + b) == Rounds(a) + Rounds(b)
    decreases |a|
  {
    if a == [] {
      assert a + b == b;
    } else {
      RoundsSplit(a[1..], b);
      assert (a + b)[1..] == a[1..] + b;
    }
  }

  lemma RoundsInsert(s: seq<Item>, x: Item)
    ensures Rounds(InsertSorted(s, x)) == Rounds(s) + Rounds([x])
  {
    var p := InsertPoint(s, x.value);
    RoundsSplit(s[..p], s[p..]);
    RoundsSplit(s[..p] + [x], s[p..]);
    RoundsSplit(s[..p], [x]);
    assert s == s[..p] + s[p..];
    assert InsertSorted(s, x) == s[..p] + [x] + s[p..];
  }

  /** The end of a round, for a timer that expired at `value` and whose callback has been called. */
  function Reload(s: State, i: nat, value: nat): State
    requires i in s.timers
  {
    var reload := TickAdd(value, s.timers[i].period);
    if !s.timers[i].autoReload then s
    else if reload > value then PutCurrent(s, i, reload)
    else Post(s, i, value)
  }

  /** The timer at the head of the current list is taken off it and its callback called. */
  function ExpireHead(s: State): State
    requires s.current != [] && s.current[0].owner in s.timers
  {
    var i := s.current[0].owner;
    Fire(Settle(s.(current := s.current[1..]), i, Idle), i)
  }

  /** One round of the loop, for the timer at the head of the current list. */
  function DrainHead(s: State): State
    requires s.current != []
  {
    var x := s.current[0];
    if x.owner !in s.timers then s.(current := s.current[1..]) else Reload(ExpireHead(s), x.owner, x.value)
  }

  lemma DrainHeadDescends(s: State)
    requires s.current != []
    ensures Rounds(DrainHead(s).current) < Rounds(s.current)
  {
    var x := s.current[0];
    if x.owner in s.timers {
      var reload := TickAdd(x.value, s.timers[x.owner].period);
      RoundsInsert(s.current[1..], Item(x.owner, reload));
    }
  }

  /** The two list pointers change places, and with them what the timers in the lists count as. */
  function Exchanged(timers: map<nat, Timer>): map<nat, Timer> {
    map i | i in timers ::
      if timers[i].place == Overflow then timers[i].(place := Current)
      else if timers[i].place == Current then timers[i].(place := Overflow)
      else timers[i]
  }

  function Exchange(s: State): State {
    s.(timers := Exchanged(s.timers), current := s.overflow, overflow := s.current)
  }

  /** The end of prvSwitchTimerLists and of prvSampleTimeNow. After a switch prvProcessTimerOrBlockTask leaves
      the timers alone. */
  function SwitchLists(s: State, sample: nat, errand: Errand): State {
    Exchange(s).(last := sample, daemon := if errand.Expire? then Looking else Acting(errand))
  }

  predicate Switches(s: State) {
    TickOf(s.now) < TickOf(s.last)
  }

  /** prvSampleTimeNow up to the comparison with xLastTime. */
  function ReadClock(s: State, errand: Errand): State {
    if Switches(s) then s.(daemon := Switching(s.now, errand)) else s.(last := s.now, daemon := Acting(errand))
  }

  // ---------------------------------------------------------------- the task

  /** Where a timer goes whose start command, or last expiry, has the time `value`. */
  function Restart(s: State, i: nat, value: nat): State
    requires i in s.timers
  {
    var expiry := TickAdd(value, s.timers[i].period);
    match ChooseList(expiry, TickOf(s.last), value, s.timers[i].period)
    case ProcessNow => Post(s, i, value)
    case ToCurrent => PutCurrent(s, i, expiry)
    case ToOverflow => PutOverflow(s, i, expiry)
  }

  predicate HeadExpired(s: State) {
    s.current != [] && s.current[0].owner in s.timers && s.current[0].value <= TickOf(s.last)
  }

  /** prvProcessExpiredTimer */
  function ProcessExpired(s: State): State
    requires HeadExpired(s)
  {
    var x, s1 := s.current[0], ExpireHead(s);
    if s1.timers[x.owner].autoReload then Restart(s1, x.owner, x.value) else s1
  }

  /** A timer that expired before it could be started. */
  function LateStart(s: State, i: nat, expiry: nat): State
    requires i in s.timers
  {
    if s.timers[i].autoReload then Post(Fire(s, i), i, expiry) else Fire(s, i)
  }

  /** A timer is to be processed at once instead of being put into a list. */
  predicate ComesLate(s: State, i: nat, value: nat)
    requires i in s.timers
  {
    ChooseList(TickAdd(value, s.timers[i].period), TickOf(s.last), value, s.timers[i].period) == ProcessNow
  }

  /** A start command, once the time has been sampled. */
  function StartTimer(s: State, i: nat, value: nat): State
    requires i in s.timers
  {
    if ComesLate(s, i, value) then LateStart(s, i, TickAdd(value, s.timers[i].period)) else Restart(s, i, value)
  }

  /** The command leaves the hands of the task. */
  function LetGo(s: State, i: nat): State
    requires i in s.timers
  {
    Settle(s, i, Idle).(daemon := Looking)
  }

  function Obeyed(s: State, command: Item): State {
    if command.owner in s.timers then StartTimer(LetGo(s, command.owner), command.owner, command.value) else s
  }

  function TakeCommand(s: State): State
    requires s.queue != []
  {
    var s0 := s.(queue := s.queue[1..], daemon := Received(s.queue[0]));
    if s.queue[0].owner in s.timers then Settle(s0, s.queue[0].owner, Held) else s0
  }

  function Expired(s: State): State {
    (if HeadExpired(s) then ProcessExpired(s) else s).(daemon := Looking)
  }

  function GoOn(s: State): State {
    match s.daemon
    case Looking => s
    case Received(command) => ReadClock(s, Obey(command))
    case Switching(sample, errand) => if s.current != [] then DrainHead(s) else SwitchLists(s, sample, errand)
    case Acting(errand) => if errand.Expire? then Expired(s) else Obeyed(s, errand.command)
  }

  function Stamped(s: State, i: nat, read: nat): State
    requires i in s.timers
  {
    Update(s, i, s.timers[i].(started := true, start := read, due := read + s.timers[i].period))
  }

  function StartedAt(s: State, i: nat, read: nat): State
    requires i in s.timers
  {
    Post(Stamped(s, i, read), i, TickOf(read))
  }

  /** An event that cannot happen in `s` changes nothing; each timer is started once. */
  function Step(s: State, e: Event): State {
    match e
    case Tick => s.(now := s.now + 1)
    case Start(i, read) => if i in s.timers && !s.timers[i].started && read <= s.now then StartedAt(s, i, read) else s
    case Look => if s.daemon == Looking then ReadClock(s, Expire) else s
    case Receive => if s.daemon == Looking && s.queue != [] then TakeCommand(s) else s
    case Go => GoOn(s)
  }

  function Exec(s: State, es: seq<Event>): State
    decreases |es|
  {
    if es == [] then s else Exec(Step(s, es[0]), es[1..])
  }

  // ---------------------------------------------------------------- what every step keeps

  /** The k-th nominal expiry of a timer. */
  function Nominal(start: nat, period: nat, k: nat): nat {
    if k == 0 then start else Nominal(start, period, k - 1) + period
  }

  lemma {:induction false} NominalIs(start: nat, period: nat, k: nat)
    ensures Nominal(start, period, k) == start + k * period
  {
    if k > 0 {
      NominalIs(start, period, k - 1);
      OneMorePeriod(start, period, k - 1);
    }
  }

  /** A started timer is due one period after its last call, with no drift. */
  predicate OnSchedule(t: Timer, now: nat) {
    t.start <= now && t.due == Nominal(t.start, t.period, |t.calls| + 1)
  }

  ghost predicate CallsOk(t: Timer, now: nat) {
    forall j | 0 <= j < |t.calls| ::
      t.calls[j].nominal == Nominal(t.start, t.period, j + 1) && t.calls[j].nominal <= t.calls[j].at <= now
  }

  ghost predicate TimerOk(t: Timer, last: nat, now: nat) {
    && 0 < t.period < 0x1_0000_0000
    && CallsOk(t, now)
    && (if t.started then OnSchedule(t, now) else t.place == Idle && t.calls == [])
    && (t.place == Current ==> EpochOf(t.due) == EpochOf(last))
    && (t.place == Overflow ==> EpochOf(t.due) == EpochOf(last) + 1)
    && (t.place == Queued || t.place == Held ==> t.period <= t.due <= t.period + now)
    && (t.place != Idle && !t.autoReload ==> t.calls == [])
  }

  function Value(t: Timer): nat {
    if (t.place == Queued || t.place == Held) && t.period <= t.due then TickOf(t.due - t.period) else TickOf(t.due)
  }

  /** `list` holds exactly the timers whose place it is, each once, with its value. */
  ghost predicate ListOk(timers: map<nat, Timer>, list: seq<Item>, place: Place) {
    && Distinct(list)
    && (forall i :: Has(list, i) <==> i in timers && timers[i].place == place)
    && (forall k {:trigger ItemOk(timers, list[k])} | 0 <= k < |list| :: ItemOk(timers, list[k]))
  }

  predicate ItemOk(timers: map<nat, Timer>, x: Item) {
    x.owner in timers && x.value == Value(timers[x.owner])
  }

  /** The command in the hands of the task, if any. */
  function InHands(d: Daemon): seq<Item> {
    match d
    case Received(command) => [command]
    case Switching(_, Obey(command)) => [command]
    case Acting(Obey(command)) => [command]
    case _ => []
  }

  /** The lists and the timers in them. */
  ghost predicate Core(s: State) {
    && s.last <= s.now
    && (forall i {:trigger TimerOk(s.timers[i], s.last, s.now)} | i in s.timers :: TimerOk(s.timers[i], s.last, s.now))
    && ListOk(s.timers, s.current, Current) && Sorted(s.current)
    && ListOk(s.timers, s.overflow, Overflow) && Sorted(s.overflow)
    && ListOk(s.timers, s.queue, Queued)
    && ListOk(s.timers, InHands(s.daemon), Held)
  }

  /** The time `at` is not before the time of the command, and less than a wrap after it. */
  predicate InTime(timers: map<nat, Timer>, command: Item, at: nat) {
    command.owner in timers &&
    var t := timers[command.owner];
    t.due <= at + t.period && at + t.period < t.due + 0x1_0000_0000
  }

  /** The sample that the task acts on was taken after it received its command: it can be stale, but it is never
      before the time of the command. */
  predicate DaemonOk(s: State) {
    match s.daemon
    case Switching(sample, errand) =>
      && s.last <= sample <= s.now && EpochOf(sample) == EpochOf(s.last) + 1
      && (errand.Obey? ==> InTime(s.timers, errand.command, sample))
    case Acting(errand) => errand.Obey? ==> InTime(s.timers, errand.command, s.last)
    case _ => true
  }

  /** A started timer that is idle is a one-shot timer whose callback has been called, once. */
  predicate Settled(t: Timer) {
    t.started && t.place == Idle ==> !t.autoReload && |t.calls| == 1
  }

  ghost predicate AllSettled(s: State, except: set<nat>) {
    forall i | i in s.timers && i !in except :: Settled(s.timers[i])
  }

  ghost predicate Inv(s: State) {
    Core(s) && DaemonOk(s) && AllSettled(s, {})
  }

  lemma ListFrame(timers: map<nat, Timer>, list: seq<Item>, place: Place, i: nat, t: Timer)
    requires ListOk(timers, list, place) && i in timers && timers[i].place != place && t.place != place
    ensures ListOk(timers[i := t], list, place)
  {
    assert !Has(list, i);
    forall k | 0 <= k < |list|
      ensures ItemOk(timers[i := t], list[k])
    {
      assert ItemOk(timers, list[k]);
    }
  }

  lemma ListInsert(timers: map<nat, Timer>, list: seq<Item>, place: Place, i: nat, t: Timer, p: nat)
    requires ListOk(timers, list, place) && i in timers && timers[i].place != place && t.place == place
    requires p <= |list|
    ensures ListOk(timers[i := t], InsertAt(list, p, Item(i, Value(t))), place)
  {
    var x, timers' := Item(i, Value(t)), timers[i := t];
    var r := InsertAt(list, p, x);
    assert !Has(list, i);
    InsertKeepsMembers(list, p, x);
    forall k | 0 <= k < |r|
      ensures ItemOk(timers', r[k])
    {
      if k != p {
        assert ItemOk(timers, list[if k < p then k else k - 1]);
        assert Has(list, r[k].owner);
      }
    }
  }

  lemma ListTail(timers: map<nat, Timer>, list: seq<Item>, place: Place, t: Timer)
    requires ListOk(timers, list, place) && list != [] && t.place != place
    ensures ListOk(timers[list[0].owner := t], list[1..], place)
  {
    TailKeepsMembers(list);
    var tail := list[1..];
    forall k | 0 <= k < |tail|
      ensures ItemOk(timers[list[0].owner := t], tail[k])
    {
      assert ItemOk(timers, list[k + 1]);
    }
  }

  /** A timer that is in no list before or after. */
  lemma UpdateIdleKeeps(s: State, i: nat, t: Timer)
    requires Core(s) && i in s.timers && s.timers[i].place == Idle && t.place == Idle && TimerOk(t, s.last, s.now)
    ensures Core(Update(s, i, t))
  {
    ListFrame(s.timers, s.current, Current, i, t);
    ListFrame(s.timers, s.overflow, Overflow, i, t);
    ListFrame(s.timers, s.queue, Queued, i, t);
    ListFrame(s.timers, InHands(s.daemon), Held, i, t);
  }

  lemma FireKeeps(s: State, i: nat)
    requires Core(s) && i in s.timers && s.timers[i].place == Idle && s.timers[i].started && s.timers[i].due <= s.now
    ensures Core(Fire(s, i))
  {
    var t := Fire(s, i).timers[i];
    assert TimerOk(s.timers[i], s.last, s.now);
    assert TimerOk(t, s.last, s.now);
    UpdateIdleKeeps(s, i, t);
  }

  /** A timer in no list whose last nominal expiry, or start, was at `base`. */
  predicate InHand(s: State, i: nat, base: nat) {
    && i in s.timers && s.timers[i].place == Idle && s.timers[i].started
    && (s.timers[i].autoReload || s.timers[i].calls == [])
    && s.timers[i].due == base + s.timers[i].period && base <= s.now && 0 < s.timers[i].period < 0x1_0000_0000
  }

  lemma PostKeeps(s: State, i: nat, base: nat)
    requires Core(s) && InHand(s, i, base)
    ensures Core(Post(s, i, TickOf(base)))
  {
    var t := s.timers[i].(place := Queued);
    assert TimerOk(t, s.last, s.now) && TickOf(base) == Value(t) by {
      assert TimerOk(s.timers[i], s.last, s.now);
    }
    ListFrame(s.timers, s.current, Current, i, t);
    ListFrame(s.timers, s.overflow, Overflow, i, t);
    ListInsert(s.timers, s.queue, Queued, i, t, |s.queue|);
    ListFrame(s.timers, InHands(s.daemon), Held, i, t);
  }

  lemma PutCurrentKeeps(s: State, i: nat, base: nat, expiry: nat)
    requires Core(s) && InHand(s, i, base)
    requires expiry == TickOf(s.timers[i].due) && EpochOf(s.timers[i].due) == EpochOf(s.last)
    ensures Core(PutCurrent(s, i, expiry))
  {
    var t := s.timers[i].(place := Current);
    assert TimerOk(t, s.last, s.now) by {
      assert TimerOk(s.timers[i], s.last, s.now);
    }
    ListInsert(s.timers, s.current, Current, i, t, InsertPoint(s.current, expiry));
    InsertSortedIsStable(s.current, Item(i, expiry));
    ListFrame(s.timers, s.overflow, Overflow, i, t);
    ListFrame(s.timers, s.queue, Queued, i, t);
    ListFrame(s.timers, InHands(s.daemon), Held, i, t);
  }

  lemma PutOverflowKeeps(s: State, i: nat, base: nat, expiry: nat)
    requires Core(s) && InHand(s, i, base)
    requires expiry == TickOf(s.timers[i].due) && EpochOf(s.timers[i].due) == EpochOf(s.last) + 1
    ensures Core(PutOverflow(s, i, expiry))
  {
    var t := s.timers[i].(place := Overflow);
    assert TimerOk(t, s.last, s.now) by {
      assert TimerOk(s.timers[i], s.last, s.now);
    }
    ListInsert(s.timers, s.overflow, Overflow, i, t, InsertPoint(s.overflow, expiry));
    InsertSortedIsStable(s.overflow, Item(i, expiry));
    ListFrame(s.timers, s.current, Current, i, t);
    ListFrame(s.timers, s.queue, Queued, i, t);
    ListFrame(s.timers, InHands(s.daemon), Held, i, t);
  }

  /** Taking the head off the current list leaves its timer idle, due when the item said. */
  lemma PopCurrentKeeps(s: State)
    requires Core(s) && s.current != []
    ensures var i := s.current[0].owner;
            && i in s.timers && s.timers[i].place == Current && s.current[0].value == TickOf(s.timers[i].due)
            && Core(Settle(s.(current := s.current[1..]), i, Idle))
  {
    var i := s.current[0].owner;
    TailKeepsMembers(s.current);
    assert ItemOk(s.timers, s.current[0]);
    assert TimerOk(s.timers[i], s.last, s.now);
    var t := s.timers[i].(place := Idle);
    ListTail(s.timers, s.current, Current, t);
    ListFrame(s.timers, s.overflow, Overflow, i, t);
    ListFrame(s.timers, s.queue, Queued, i, t);
    ListFrame(s.timers, InHands(s.daemon), Held, i, t);
  }

  // ---------------------------------------------------------------- the steps of the task

  /** Nothing but timer `i`, the lists and the queue differs. */
  ghost predicate Touches(s: State, s': State, i: nat) {
    && s'.last == s.last && s'.now == s.now && s'.daemon == s.daemon && s'.timers.Keys == s.timers.Keys
    && forall k {:trigger s'.timers[k]} | k in s.timers && k != i :: s'.timers[k] == s.timers[k]
  }

  lemma ReloadKeeps(s: State, i: nat, base: nat)
    requires Core(s) && EpochOf(base) == EpochOf(s.last) && i in s.timers
    requires s.timers[i].autoReload ==> InHand(s, i, base)
    ensures Core(Reload(s, i, TickOf(base)))
  {
    if s.timers[i].autoReload {
      ReloadArithmetic(base, s.timers[i].period);
      if TickOf(base + s.timers[i].period) > TickOf(base) {
        PutCurrentKeeps(s, i, base, TickOf(base + s.timers[i].period));
      } else {
        PostKeeps(s, i, base);
      }
    }
  }

  lemma ReloadArithmetic(base: nat, period: nat)
    requires 0 < period < 0x1_0000_0000
    ensures TickAdd(TickOf(base), period) == TickOf(base + period)
    ensures TickOf(base + period) > TickOf(base) ==> EpochOf(base + period) == EpochOf(base)
  {
    WithinOneWrap(base, base + period);
  }

  lemma ExpireHeadKeeps(s: State)
    requires Core(s) && s.current != []
    requires s.current[0].owner in s.timers ==> s.timers[s.current[0].owner].due <= s.now
    ensures var i := s.current[0].owner;
            && i in s.timers && s.timers[i].place == Current && Core(ExpireHead(s)) && Touches(s, ExpireHead(s), i)
            && s.current[0].value == TickOf(s.timers[i].due) && EpochOf(s.timers[i].due) == EpochOf(s.last)
            && var t := ExpireHead(s).timers[i];
            && t.place == Idle && t.started && t.autoReload == s.timers[i].autoReload && t.period == s.timers[i].period
            && (t.autoReload ==> InHand(ExpireHead(s), i, s.timers[i].due)) && (!t.autoReload ==> |t.calls| == 1)
  {
    PopCurrentKeeps(s);
    var i := s.current[0].owner;
    assert TimerOk(s.timers[i], s.last, s.now);
    FireKeeps(Settle(s.(current := s.current[1..]), i, Idle), i);
  }

  lemma DrainHeadKeeps(s: State)
    requires Core(s) && s.current != [] && EpochOf(s.last) < EpochOf(s.now)
    ensures Core(DrainHead(s)) && s.current[0].owner in s.timers && s.timers[s.current[0].owner].place == Current
  {
    PopCurrentKeeps(s);
    var i := s.current[0].owner;
    assert TimerOk(s.timers[i], s.last, s.now);
    ExpireHeadKeeps(s);
    ReloadKeeps(ExpireHead(s), i, s.timers[i].due);
  }

  lemma DrainHeadTouches(s: State)
    requires Core(s) && s.current != [] && s.current[0].owner in s.timers && s.timers[s.current[0].owner].due <= s.now
    ensures Touches(s, DrainHead(s), s.current[0].owner)
    ensures Settled(DrainHead(s).timers[s.current[0].owner])
  {
    ExpireHeadKeeps(s);
  }

  lemma ListRelabel(timers: map<nat, Timer>, timers': map<nat, Timer>, list: seq<Item>, place: Place, place': Place)
    requires ListOk(timers, list, place) && timers'.Keys == timers.Keys
    requires forall i | i in timers :: timers[i].place == place <==> timers'[i].place == place'
    requires forall i | i in timers && timers[i].place == place :: Value(timers'[i]) == Value(timers[i])
    ensures ListOk(timers', list, place')
  {
    forall k | 0 <= k < |list|
      ensures ItemOk(timers', list[k])
    {
      assert ItemOk(timers, list[k]);
      assert Has(list, list[k].owner);
    }
  }

  lemma ExchangedTimerOk(s: State, sample: nat, i: nat)
    requires Core(s) && s.current == [] && s.last <= sample <= s.now && EpochOf(sample) == EpochOf(s.last) + 1 && i in s.timers
    ensures s.timers[i].place != Current && TimerOk(Exchanged(s.timers)[i], sample, s.now)
  {
    assert !Has(s.current, i);
    assert TimerOk(s.timers[i], s.last, s.now);
  }

  lemma SwitchListsKeeps(s: State, sample: nat, errand: Errand)
    requires Core(s) && s.daemon == Switching(sample, errand) && s.current == []
    requires s.last <= sample <= s.now && EpochOf(sample) == EpochOf(s.last) + 1
    ensures Core(SwitchLists(s, sample, errand))
  {
    var timers' := Exchanged(s.timers);
    forall i | i in s.timers
      ensures s.timers[i].place != Current && TimerOk(timers'[i], sample, s.now)
    {
      ExchangedTimerOk(s, sample, i);
    }
    ListRelabel(s.timers, timers', s.overflow, Overflow, Current);
    ListRelabel(s.timers, timers', s.current, Current, Overflow);
    ListRelabel(s.timers, timers', s.queue, Queued, Queued);
    ListRelabel(s.timers, timers', InHands(s.daemon), Held, Held);
    assert InHands(SwitchLists(s, sample, errand).daemon) == InHands(s.daemon);
  }

  lemma RestartKeeps(s: State, i: nat, base: nat)
    requires Core(s) && InHand(s, i, base) && base <= s.last < base + 0x1_0000_0000
    ensures Core(Restart(s, i, TickOf(base)))
  {
    var p := s.timers[i].period;
    ChoiceIsExact(base, p, s.last);
    match ChooseList(TickOf(base + p), TickOf(s.last), TickOf(base), p) {
      case ProcessNow => PostKeeps(s, i, base);
      case ToCurrent => PutCurrentKeeps(s, i, base, TickOf(base + p));
      case ToOverflow => PutOverflowKeeps(s, i, base, TickOf(base + p));
    }
  }

  lemma RestartTouches(s: State, i: nat, value: nat)
    requires i in s.timers
    ensures Touches(s, Restart(s, i, value), i) && Restart(s, i, value).timers[i].place != Idle
  {
  }

  lemma ProcessExpiredKeeps(s: State)
    requires Core(s) && HeadExpired(s)
    ensures Core(ProcessExpired(s)) && Touches(s, ProcessExpired(s), s.current[0].owner)
    ensures Settled(ProcessExpired(s).timers[s.current[0].owner]) && s.timers[s.current[0].owner].place == Current
  {
    PopCurrentKeeps(s);
    var i := s.current[0].owner;
    assert TimerOk(s.timers[i], s.last, s.now);
    ExpireHeadKeeps(s);
    if s.timers[i].autoReload {
      RestartKeeps(ExpireHead(s), i, s.timers[i].due);
      RestartTouches(ExpireHead(s), i, s.current[0].value);
    }
  }

  lemma FireInHand(s: State, i: nat, base: nat)
    requires Core(s) && InHand(s, i, base) && s.timers[i].due <= s.now
    ensures Core(Fire(s, i))
    ensures s.timers[i].autoReload ==> InHand(Fire(s, i), i, base + s.timers[i].period)
  {
    FireKeeps(s, i);
  }

  lemma LateStartKeeps(s: State, i: nat, base: nat, expiry: nat)
    requires Core(s) && InHand(s, i, base) && s.timers[i].due <= s.now && expiry == TickOf(base + s.timers[i].period)
    ensures Core(LateStart(s, i, expiry))
  {
    FireInHand(s, i, base);
    if s.timers[i].autoReload {
      PostKeeps(Fire(s, i), i, base + s.timers[i].period);
    }
  }

  lemma ComesLateIff(s: State, i: nat, base: nat, value: nat)
    requires InHand(s, i, base) && base <= s.last < base + 0x1_0000_0000 && value == TickOf(base)
    ensures ComesLate(s, i, value) <==> s.timers[i].due <= s.last
    ensures TickAdd(value, s.timers[i].period) == TickOf(base + s.timers[i].period)
  {
    ChoiceIsExact(base, s.timers[i].period, s.last);
  }

  /** Timer `i` counts its period from `base`, the time that `value` stands for, and the sample is taken within
      a wrap of it. */
  ghost predicate CountsFrom(s: State, i: nat, base: nat, value: nat) {
    Core(s) && InHand(s, i, base) && base <= s.last < base + 0x1_0000_0000 && value == TickOf(base)
  }

  /** A timer is late exactly if it is due by the time of the sample; if not, it is in the list of its round. */
  lemma RestartIsRight(s: State, i: nat, base: nat, value: nat)
    requires CountsFrom(s, i, base, value)
    ensures ComesLate(s, i, value) <==> s.timers[i].due <= s.last
    ensures !ComesLate(s, i, value) ==>
              && Core(Restart(s, i, value)) && Touches(s, Restart(s, i, value), i)
              && Restart(s, i, value).timers[i] ==
                 s.timers[i].(place := if EpochOf(s.timers[i].due) == EpochOf(s.last) then Current else Overflow)
  {
    ComesLateIff(s, i, base, value);
    ChoiceIsExact(base, s.timers[i].period, s.last);
    RestartKeeps(s, i, base);
  }

  lemma StartTimerKeeps(s: State, i: nat, base: nat, value: nat)
    requires Core(s) && InHand(s, i, base) && base <= s.last < base + 0x1_0000_0000 && value == TickOf(base)
    ensures Core(StartTimer(s, i, value))
  {
    ComesLateIff(s, i, base, value);
    if ComesLate(s, i, value) {
      LateStartKeeps(s, i, base, TickAdd(value, s.timers[i].period));
    } else {
      RestartKeeps(s, i, base);
    }
  }

  lemma StartTimerTouches(s: State, i: nat, value: nat)
    requires i in s.timers && (s.timers[i].autoReload || s.timers[i].calls == [])
    ensures Touches(s, StartTimer(s, i, value), i) && Settled(StartTimer(s, i, value).timers[i])
  {
    RestartTouches(s, i, value);
  }

  lemma LetGoKeeps(s: State, command: Item)
    requires Core(s) && InHands(s.daemon) == [command]
    ensures command.owner in s.timers && s.timers[command.owner].place == Held
    ensures Core(LetGo(s, command.owner))
    ensures var t := s.timers[command.owner];
            && t.period <= t.due && command.value == TickOf(t.due - t.period)
            && InHand(LetGo(s, command.owner), command.owner, t.due - t.period)
  {
    var i, held := command.owner, InHands(s.daemon);
    TailKeepsMembers(held);
    assert ItemOk(s.timers, held[0]);
    assert TimerOk(s.timers[i], s.last, s.now);
    var t := s.timers[i].(place := Idle);
    ListTail(s.timers, held, Held, t);
    assert held[1..] == InHands(Looking);
    ListFrame(s.timers, s.current, Current, i, t);
    ListFrame(s.timers, s.overflow, Overflow, i, t);
    ListFrame(s.timers, s.queue, Queued, i, t);
  }

  lemma HeldListOk(timers: map<nat, Timer>, i: nat, t: Timer, command: Item)
    requires ListOk(timers, [], Held) && i in timers && timers[i].place != Held && t.place == Held
    requires command == Item(i, Value(t))
    ensures ListOk(timers[i := t], [command], Held)
  {
    ListInsert(timers, [], Held, i, t, 0);
    assert InsertAt([], 0, command) == [command];
  }

  lemma TakeCommandKeeps(s: State)
    requires Core(s) && s.queue != [] && s.daemon == Looking
    ensures Core(TakeCommand(s)) && s.queue[0].owner in s.timers && s.timers[s.queue[0].owner].place == Queued
  {
    var i := s.queue[0].owner;
    assert Has(s.queue, i) && ItemOk(s.timers, s.queue[0]);
    var t := s.timers[i].(place := Held);
    assert TimerOk(s.timers[i], s.last, s.now);
    ListTail(s.timers, s.queue, Queued, t);
    HeldListOk(s.timers, i, t, s.queue[0]);
    ListFrame(s.timers, s.current, Current, i, t);
    ListFrame(s.timers, s.overflow, Overflow, i, t);
  }

  // ---------------------------------------------------------------- each event

  /** The task gets to read the clock in time: less than one wrap since it last did, and less than one wrap
      after the time of the command it has received. */
  ghost predicate Prompt(s: State) {
    && s.now < s.last + 0x1_0000_0000
    && (s.daemon.Received? && s.daemon.command.owner in s.timers ==>
          var t := s.timers[s.daemon.command.owner];
          s.now + t.period < t.due + 0x1_0000_0000)
  }

  predicate ReadsClock(s: State, e: Event) {
    (e.Look? && s.daemon == Looking) || (e.Go? && s.daemon.Received?)
  }

  lemma ReadClockKeepsInv(s: State, errand: Errand)
    requires Inv(s) && Prompt(s) && InHands(s.daemon) == (if errand.Obey? then [errand.command] else [])
    requires errand.Obey? ==> s.daemon == Received(errand.command)
    ensures Inv(ReadClock(s, errand))
  {
    WithinOneWrap(s.last, s.now);
    if errand.Obey? {
      LetGoKeeps(s, errand.command);
      assert TimerOk(s.timers[errand.command.owner], s.last, s.now);
    }
    if !Switches(s) {
      assert forall i | i in s.timers :: TimerOk(s.timers[i], s.last, s.now) ==> TimerOk(s.timers[i], s.now, s.now);
    }
  }

  lemma DrainKeepsInv(s: State)
    requires Inv(s) && s.daemon.Switching? && s.current != []
    ensures Inv(DrainHead(s))
  {
    DrainHeadKeeps(s);
    var i := s.current[0].owner;
    assert TimerOk(s.timers[i], s.last, s.now);
    DrainHeadTouches(s);
    DaemonFrame(s, DrainHead(s), i);
  }

  lemma SwitchKeepsInv(s: State)
    requires Inv(s) && s.daemon.Switching? && s.current == []
    ensures Inv(SwitchLists(s, s.daemon.sample, s.daemon.errand))
  {
    SwitchListsKeeps(s, s.daemon.sample, s.daemon.errand);
  }

  lemma ExpiredKeepsInv(s: State)
    requires Inv(s) && s.daemon == Acting(Expire)
    ensures Inv(Expired(s))
  {
    if HeadExpired(s) {
      ProcessExpiredKeeps(s);
    }
  }

  /** The time of the command in hand, and the sample that it is to be judged by. */
  lemma CommandTime(s: State, command: Item) returns (base: nat)
    requires Core(s) && DaemonOk(s) && s.daemon == Acting(Obey(command))
    ensures command.owner in s.timers && command.value == TickOf(base) && base <= s.last < base + 0x1_0000_0000
    ensures Core(LetGo(s, command.owner)) && InHand(LetGo(s, command.owner), command.owner, base)
  {
    LetGoKeeps(s, command);
    base := s.timers[command.owner].due - s.timers[command.owner].period;
  }

  lemma ObeyedKeeps(s: State, command: Item)
    requires Core(s) && DaemonOk(s) && s.daemon == Acting(Obey(command))
    ensures Core(Obeyed(s, command))
  {
    var base := CommandTime(s, command);
    StartTimerKeeps(LetGo(s, command.owner), command.owner, base, command.value);
  }

  lemma ObeyedSettles(s: State, command: Item)
    requires Core(s) && AllSettled(s, {}) && s.daemon == Acting(Obey(command))
    ensures AllSettled(Obeyed(s, command), {}) && Obeyed(s, command).daemon == Looking
  {
    LetGoKeeps(s, command);
    StartTimerTouches(LetGo(s, command.owner), command.owner, command.value);
  }

  lemma ObeyedKeepsInv(s: State, command: Item)
    requires Inv(s) && s.daemon == Acting(Obey(command))
    ensures Inv(Obeyed(s, command))
  {
    ObeyedKeeps(s, command);
    ObeyedSettles(s, command);
  }

  lemma GoKeepsInv(s: State)
    requires Inv(s) && (s.daemon.Received? ==> Prompt(s))
    ensures Inv(GoOn(s))
  {
    match s.daemon {
      case Looking =>
      case Received(command) => ReadClockKeepsInv(s, Obey(command));
      case Switching(_, _) =>
        if s.current != [] {
          DrainKeepsInv(s);
        } else {
          SwitchKeepsInv(s);
        }
      case Acting(errand) =>
        if errand.Expire? {
          ExpiredKeepsInv(s);
        } else {
          ObeyedKeepsInv(s, errand.command);
        }
    }
  }

  lemma TakeCommandKeepsInv(s: State)
    requires Inv(s) && s.queue != [] && s.daemon == Looking
    ensures Inv(TakeCommand(s))
  {
    TakeCommandKeeps(s);
  }

  /** The command taken carries the time from which its timer counts. */
  lemma TakenIsHeld(s: State)
    requires Inv(s) && s.queue != [] && s.daemon == Looking
    ensures s.queue[0].owner in s.timers
    ensures var s', t := TakeCommand(s), s.timers[s.queue[0].owner].(place := Held);
            && Inv(s') && s' == s.(timers := s.timers[s.queue[0].owner := t], queue := s.queue[1..], daemon := Received(s.queue[0]))
            && t.period <= t.due && s.queue[0].value == TickOf(t.due - t.period)
  {
    TakeCommandKeepsInv(s);
    TakeCommandKeeps(s);
    LetGoKeeps(TakeCommand(s), s.queue[0]);
  }

  lemma StampedKeeps(s: State, i: nat, read: nat)
    requires Core(s) && i in s.timers && !s.timers[i].started && read <= s.now
    ensures Core(Stamped(s, i, read)) && InHand(Stamped(s, i, read), i, read)
  {
    var t := Stamped(s, i, read).timers[i];
    assert TimerOk(s.timers[i], s.last, s.now);
    assert Nominal(read, t.period, 1) == Nominal(read, t.period, 0) + t.period;
    assert TimerOk(t, s.last, s.now);
    UpdateIdleKeeps(s, i, t);
  }

  lemma StartKeeps(s: State, i: nat, read: nat)
    requires Core(s) && i in s.timers && !s.timers[i].started && read <= s.now
    ensures Core(StartedAt(s, i, read)) && s.timers[i].place == Idle
  {
    assert TimerOk(s.timers[i], s.last, s.now);
    StampedKeeps(s, i, read);
    PostKeeps(Stamped(s, i, read), i, read);
  }

  lemma DaemonFrame(s: State, s': State, i: nat)
    requires Core(s) && DaemonOk(s) && Touches(s, s', i) && i in s.timers && s.timers[i].place != Held
    ensures DaemonOk(s')
  {
    if InHands(s.daemon) != [] {
      assert Has(InHands(s.daemon), InHands(s.daemon)[0].owner);
    }
  }

  lemma StartKeepsInv(s: State, i: nat, read: nat)
    requires Inv(s) && i in s.timers && !s.timers[i].started && read <= s.now
    ensures Inv(StartedAt(s, i, read))
  {
    StartKeeps(s, i, read);
    DaemonFrame(s, StartedAt(s, i, read), i);
  }

  lemma TickKeepsInv(s: State)
    requires Inv(s)
    ensures Inv(s.(now := s.now + 1))
  {
    assert forall i | i in s.timers :: TimerOk(s.timers[i], s.last, s.now) ==> TimerOk(s.timers[i], s.last, s.now + 1);
  }

  /** Ticks and start commands come between any two steps of the task. */
  lemma StepKeepsInv(s: State, e: Event)
    requires Inv(s) && (ReadsClock(s, e) ==> Prompt(s))
    ensures Inv(Step(s, e))
  {
    match e {
      case Tick => TickKeepsInv(s);
      case Start(i, read) =>
        if i in s.timers && !s.timers[i].started && read <= s.now {
          StartKeepsInv(s, i, read);
        }
      case Look =>
        if s.daemon == Looking {
          ReadClockKeepsInv(s, Expire);
        }
      case Receive =>
        if s.daemon == Looking && s.queue != [] {
          TakeCommandKeepsInv(s);
        }
      case Go => GoKeepsInv(s);
    }
  }


  // ---------------------------------------------------------------- what no step changes

  /** What a timer is, and when it was started. */
  predicate SameTimer(t: Timer, t': Timer) {
    t'.period == t.period && t'.autoReload == t.autoReload && t'.started == t.started && (t.started ==> t'.start == t.start)
  }

  ghost predicate Same(s: State, s': State) {
    s'.timers.Keys == s.timers.Keys && forall i {:trigger s'.timers[i]} | i in s.timers :: SameTimer(s.timers[i], s'.timers[i])
  }

  lemma RestartIsSame(s: State, i: nat, value: nat)
    requires i in s.timers
    ensures Same(s, Restart(s, i, value))
  {
  }

  lemma StartTimerIsSame(s: State, i: nat, value: nat)
    requires i in s.timers
    ensures Same(s, StartTimer(s, i, value))
  {
    RestartIsSame(s, i, value);
  }

  lemma ExpiredIsSame(s: State)
    ensures Same(s, Expired(s))
  {
    if HeadExpired(s) {
      RestartIsSame(ExpireHead(s), s.current[0].owner, s.current[0].value);
    }
  }

  lemma ObeyedIsSame(s: State, command: Item)
    ensures Same(s, Obeyed(s, command))
  {
    if command.owner in s.timers {
      StartTimerIsSame(LetGo(s, command.owner), command.owner, command.value);
    }
  }

  lemma GoIsSame(s: State)
    ensures Same(s, GoOn(s))
  {
    match s.daemon {
      case Acting(errand) =>
        if errand.Expire? {
          ExpiredIsSame(s);
        } else {
          ObeyedIsSame(s, errand.command);
        }
      case _ =>
    }
  }

  lemma StepIsSame(s: State, e: Event)
    ensures Step(s, e).timers.Keys == s.timers.Keys && s.now <= Step(s, e).now
    ensures forall i {:trigger Step(s, e).timers[i]} | i in s.timers && !(e.Start? && e.i == i && !s.timers[i].started) ::
              SameTimer(s.timers[i], Step(s, e).timers[i])
  {
    if e.Go? {
      GoIsSame(s);
      GoKeepsTime(s);
    }
  }

  lemma GoKeepsTime(s: State)
    ensures GoOn(s).now == s.now
  {
  }

  /** A start takes. */
  lemma StartTakes(s: State, i: nat, read: nat)
    requires i in s.timers && !s.timers[i].started && read <= s.now
    ensures var s' := Step(s, Start(i, read));
            && i in s'.timers && s'.timers[i].started && s'.timers[i].start == read
            && s'.timers[i].period == s.timers[i].period && s'.timers[i].autoReload == s.timers[i].autoReload
  {
  }

  lemma {:induction false} ExecIsSame(s: State, es: seq<Event>, i: nat)
    requires i in s.timers && (s.timers[i].started || forall k | 0 <= k < |es| :: !(es[k].Start? && es[k].i == i))
    ensures i in Exec(s, es).timers && SameTimer(s.timers[i], Exec(s, es).timers[i])
    decreases |es|
  {
    if es != [] {
      StepIsSame(s, es[0]);
      ExecIsSame(Step(s, es[0]), es[1..], i);
    }
  }

  // ---------------------------------------------------------------- whole runs

  datatype Config = Config(period: nat, autoReload: bool)

  /** All timers created, none started; xLastTime is 0 and the tick count starts wherever it starts. */
  function Init(config: map<nat, Config>, initialTick: nat): State {
    State(map i | i in config :: Timer(config[i].period, config[i].autoReload, false, Idle, 0, 0, []),
          [], [], [], 0, initialTick, Looking)
  }

  lemma InitIsOk(config: map<nat, Config>, initialTick: nat)
    requires forall i | i in config :: 0 < config[i].period < 0x1_0000_0000
    ensures Inv(Init(config, initialTick))
  {
  }

  /** Whenever the task reads the clock, it does so in time. */
  ghost predicate AlwaysPrompt(s: State, es: seq<Event>)
    decreases |es|
  {
    es == [] || ((ReadsClock(s, es[0]) ==> Prompt(s)) && AlwaysPrompt(Step(s, es[0]), es[1..]))
  }

  lemma {:induction false} ExecKeepsInv(s: State, es: seq<Event>)
    requires Inv(s) && AlwaysPrompt(s, es)
    ensures Inv(Exec(s, es))
    decreases |es|
  {
    if es != [] {
      StepKeepsInv(s, es[0]);
      ExecKeepsInv(Step(s, es[0]), es[1..]);
    }
  }

  /** The task finds nothing to do and is about to block: the lists are not to be switched, the head of the
      current list has not expired, and no command is pending. */
  predicate AtRest(s: State) {
    && s.daemon == Looking && s.last <= s.now < s.last + 0x1_0000_0000 && !Switches(s) && s.queue == []
    && (s.current != [] ==> TickOf(s.now) < s.current[0].value)
  }

  lemma NothingIsOverdue(s: State, i: nat)
    requires Inv(s) && AtRest(s) && i in s.timers && s.timers[i].started
    ensures s.timers[i].place == Idle || s.now < s.timers[i].due
  {
    var t := s.timers[i];
    WithinOneWrap(s.last, s.now);
    assert TimerOk(t, s.last, s.now);
    assert !Has(s.queue, i) && !Has(InHands(s.daemon), i);
    if t.place == Current {
      assert Has(s.current, i);
      var k := Find(s.current, i);
      assert ItemOk(s.timers, s.current[k]);
      assert s.current[0].value <= s.current[k].value;
    }
  }

  lemma CallsAreNominal(s: State, i: nat)
    requires Inv(s) && i in s.timers && s.timers[i].started
    ensures var t := s.timers[i];
            forall j | 0 <= j < |t.calls| ::
              t.calls[j].nominal == t.start + (j + 1) * t.period && t.calls[j].nominal <= t.calls[j].at <= s.now
  {
    var t := s.timers[i];
    assert TimerOk(t, s.last, s.now);
    forall j | 0 <= j < |t.calls|
      ensures t.calls[j].nominal == t.start + (j + 1) * t.period && t.calls[j].nominal <= t.calls[j].at <= s.now
    {
      NominalIs(t.start, t.period, j + 1);
    }
  }

  /** The callback of a timer started at `read` has been called exactly once, in order and never early, for each
      of read + period, read + 2 * period, ... (a one-shot timer's only for the first); if the task is at rest, for
      every one of them that has been reached. */
  ghost predicate InStep(s: State, i: nat, read: nat, c: Config) {
    && i in s.timers
    && var calls := s.timers[i].calls;
    && (forall j | 0 <= j < |calls| ::
          calls[j].nominal == read + (j + 1) * c.period && calls[j].nominal <= calls[j].at <= s.now)
    && (c.autoReload && AtRest(s) ==> read + |calls| * c.period <= s.now < read + (|calls| + 1) * c.period)
    && (!c.autoReload ==> |calls| <= 1 && (AtRest(s) ==> (|calls| == 1 <==> read + c.period <= s.now)))
  }

  lemma StartedIsInStep(s: State, i: nat)
    requires Inv(s) && i in s.timers && s.timers[i].started
    ensures var t := s.timers[i]; InStep(s, i, t.start, Config(t.period, t.autoReload))
  {
    var t := s.timers[i];
    assert TimerOk(t, s.last, s.now) && Settled(t);
    CallsAreNominal(s, i);
    NominalIs(t.start, t.period, |t.calls| + 1);
    if AtRest(s) {
      NothingIsOverdue(s, i);
    }
    if t.calls != [] {
      assert t.calls[|t.calls| - 1].nominal == t.start + |t.calls| * t.period;
    }
  }

  /** The state after a run in which timer `i` was started once. */
  function AfterStart(config: map<nat, Config>, initialTick: nat, before: seq<Event>, i: nat, read: nat): State {
    Step(Exec(Init(config, initialTick), before), Start(i, read))
  }

  lemma AfterStartIs(config: map<nat, Config>, initialTick: nat, before: seq<Event>, i: nat, read: nat)
    requires forall k | k in config :: 0 < config[k].period < 0x1_0000_0000
    requires i in config && forall k | 0 <= k < |before| :: !(before[k].Start? && before[k].i == i)
    requires AlwaysPrompt(Init(config, initialTick), before) && read <= Exec(Init(config, initialTick), before).now
    ensures var s := AfterStart(config, initialTick, before, i, read);
            Inv(s) && i in s.timers && s.timers[i].started && s.timers[i].start == read
            && Config(s.timers[i].period, s.timers[i].autoReload) == config[i]
  {
    var s := Init(config, initialTick);
    InitIsOk(config, initialTick);
    ExecKeepsInv(s, before);
    ExecIsSame(s, before, i);
    StartTakes(Exec(s, before), i, read);
    StepKeepsInv(Exec(s, before), Start(i, read));
  }

  /** A timer is started once, at `read`, in a run in which ticks and other starts fall anywhere between the
      steps of the service task: it stays in step with its nominal expiries, through late service, stale samples,
      list switches and wraps of the tick count. */
  lemma TimersDoNotDrift(config: map<nat, Config>, initialTick: nat, before: seq<Event>, i: nat, read: nat, after: seq<Event>)
    requires forall k | k in config :: 0 < config[k].period < 0x1_0000_0000
    requires i in config && forall k | 0 <= k < |before| :: !(before[k].Start? && before[k].i == i)
    requires AlwaysPrompt(Init(config, initialTick), before) && read <= Exec(Init(config, initialTick), before).now
    requires AlwaysPrompt(AfterStart(config, initialTick, before, i, read), after)
    ensures InStep(Exec(AfterStart(config, initialTick, before, i, read), after), i, read, config[i])
  {
    var s := AfterStart(config, initialTick, before, i, read);
    AfterStartIs(config, initialTick, before, i, read);
    ExecKeepsInv(s, after);
    ExecIsSame(s, after, i);
    StartedIsInStep(Exec(s, after), i);
  }

  /** How long the task blocks for: until the head expires, or the tick count wraps. */
  function BlockTime(s: State): nat {
    TickSub(if s.current == [] then 0 else s.current[0].value, TickOf(s.now))
  }

  /** It never sleeps past an expiry, and wakes exactly at the first one of this round. */
  lemma NeverOversleeps(s: State, i: nat)
    requires Inv(s) && AtRest(s) && i in s.timers && s.timers[i].started && (s.timers[i].autoReload || s.timers[i].calls == [])
    ensures s.now + BlockTime(s) <= s.timers[i].due
    ensures s.current != [] && s.current[0].owner == i ==> s.now + BlockTime(s) == s.timers[i].due
  {
    var t := s.timers[i];
    NothingIsOverdue(s, i);
    WithinOneWrap(s.last, s.now);
    assert TimerOk(t, s.last, s.now) && Settled(t);
    assert !Has(s.queue, i) && !Has(InHands(s.daemon), i);
    HeadIsFirst(s, i);
  }

  /** The head of the current list is due in this round, and nobody on that list is due before it. */
  lemma HeadIsFirst(s: State, i: nat)
    requires Core(s) && i in s.timers
    ensures s.timers[i].place == Current ==> s.current != [] && s.current[0].value <= TickOf(s.timers[i].due)
    ensures s.current != [] ==>
              var h := s.current[0].owner;
              h in s.timers && s.timers[h].place == Current && s.current[0].value == TickOf(s.timers[h].due)
  {
    if s.timers[i].place == Current {
      assert Has(s.current, i);
      var k := Find(s.current, i);
      assert ItemOk(s.timers, s.current[k]);
    }
    if s.current != [] {
      assert Has(s.current, s.current[0].owner) && ItemOk(s.timers, s.current[0]);
    }
  }

  // ---------------------------------------------------------------- left alone, the task comes to rest

  predicate Active(t: Timer) {
    t.started && t.place != Idle
  }

  /** How far behind a timer is. */
  function Lag(t: Timer, now: nat): nat {
    if Active(t) && t.due <= now then now - t.due + 1 else 0
  }

  ghost function Backlog(timers: map<nat, Timer>, keys: set<nat>, now: nat): nat
    requires keys <= timers.Keys
  {
    if keys == {} then 0 else
      var i :| i in keys;
      Lag(timers[i], now) + Backlog(timers, keys - {i}, now)
  }

  lemma {:induction false} BacklogSplit(timers: map<nat, Timer>, keys: set<nat>, now: nat, i: nat)
    requires keys <= timers.Keys && i in keys
    ensures Backlog(timers, keys, now) == Lag(timers[i], now) + Backlog(timers, keys - {i}, now)
    decreases keys
  {
    var k :| k in keys && Backlog(timers, keys, now) == Lag(timers[k], now) + Backlog(timers, keys - {k}, now);
    if k != i {
      BacklogSplit(timers, keys - {k}, now, i);
      BacklogSplit(timers, keys - {i}, now, k);
      assert keys - {k} - {i} == keys - {i} - {k};
    }
  }

  lemma {:induction false} BacklogFrame(timers: map<nat, Timer>, timers': map<nat, Timer>, keys: set<nat>, now: nat)
    requires keys <= timers.Keys && keys <= timers'.Keys
    requires forall i | i in keys :: Lag(timers'[i], now) == Lag(timers[i], now)
    ensures Backlog(timers', keys, now) == Backlog(timers, keys, now)
    decreases keys
  {
    if keys != {} {
      var i :| i in keys;
      BacklogSplit(timers, keys, now, i);
      BacklogSplit(timers', keys, now, i);
      BacklogFrame(timers, timers', keys - {i}, now);
    }
  }

  /** Of the timers only `i` changed: its callback was called for an expiry that had been reached. */
  ghost predicate Called(s: State, s': State, i: nat) {
    && s'.now == s.now && s.last == s'.last && s'.timers.Keys == s.timers.Keys && i in s.timers
    && (forall k {:trigger s'.timers[k]} | k in s.timers && k != i :: s'.timers[k] == s.timers[k])
    && var t, t' := s.timers[i], s'.timers[i];
       Active(t) && t.due <= s.now && t.period > 0 && t'.period == t.period && t'.due == t.due + t.period
  }

  ghost function Debt(s: State): nat {
    Backlog(s.timers, s.timers.Keys, s.now)
  }

  lemma CalledLess(s: State, s': State, i: nat)
    requires Called(s, s', i)
    ensures Debt(s') < Debt(s)
  {
    var keys := s.timers.Keys;
    BacklogSplit(s.timers, keys, s.now, i);
    BacklogSplit(s'.timers, keys, s.now, i);
    BacklogFrame(s.timers, s'.timers, keys - {i}, s.now);
  }

  lemma SameDebt(s: State, s': State)
    requires s'.now == s.now && s'.timers.Keys == s.timers.Keys
    requires forall i | i in s.timers :: Lag(s'.timers[i], s.now) == Lag(s.timers[i], s.now)
    ensures Debt(s') == Debt(s)
  {
    BacklogFrame(s.timers, s'.timers, s.timers.Keys, s.now);
  }

  function Rest(s: State): nat {
    if EpochOf(s.now) > EpochOf(s.last) then EpochOf(s.now) - EpochOf(s.last) else 0
  }

  function Commands(s: State): nat {
    2 * |s.queue| + |InHands(s.daemon)|
  }

  function Stage(s: State): nat {
    match s.daemon
    case Looking => 4
    case Received(_) => 3
    case Switching(_, _) => 2
    case Acting(errand) => if errand.Obey? || HeadExpired(s) then 1 else 5
  }

  /** `s'` is nearer to rest than `s`: fewer expiries to serve, or as many and fewer switches ahead, or as many and
      fewer commands, or a fresher sample, or further on in what the task is doing. */
  ghost predicate Nearer(s': State, s: State) {
    || Debt(s') < Debt(s)
    || (Debt(s') == Debt(s) &&
          (|| Rest(s') < Rest(s)
           || (Rest(s') == Rest(s) &&
                 (|| Commands(s') < Commands(s)
                  || (Commands(s') == Commands(s) &&
                        (|| (s'.last == s.now && s.last != s.now)
                         || ((s'.last == s.now <==> s.last == s.now) && Stage(s') < Stage(s))))))))
  }

  /** The service task is less than a wrap late with everything it has to do. */
  ghost predicate Punctual(s: State) {
    && s.now < s.last + 0x1_0000_0000
    && forall i {:trigger s.timers[i]} | i in s.timers && Active(s.timers[i]) :: s.now + s.timers[i].period < s.timers[i].due + 0x1_0000_0000
  }

  /** What the service task does next if left alone. */
  function Next(s: State): Event {
    if s.daemon != Looking then Go else if s.queue != [] then Receive else Look
  }

  lemma CalledIsPunctual(s: State, s': State, i: nat)
    requires Punctual(s) && Called(s, s', i)
    ensures Punctual(s')
  {
  }

  lemma DrainCalls(s: State)
    requires Inv(s) && s.daemon.Switching? && s.current != []
    ensures s.current[0].owner in s.timers && Called(s, DrainHead(s), s.current[0].owner)
  {
    PopCurrentKeeps(s);
    assert TimerOk(s.timers[s.current[0].owner], s.last, s.now);
  }

  lemma ExpiredCalls(s: State)
    requires Inv(s) && HeadExpired(s)
    ensures Called(s, Expired(s), s.current[0].owner)
  {
    PopCurrentKeeps(s);
    assert TimerOk(s.timers[s.current[0].owner], s.last, s.now);
    RestartTouches(ExpireHead(s), s.current[0].owner, s.current[0].value);
  }

  lemma StartTimerShape(s: State, i: nat, value: nat)
    requires i in s.timers && s.timers[i].place == Idle
    ensures var s' := StartTimer(s, i, value);
            && Touches(s, s', i)
            && if ComesLate(s, i, value) then s'.timers[i].due == s.timers[i].due + s.timers[i].period
                                             && s'.timers[i].period == s.timers[i].period
               else s'.queue == s.queue && s'.timers[i].place != Idle && s'.timers[i] == s.timers[i].(place := s'.timers[i].place)
  {
  }

  lemma LateIsDue(s: State, command: Item)
    requires Inv(s) && s.daemon == Acting(Obey(command))
    ensures command.owner in s.timers && Active(s.timers[command.owner]) && s.timers[command.owner].period > 0
    ensures ComesLate(LetGo(s, command.owner), command.owner, command.value) ==> s.timers[command.owner].due <= s.now
  {
    LetGoKeeps(s, command);
    var t := s.timers[command.owner];
    assert TimerOk(t, s.last, s.now);
    ChoiceIsExact(t.due - t.period, t.period, s.last);
  }

  /** A command that comes too late is a call; any other puts its timer into a list. */
  lemma ObeyedCallsOrMoves(s: State, command: Item)
    requires Inv(s) && s.daemon == Acting(Obey(command))
    ensures var s' := Obeyed(s, command);
            && command.owner in s.timers && s'.daemon == Looking
            && (Called(s, s', command.owner) || (OnlyMoves(s, s') && s'.queue == s.queue))
  {
    LateIsDue(s, command);
    StartTimerShape(LetGo(s, command.owner), command.owner, command.value);
  }

  /** No timer is due at another time, or stops being active; the last sample is the same. */
  ghost predicate OnlyMoves(s: State, s': State) {
    && s'.now == s.now && s'.last == s.last && s'.timers.Keys == s.timers.Keys
    && forall i {:trigger s'.timers[i]} | i in s.timers :: s'.timers[i] == s.timers[i].(place := s'.timers[i].place)
                                                          && Active(s'.timers[i]) == Active(s.timers[i])
  }

  lemma MovesIsPunctual(s: State, s': State)
    requires Punctual(s) && OnlyMoves(s, s')
    ensures Punctual(s') && Debt(s') == Debt(s)
  {
    SameDebt(s, s');
  }

  lemma ObeyIsNearer(s: State, command: Item)
    requires Inv(s) && Punctual(s) && s.daemon == Acting(Obey(command))
    ensures Nearer(Obeyed(s, command), s) && Punctual(Obeyed(s, command))
  {
    ObeyedCallsOrMoves(s, command);
    var s' := Obeyed(s, command);
    if Called(s, s', command.owner) {
      CalledLess(s, s', command.owner);
      CalledIsPunctual(s, s', command.owner);
    } else {
      MovesIsPunctual(s, s');
      assert InHands(s.daemon) == [command] && InHands(s'.daemon) == [];
    }
  }

  lemma SwitchingIsNearer(s: State)
    requires Inv(s) && Punctual(s) && s.daemon.Switching?
    ensures Nearer(GoOn(s), s) && Punctual(GoOn(s))
  {
    var s' := GoOn(s);
    if s.current != [] {
      DrainCalls(s);
      CalledLess(s, s', s.current[0].owner);
      CalledIsPunctual(s, s', s.current[0].owner);
    } else {
      SameDebt(s, s');
    }
  }

  lemma ExpireIsNearer(s: State)
    requires Inv(s) && Punctual(s) && s.daemon == Acting(Expire)
    ensures Nearer(Expired(s), s) && Punctual(Expired(s))
  {
    if HeadExpired(s) {
      ExpiredCalls(s);
      CalledLess(s, Expired(s), s.current[0].owner);
      CalledIsPunctual(s, Expired(s), s.current[0].owner);
    } else {
      SameDebt(s, Expired(s));
    }
  }

  lemma ReadIsNearer(s: State, errand: Errand)
    requires Inv(s) && Punctual(s)
    requires if errand.Obey? then s.daemon == Received(errand.command) else s.daemon == Looking && s.queue == [] && !AtRest(s)
    ensures Nearer(ReadClock(s, errand), s) && Punctual(ReadClock(s, errand))
  {
    var s' := ReadClock(s, errand);
    SameDebt(s, s');
    WithinOneWrap(s.last, s.now);
    assert |InHands(s'.daemon)| == |InHands(s.daemon)|;
    if s.current != [] {
      assert Has(s.current, s.current[0].owner);
    }
  }

  lemma TakeIsNearer(s: State)
    requires Inv(s) && Punctual(s) && s.daemon == Looking && s.queue != []
    ensures Nearer(TakeCommand(s), s) && Punctual(TakeCommand(s))
  {
    TakeCommandKeeps(s);
    assert OnlyMoves(s, TakeCommand(s));
    MovesIsPunctual(s, TakeCommand(s));
  }

  lemma NextIsNearer(s: State)
    requires Inv(s) && Punctual(s) && !AtRest(s)
    ensures Nearer(Step(s, Next(s)), s) && Punctual(Step(s, Next(s)))
  {
    match s.daemon {
      case Looking =>
        if s.queue != [] {
          TakeIsNearer(s);
        } else {
          ReadIsNearer(s, Expire);
        }
      case Received(command) => ReadIsNearer(s, Obey(command));
      case Switching(_, _) => SwitchingIsNearer(s);
      case Acting(errand) =>
        if errand.Expire? {
          ExpireIsNearer(s);
        } else {
          ObeyIsNearer(s, errand.command);
        }
    }
  }

  lemma PunctualIsPrompt(s: State)
    requires Inv(s) && Punctual(s)
    ensures Prompt(s)
  {
    if s.daemon.Received? {
      LetGoKeeps(s, s.daemon.command);
      assert TimerOk(s.timers[s.daemon.command.owner], s.last, s.now);
    }
  }

  predicate Solo(e: Event) {
    e.Look? || e.Receive? || e.Go?
  }

  lemma SoloStep(s: State)
    requires Inv(s) && Punctual(s) && !AtRest(s)
    ensures var s' := Step(s, Next(s)); Inv(s') && Punctual(s') && Nearer(s', s) && s'.now == s.now
    ensures Prompt(s)
  {
    PunctualIsPrompt(s);
    StepKeepsInv(s, Next(s));
    NextIsNearer(s);
    GoKeepsTime(s);
  }

  /** From any state in which the service task is less than a wrap late, it comes to rest if it is left alone:
      however many expiries are to be served, it does not go round for ever. */
  lemma {:induction false} ComesToRest(s: State) returns (es: seq<Event>)
    requires Inv(s) && Punctual(s)
    ensures (forall e | e in es :: Solo(e)) && AlwaysPrompt(s, es) && AtRest(Exec(s, es))
    decreases Debt(s), Rest(s), Commands(s), if s.last == s.now then 0 else 1, Stage(s)
  {
    if AtRest(s) {
      es := [];
    } else {
      SoloStep(s);
      var rest := ComesToRest(Step(s, Next(s)));
      es := [Next(s)] + rest;
      assert es[1..] == rest;
    }
  }

  /** So from any point of a run at which the task is less than a wrap late, every expiry of a timer that has been
      reached is served once the task is left alone. */
  lemma EveryExpiryIsServed(config: map<nat, Config>, initialTick: nat, before: seq<Event>, i: nat, read: nat, after: seq<Event>)
    returns (es: seq<Event>)
    requires forall k | k in config :: 0 < config[k].period < 0x1_0000_0000
    requires i in config && forall k | 0 <= k < |before| :: !(before[k].Start? && before[k].i == i)
    requires AlwaysPrompt(Init(config, initialTick), before) && read <= Exec(Init(config, initialTick), before).now
    requires AlwaysPrompt(AfterStart(config, initialTick, before, i, read), after)
    requires Punctual(Exec(AfterStart(config, initialTick, before, i, read), after))
    ensures (forall e | e in es :: Solo(e))
    ensures var s := Exec(Exec(AfterStart(config, initialTick, before, i, read), after), es);
            AtRest(s) && InStep(s, i, read, config[i])
  {
    var s0 := AfterStart(config, initialTick, before, i, read);
    AfterStartIs(config, initialTick, before, i, read);
    ExecKeepsInv(s0, after);
    ExecIsSame(s0, after, i);
    var s1 := Exec(s0, after);
    es := ComesToRest(s1);
    ExecKeepsInv(s1, es);
    ExecIsSame(s1, es, i);
    StartedIsInStep(Exec(s1, es), i);
  }

  // ---------------------------------------------------------------- the daemon as an object

  /** What the task does in prvSwitchTimerLists if nothing comes between. */
  function SwitchRun(s: State): State
    requires s.daemon.Switching?
    decreases Rounds(s.current)
  {
    if s.current == [] then SwitchLists(s, s.daemon.sample, s.daemon.errand)
    else
      DrainHeadDescends(s);
      SwitchRun(DrainHead(s))
  }

  function Sampled(s: State, errand: Errand): State {
    var s' := ReadClock(s, errand);
    if s'.daemon.Switching? then SwitchRun(s') else s'
  }

  /** It is a run of the task's own steps. */
  lemma {:induction false} SwitchRunIsGoing(s: State) returns (es: seq<Event>)
    requires s.daemon.Switching?
    ensures (forall e | e in es :: e == Go) && Exec(s, es) == SwitchRun(s)
    decreases Rounds(s.current)
  {
    if s.current == [] {
      es := [Go];
      assert es[1..] == [];
    } else {
      DrainHeadDescends(s);
      var rest := SwitchRunIsGoing(DrainHead(s));
      es := [Go] + rest;
      assert es[1..] == rest;
    }
  }

  /** The service task and what it works on. Every decision is taken on 32-bit values; the timers as the model
      sees them, the instants and the record of calls are ghost. */
  class TimerDaemon {
    const config: map<nat, Config>
    var current: seq<Item>
    var overflow: seq<Item>
    var queue: seq<Item>
    var lastTime: nat
    ghost var timers: map<nat, Timer>
    ghost var last: nat
    ghost var now: nat
    ghost var daemon: Daemon

    ghost function View(): State
      reads this
    {
      State(timers, current, overflow, queue, last, now, daemon)
    }

    ghost predicate Valid()
      reads this
    {
      && lastTime == TickOf(last)
      && forall i {:trigger timers[i]} | i in timers ::
           i in config && timers[i].period == config[i].period && timers[i].autoReload == config[i].autoReload
    }

    constructor (config: map<nat, Config>, ghost initialTick: nat)
      ensures Valid() && View() == Init(config, initialTick) && this.config == config
    {
      this.config := config;
      current, overflow, queue, lastTime := [], [], [], 0;
      timers := map i | i in config :: Timer(config[i].period, config[i].autoReload, false, Idle, 0, 0, []);
      last, now, daemon := 0, initialTick, Looking;
    }

    /** Takes the head off the current list; its callback is called. */
    method CallHead() returns (x: Item)
      requires Valid() && current != [] && current[0].owner in timers
      modifies this`current, this`timers
      ensures Valid() && x == old(current)[0] && View() == ExpireHead(old(View()))
    {
      x := current[0];
      current := current[1..];
      ghost var t := timers[x.owner];
      timers := timers[x.owner := t.(place := Idle, calls := t.calls + [Call(t.due, now)], due := t.due + t.period)];
    }

    /** xTimerGenericCommand */
    method GenericCommand(i: nat, value: nat)
      requires Valid() && i in timers
      modifies this`queue, this`timers
      ensures Valid() && View() == Post(old(View()), i, value)
      ensures queue == old(queue) + [Item(i, value)]
    {
      timers := timers[i := timers[i].(place := Queued)];
      queue := InsertAt(queue, |queue|, Item(i, value));
    }

    method Insert(i: nat, expiry: nat, intoCurrent: bool)
      requires Valid() && i in timers
      modifies this`current, this`overflow, this`timers
      ensures Valid() && View() == if intoCurrent then PutCurrent(old(View()), i, expiry) else PutOverflow(old(View()), i, expiry)
    {
      timers := timers[i := timers[i].(place := if intoCurrent then Current else Overflow)];
      if intoCurrent {
        current := InsertSorted(current, Item(i, expiry));
      } else {
        overflow := InsertSorted(overflow, Item(i, expiry));
      }
    }

    /** One round of the loop of prvSwitchTimerLists. */
    method DrainOne()
      requires Valid() && current != [] && current[0].owner in timers
      modifies this`current, this`overflow, this`queue, this`timers
      ensures Valid() && View() == DrainHead(old(View())) && DrainHead(old(View())).daemon == daemon
    {
      var x := CallHead();
      if config[x.owner].autoReload {
        var reload := TickAdd(x.value, config[x.owner].period);
        if reload > x.value {
          Insert(x.owner, reload, true);
        } else {
          GenericCommand(x.owner, x.value);
        }
      }
    }

    /** The end of prvSwitchTimerLists and of prvSampleTimeNow. */
    method SwapLists(timeNow: nat)
      requires Valid() && daemon.Switching? && timeNow == TickOf(daemon.sample)
      modifies this
      ensures Valid() && lastTime == timeNow && View() == SwitchLists(old(View()), old(daemon.sample), old(daemon.errand))
    {
      current, overflow := overflow, current;
      timers := Exchanged(timers);
      last := daemon.sample;
      daemon := if daemon.errand.Expire? then Looking else Acting(daemon.errand);
      lastTime := timeNow;
    }

    /** prvSwitchTimerLists: whatever is left in the current list has expired, possibly many times over. */
    method SwitchTimerLists(timeNow: nat)
      requires Valid() && Inv(View()) && daemon.Switching? && timeNow == TickOf(daemon.sample)
      modifies this
      ensures Valid() && lastTime == timeNow && View() == SwitchRun(old(View()))
    {
      ghost var before := View();
      while current != []
        invariant Valid() && Inv(View()) && daemon == before.daemon && SwitchRun(View()) == SwitchRun(before)
        decreases Rounds(current)
      {
        PopCurrentKeeps(View());
        DrainKeepsInv(View());
        DrainHeadDescends(View());
        DrainOne();
      }
      SwapLists(timeNow);
    }

    /** prvSampleTimeNow, given the tick count it reads. */
    method SampleTimeNow(timeNow: nat, ghost errand: Errand) returns (switched: bool)
      requires Valid() && Inv(View()) && Prompt(View()) && timeNow == TickOf(now)
      requires if errand.Obey? then daemon == Received(errand.command) else daemon == Looking
      modifies this
      ensures Valid() && lastTime == timeNow && View() == Sampled(old(View()), errand) && switched == Switches(old(View()))
    {
      ReadClockKeepsInv(View(), errand);
      switched := timeNow < lastTime;
      if switched {
        daemon := Switching(now, errand);
        SwitchTimerLists(timeNow);
      } else {
        last, daemon := now, Acting(errand);
        lastTime := timeNow;
      }
    }

    /** prvInsertTimerInActiveList; says whether the timer is to be processed at once. */
    method InsertTimerInActiveList(i: nat, expiry: nat, timeNow: nat, commandTime: nat) returns (processNow: bool)
      requires Valid() && i in timers && timeNow == lastTime && expiry == TickAdd(commandTime, config[i].period)
      modifies this`current, this`overflow, this`timers
      ensures Valid() && processNow == ComesLate(old(View()), i, commandTime)
      ensures View() == if processNow then old(View()) else Restart(old(View()), i, commandTime)
      ensures forall base | CountsFrom(old(View()), i, base, commandTime) ::
                && (processNow <==> old(timers)[i].due <= last)
                && (processNow ==> timers == old(timers))
                && (!processNow ==>
                      && Touches(old(View()), View(), i)
                      && timers[i] == old(timers)[i].(place := if EpochOf(timers[i].due) == EpochOf(last) then Current else Overflow))
                && Core(View())
    {
      forall base | CountsFrom(View(), i, base, commandTime) {
        RestartIsRight(View(), i, base, commandTime);
      }
      processNow := false;
      if expiry <= timeNow {
        if TickSub(timeNow, commandTime) >= config[i].period {
          processNow := true;
        } else {
          Insert(i, expiry, false);
        }
      } else if timeNow < commandTime && expiry >= commandTime {
        processNow := true;
      } else {
        Insert(i, expiry, true);
      }
    }

    /** prvProcessExpiredTimer, with a time sample that may be stale by now. */
    method ProcessExpiredTimer(nextExpireTime: nat, timeNow: nat)
      requires Valid() && Inv(View()) && daemon == Acting(Expire) && timeNow == lastTime
      requires HeadExpired(View()) && nextExpireTime == current[0].value
      modifies this
      ensures Valid() && View() == Step(old(View()), Go)
    {
      PopCurrentKeeps(View());
      var x := CallHead();
      if config[x.owner].autoReload {
        var processNow := InsertTimerInActiveList(x.owner, TickAdd(nextExpireTime, config[x.owner].period), timeNow, nextExpireTime);
        if processNow {
          GenericCommand(x.owner, nextExpireTime);
        }
      }
      daemon := Looking;
    }

    /** The head of the loop of prvProcessReceivedCommands. */
    method ReceiveCommand() returns (command: Item)
      requires Valid() && Inv(View()) && daemon == Looking && queue != []
      modifies this
      ensures Valid() && command == old(queue)[0] && View() == Step(old(View()), Receive)
      ensures Inv(View()) && command.owner in timers && timers[command.owner].place == Held
      ensures var t := timers[command.owner]; t.period <= t.due && command.value == TickOf(t.due - t.period)
    {
      TakenIsHeld(View());
      command := queue[0];
      queue := queue[1..];
      timers := timers[command.owner := timers[command.owner].(place := Held)];
      daemon := Received(command);
    }

    /** The callback of a timer that expired before it could be started. */
    method CallLate(i: nat, expiry: nat)
      requires Valid() && i in timers
      modifies this`queue, this`timers
      ensures Valid() && View() == LateStart(old(View()), i, expiry)
    {
      ghost var t := timers[i];
      timers := timers[i := t.(calls := t.calls + [Call(t.due, now)], due := t.due + t.period)];
      if config[i].autoReload {
        GenericCommand(i, expiry);
      }
    }

    /** A start command in prvProcessReceivedCommands, with a time sample that may be stale by now. */
    method ObeyStart(command: Item, timeNow: nat)
      requires Valid() && daemon == Acting(Obey(command)) && timeNow == lastTime && command.owner in timers
      modifies this
      ensures Valid() && View() == Step(old(View()), Go)
    {
      var i := command.owner;
      timers := timers[i := timers[i].(place := Idle)];
      daemon := Looking;
      var expiry := TickAdd(command.value, config[i].period);
      var processNow := InsertTimerInActiveList(i, expiry, timeNow, command.value);
      if processNow {
        CallLate(i, expiry);
      }
    }
  }
}
