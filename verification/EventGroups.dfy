/** Event groups: tasks wait for some or all of a set of bits. What a task waits for, and what it is told when
    it wakes, are both kept in the value of its event list item. */
module EventGroups {
  import opened Sequences

  /** A 32-bit word as the positions of its one bits: `+` is bitwise or, `*` is and, `- w` is and-not. */
  type Word = set<nat>

  const CLEAR_ON_EXIT: nat := 24
  const UNBLOCKED: nat := 25
  const WAIT_FOR_ALL: nat := 26
  const IN_USE: nat := 31
  const CONTROL: Word := {24, 25, 26, 27, 28, 29, 30, 31}

  /** What a call to xEventGroupWaitBits asks for; xEventGroupSync asks for all the bits and clears them. */
  datatype Request = Request(bits: Word, clear: bool, all: bool)

  /** `Woken` and `Expired` tasks are on no list and have not run yet. */
  datatype Phase = Idle | Waiting | Woken | Expired

  /** `item` is the value of the event list item, `seen` the bits when the task was woken, and `result` what
      its last call returned. */
  datatype Task = Task(phase: Phase, item: Word, request: Request, seen: Word, result: Word)

  datatype State = State(bits: Word, waiting: seq<nat>, tasks: map<nat, Task>)

  /** `value` is the item value that goes with the priority of the task. */
  datatype Event =
    | Create(t: nat, value: Word)
    | Set(mask: Word)
    | Clear(mask: Word)
    | Wait(t: nat, request: Request, block: bool)
    | Sync(t: nat, mask: Word, bits: Word, block: bool)
    | Expire(t: nat)
    | Return(t: nat, value: Word)
    | Reprioritise(t: nat, value: Word)

  // ---------------------------------------------------------------- bits

  /** prvTestWaitCondition */
  predicate Satisfied(bits: Word, r: Request) {
    if r.all then r.bits <= bits else bits * r.bits != {}
  }

  predicate Plain(bits: Word) {
    bits !! CONTROL
  }

  predicate RequestOk(r: Request) {
    Plain(r.bits) && r.bits != {}
  }

  /** What vTaskPlaceOnUnorderedEventList stores for a request. */
  function Encode(r: Request): Word {
    r.bits + (if r.clear then {CLEAR_ON_EXIT} else {}) + (if r.all then {WAIT_FOR_ALL} else {}) + {IN_USE}
  }

  function Bits(item: Word): Word {
    item - CONTROL
  }

  /** The test that xEventGroupSetBits makes on an item value. */
  predicate Match(item: Word, bits: Word) {
    if WAIT_FOR_ALL !in item then Bits(item) * bits != {} else Bits(item) <= bits
  }

  predicate ClearsOnExit(item: Word) {
    CLEAR_ON_EXIT in item
  }

  /** What vTaskRemoveFromUnorderedEventList stores. */
  function Told(bits: Word): Word {
    bits + {UNBLOCKED} + {IN_USE}
  }

  /** An item value says exactly what the request was, and that nobody has woken the task. */
  lemma EncodeSays(r: Request, bits: Word)
    requires Plain(r.bits)
    ensures Match(Encode(r), bits) <==> Satisfied(bits, r)
    ensures ClearsOnExit(Encode(r)) <==> r.clear
    ensures Bits(Encode(r)) == r.bits && UNBLOCKED !in Encode(r) && IN_USE in Encode(r)
  {
    assert Bits(Encode(r)) == r.bits;
    assert r.bits * bits == bits * r.bits;
  }

  lemma ToldSays(bits: Word)
    requires Plain(bits)
    ensures Bits(Told(bits)) == bits && UNBLOCKED in Told(bits) && IN_USE in Told(bits)
  {
  }

  lemma ClearingSatisfiesNobody(bits: Word, clear: Word, r: Request)
    requires Satisfied(bits - clear, r)
    ensures Satisfied(bits, r)
  {
    if !r.all {
      var i :| i in (bits - clear) * r.bits;
      assert i in bits * r.bits;
    }
  }

  lemma PlainBits(a: Word, b: Word)
    requires Plain(a)
    ensures Plain(a - b) && (Plain(b) ==> Plain(a + b)) && Bits(a) == a
  {
  }

  // ---------------------------------------------------------------- the operations

  predicate Matching(tasks: map<nat, Task>, t: nat, bits: Word) {
    t in tasks && Match(tasks[t].item, bits)
  }

  /** Who of `w` goes on waiting, in order. */
  function Kept(w: seq<nat>, tasks: map<nat, Task>, bits: Word): seq<nat> {
    if w == [] then [] else
      var last := w[|w| - 1];
      Kept(w[..|w| - 1], tasks, bits) + (if Matching(tasks, last, bits) then [] else [last])
  }

  /** The bits that those of `w` who match want cleared. */
  function ToClear(w: seq<nat>, tasks: map<nat, Task>, bits: Word): Word {
    if w == [] then {} else
      var last := w[|w| - 1];
      var rest := ToClear(w[..|w| - 1], tasks, bits);
      if Matching(tasks, last, bits) && ClearsOnExit(tasks[last].item) then rest + Bits(tasks[last].item) else rest
  }

  /** vTaskRemoveFromUnorderedEventList */
  function WakeOne(t: Task, bits: Word): Task {
    t.(phase := Woken, item := Told(bits), seen := bits)
  }

  /** Those of `w` who match are woken and told the bits; the others are as they were. */
  function Woke(tasks: map<nat, Task>, w: seq<nat>, bits: Word): map<nat, Task> {
    map t | t in tasks :: if t in w && Match(tasks[t].item, bits) then WakeOne(tasks[t], bits) else tasks[t]
  }

  /** xEventGroupSetBits: everybody is tested against the same bits, and only then are bits cleared. */
  function AfterSet(s: State, mask: Word): State {
    var bits := s.bits + mask;
    State(bits - ToClear(s.waiting, s.tasks, bits), Kept(s.waiting, s.tasks, bits), Woke(s.tasks, s.waiting, bits))
  }

  function Update(s: State, t: nat, task: Task): State {
    s.(tasks := s.tasks[t := task])
  }

  function Answered(s: State, t: nat, bits: Word): State
    requires t in s.tasks
  {
    Update(s, t, s.tasks[t].(result := bits))
  }

  /** vTaskPlaceOnUnorderedEventList */
  function Blocked(s: State, t: nat, r: Request): State
    requires t in s.tasks
  {
    Update(s, t, s.tasks[t].(phase := Waiting, item := Encode(r), request := r)).(waiting := s.waiting + [t])
  }

  function Cleared(s: State, mask: Word): State {
    s.(bits := s.bits - mask)
  }

  /** xEventGroupWaitBits up to the point where it returns or blocks. */
  function WaitBits(s: State, t: nat, r: Request, block: bool): State
    requires t in s.tasks
  {
    if Satisfied(s.bits, r) then Cleared(Answered(s, t, s.bits), if r.clear then r.bits else {})
    else if block then Blocked(s, t, r)
    else Answered(s, t, s.bits)
  }

  /** xEventGroupSync up to the point where it returns or blocks. */
  function SyncBits(s: State, t: nat, mask: Word, bits: Word, block: bool): State
    requires t in s.tasks
  {
    var s' := AfterSet(s, mask);
    if Satisfied(s.bits + mask, Request(bits, true, true)) then Cleared(Answered(s', t, s.bits + mask), bits)
    else if block then Blocked(s', t, Request(bits, true, true))
    else Answered(s', t, s'.bits)
  }

  function Without(w: seq<nat>, t: nat): seq<nat> {
    if w == [] then [] else Without(w[..|w| - 1], t) + (if w[|w| - 1] == t then [] else [w[|w| - 1]])
  }

  /** The block time of a waiting task is over. */
  function TimedOut(s: State, t: nat): State
    requires t in s.tasks
  {
    Update(s, t, s.tasks[t].(phase := Expired)).(waiting := Without(s.waiting, t))
  }

  /** The part of xEventGroupWaitBits and xEventGroupSync after the block: uxTaskResetEventItemValue, and for a
      task that timed out a last look at the bits. */
  function Returned(s: State, t: nat, value: Word): State
    requires t in s.tasks
  {
    var task := s.tasks[t];
    if UNBLOCKED in task.item then Update(s, t, task.(phase := Idle, item := value, result := Bits(task.item)))
    else
      var s' := Update(s, t, task.(phase := Idle, item := value, result := Bits(s.bits)));
      if Satisfied(s.bits, task.request) && task.request.clear then Cleared(s', task.request.bits) else s'
  }

  /** What vTaskPrioritySet and the inheritance functions do to the item. */
  function Reprioritised(s: State, t: nat, value: Word): State
    requires t in s.tasks
  {
    if IN_USE !in s.tasks[t].item then Update(s, t, s.tasks[t].(item := value)) else s
  }

  predicate Enabled(s: State, e: Event) {
    match e
    case Create(t, value) => t !in s.tasks && IN_USE !in value
    case Set(mask) => Plain(mask)
    case Clear(mask) => Plain(mask)
    case Wait(t, r, _) => t in s.tasks && s.tasks[t].phase == Idle && RequestOk(r)
    case Sync(t, mask, bits, _) => t in s.tasks && s.tasks[t].phase == Idle && Plain(mask) && Plain(bits) && bits != {}
    case Expire(t) => t in s.tasks && s.tasks[t].phase == Waiting
    case Return(t, value) => t in s.tasks && (s.tasks[t].phase == Woken || s.tasks[t].phase == Expired) && IN_USE !in value
    case Reprioritise(t, value) => t in s.tasks && IN_USE !in value
  }

  function Step(s: State, e: Event): State {
    if !Enabled(s, e) then s else
      match e
      case Create(t, value) => Update(s, t, Task(Idle, value, Request({}, false, false), {}, {}))
      case Set(mask) => AfterSet(s, mask)
      case Clear(mask) => Cleared(s, mask)
      case Wait(t, r, block) => WaitBits(s, t, r, block)
      case Sync(t, mask, bits, block) => SyncBits(s, t, mask, bits, block)
      case Expire(t) => TimedOut(s, t)
      case Return(t, value) => Returned(s, t, value)
      case Reprioritise(t, value) => Reprioritised(s, t, value)
  }

  function Exec(s: State, es: seq<Event>): State
    decreases |es|
  {
    if es == [] then s else Exec(Step(s, es[0]), es[1..])
  }

  const INIT: State := State({}, [], map[])

  // ---------------------------------------------------------------- what every step keeps

  /** A waiting task has not got what it asked for; a woken one holds the bits it was woken with, which are
      what it asked for; only an idle one has its item in the ordinary use. */
  predicate TaskOk(t: Task, bits: Word) {
    match t.phase
    case Idle => IN_USE !in t.item
    case Waiting => t.item == Encode(t.request) && RequestOk(t.request) && !Satisfied(bits, t.request)
    case Woken => t.item == Told(t.seen) && Plain(t.seen) && Satisfied(t.seen, t.request)
    case Expired => t.item == Encode(t.request) && RequestOk(t.request)
  }

  ghost predicate Listed(w: seq<nat>, tasks: map<nat, Task>) {
    NoDuplicates(w) && forall t {:trigger t in w} :: t in w <==> t in tasks && tasks[t].phase == Waiting
  }

  ghost predicate TasksOk(tasks: map<nat, Task>, bits: Word) {
    forall t {:trigger tasks[t]} | t in tasks :: TaskOk(tasks[t], bits)
  }

  ghost predicate Inv(s: State) {
    Plain(s.bits) && Listed(s.waiting, s.tasks) && TasksOk(s.tasks, s.bits)
  }

  lemma {:induction false} KeptMembers(w: seq<nat>, tasks: map<nat, Task>, bits: Word)
    requires NoDuplicates(w)
    ensures NoDuplicates(Kept(w, tasks, bits))
    ensures forall t {:trigger t in Kept(w, tasks, bits)} :: t in Kept(w, tasks, bits) <==> t in w && !Matching(tasks, t, bits)
    decreases |w|
  {
    if w != [] {
      var front, last := w[..|w| - 1], w[|w| - 1];
      KeptMembers(front, tasks, bits);
      assert w == front + [last];
      assert last !in front;
      assert last !in Kept(front, tasks, bits);
    }
  }

  lemma {:induction false} WithoutMembers(w: seq<nat>, t: nat)
    requires NoDuplicates(w)
    ensures NoDuplicates(Without(w, t))
    ensures forall u {:trigger u in Without(w, t)} :: u in Without(w, t) <==> u in w && u != t
    decreases |w|
  {
    if w != [] {
      var front, last := w[..|w| - 1], w[|w| - 1];
      WithoutMembers(front, t);
      assert w == front + [last];
      assert last !in front;
      assert last !in Without(front, t);
    }
  }

  /** What a set does to one task. */
  lemma SetTaskOk(t: Task, before: Word, mask: Word, clear: Word, listed: bool)
    requires TaskOk(t, before) && listed == (t.phase == Waiting) && Plain(before) && Plain(mask)
    ensures var v := before + mask;
            TaskOk(if listed && Match(t.item, v) then WakeOne(t, v) else t, v - clear)
  {
    var v := before + mask;
    PlainBits(before, mask);
    if listed {
      EncodeSays(t.request, v);
      if !Match(t.item, v) && Satisfied(v - clear, t.request) {
        ClearingSatisfiesNobody(v, clear, t.request);
      }
    }
  }

  lemma SetKeepsInv(s: State, mask: Word)
    requires Inv(s) && Plain(mask)
    ensures Inv(AfterSet(s, mask))
  {
    var v := s.bits + mask;
    var s' := AfterSet(s, mask);
    PlainBits(s.bits, mask);
    PlainBits(v, ToClear(s.waiting, s.tasks, v));
    KeptMembers(s.waiting, s.tasks, v);
    forall t | t in s'.tasks
      ensures TaskOk(s'.tasks[t], s'.bits)
    {
      SetTaskOk(s.tasks[t], s.bits, mask, ToClear(s.waiting, s.tasks, v), t in s.waiting);
    }
  }

  lemma ClearedTaskOk(t: Task, bits: Word, mask: Word)
    requires TaskOk(t, bits)
    ensures TaskOk(t, bits - mask)
  {
    if t.phase == Waiting && Satisfied(bits - mask, t.request) {
      ClearingSatisfiesNobody(bits, mask, t.request);
    }
  }

  lemma ClearedKeepsInv(s: State, mask: Word)
    requires Inv(s)
    ensures Inv(Cleared(s, mask))
  {
    PlainBits(s.bits, mask);
    forall t | t in s.tasks
      ensures TaskOk(s.tasks[t], s.bits - mask)
    {
      ClearedTaskOk(s.tasks[t], s.bits, mask);
    }
  }

  lemma UpdateKeepsInv(s: State, t: nat, task: Task)
    requires Inv(s) && TaskOk(task, s.bits) && task.phase != Waiting && (t in s.tasks ==> s.tasks[t].phase != Waiting)
    ensures Inv(Update(s, t, task))
  {
  }

  lemma BlockedKeepsInv(s: State, t: nat, r: Request)
    requires Inv(s) && t in s.tasks && s.tasks[t].phase != Waiting && RequestOk(r) && !Satisfied(s.bits, r)
    ensures Inv(Blocked(s, t, r))
  {
    assert t !in s.waiting;
  }

  lemma WaitKeepsInv(s: State, t: nat, r: Request, block: bool)
    requires Inv(s) && t in s.tasks && s.tasks[t].phase == Idle && RequestOk(r)
    ensures Inv(WaitBits(s, t, r, block))
  {
    assert TaskOk(s.tasks[t], s.bits);
    UpdateKeepsInv(s, t, s.tasks[t].(result := s.bits));
    if Satisfied(s.bits, r) {
      ClearedKeepsInv(Answered(s, t, s.bits), if r.clear then r.bits else {});
    } else {
      BlockedKeepsInv(s, t, r);
    }
  }

  /** The rest of a sync, after its set. */
  lemma SyncKeepsInv(s: State, t: nat, mask: Word, bits: Word, block: bool)
    requires Inv(s) && t in s.tasks && s.tasks[t].phase == Idle && Plain(mask) && Plain(bits) && bits != {}
    ensures Inv(SyncBits(s, t, mask, bits, block))
  {
    var s', v, r := AfterSet(s, mask), s.bits + mask, Request(bits, true, true);
    SetKeepsInv(s, mask);
    assert s'.tasks[t] == s.tasks[t];
    assert TaskOk(s'.tasks[t], s'.bits);
    if Satisfied(v, r) {
      UpdateKeepsInv(s', t, s'.tasks[t].(result := v));
      ClearedKeepsInv(Answered(s', t, v), bits);
    } else if block {
      if Satisfied(s'.bits, r) {
        ClearingSatisfiesNobody(v, ToClear(s.waiting, s.tasks, v), r);
      }
      BlockedKeepsInv(s', t, r);
    } else {
      UpdateKeepsInv(s', t, s'.tasks[t].(result := s'.bits));
    }
  }

  lemma TimedOutKeepsInv(s: State, t: nat)
    requires Inv(s) && t in s.tasks && s.tasks[t].phase == Waiting
    ensures Inv(TimedOut(s, t))
  {
    WithoutMembers(s.waiting, t);
    assert TaskOk(s.tasks[t], s.bits);
  }

  lemma ReturnedKeepsInv(s: State, t: nat, value: Word)
    requires Inv(s) && t in s.tasks && (s.tasks[t].phase == Woken || s.tasks[t].phase == Expired) && IN_USE !in value
    ensures Inv(Returned(s, t, value))
  {
    var task := s.tasks[t];
    UpdateKeepsInv(s, t, task.(phase := Idle, item := value, result := Bits(task.item)));
    UpdateKeepsInv(s, t, task.(phase := Idle, item := value, result := Bits(s.bits)));
    ClearedKeepsInv(Update(s, t, task.(phase := Idle, item := value, result := Bits(s.bits))), task.request.bits);
  }

  /** The in-use bit keeps a priority change away from everything but an idle task's item. */
  lemma PriorityIsKeptOff(t: Task, bits: Word)
    requires TaskOk(t, bits) && IN_USE !in t.item
    ensures t.phase == Idle
  {
    if t.phase == Woken {
      ToldSays(t.seen);
    } else if t.phase != Idle {
      EncodeSays(t.request, bits);
    }
  }

  lemma ReprioritisedKeepsInv(s: State, t: nat, value: Word)
    requires Inv(s) && t in s.tasks && IN_USE !in value
    ensures Inv(Reprioritised(s, t, value))
  {
    if IN_USE !in s.tasks[t].item {
      PriorityIsKeptOff(s.tasks[t], s.bits);
      UpdateKeepsInv(s, t, s.tasks[t].(item := value));
    }
  }

  lemma StepKeepsInv(s: State, e: Event)
    requires Inv(s)
    ensures Inv(Step(s, e))
  {
    if Enabled(s, e) {
      match e {
        case Create(t, value) => UpdateKeepsInv(s, t, Task(Idle, value, Request({}, false, false), {}, {}));
        case Set(mask) => SetKeepsInv(s, mask);
        case Clear(mask) => ClearedKeepsInv(s, mask);
        case Wait(t, r, block) => WaitKeepsInv(s, t, r, block);
        case Sync(t, mask, bits, block) => SyncKeepsInv(s, t, mask, bits, block);
        case Expire(t) => TimedOutKeepsInv(s, t);
        case Return(t, value) => ReturnedKeepsInv(s, t, value);
        case Reprioritise(t, value) => ReprioritisedKeepsInv(s, t, value);
      }
    }
  }

  lemma {:induction false} ExecKeepsInv(s: State, es: seq<Event>)
    requires Inv(s)
    ensures Inv(Exec(s, es))
    decreases |es|
  {
    if es != [] {
      StepKeepsInv(s, es[0]);
      ExecKeepsInv(Step(s, es[0]), es[1..]);
    }
  }

  // ---------------------------------------------------------------- main theorems

  /** Over every run: nobody on the waiting list has what it waits for, and everybody who is waiting is on it. */
  lemma NobodyWaitsInVain(es: seq<Event>, t: nat)
    ensures var s := Exec(INIT, es);
            && (t in s.waiting <==> t in s.tasks && s.tasks[t].phase == Waiting)
            && (t in s.waiting ==> !Satisfied(s.bits, s.tasks[t].request))
  {
    ExecKeepsInv(INIT, es);
  }

  /** A set wakes exactly the waiting tasks whose condition the bits with `mask` satisfy, all of them tested
      against the same bits; each is told those bits. The others go on waiting in the same order. */
  lemma SetWakesExactly(s: State, mask: Word, t: nat)
    requires Inv(s) && Plain(mask) && t in s.tasks
    ensures var s' := AfterSet(s, mask);
            var v := s.bits + mask;
            var wakes := s.tasks[t].phase == Waiting && Satisfied(v, s.tasks[t].request);
            && s'.tasks[t] == (if wakes then WakeOne(s.tasks[t], v) else s.tasks[t])
            && (t in s'.waiting <==> t in s.waiting && !wakes)
  {
    var v := s.bits + mask;
    assert TaskOk(s.tasks[t], s.bits);
    KeptMembers(s.waiting, s.tasks, v);
    if s.tasks[t].phase == Waiting {
      EncodeSays(s.tasks[t].request, v);
    }
  }

  /** Somebody in `w` is satisfied by `bits` and wants bit `b` cleared. */
  ghost predicate WantsCleared(w: seq<nat>, tasks: map<nat, Task>, bits: Word, b: nat) {
    exists t :: t in w && t in tasks && Satisfied(bits, tasks[t].request) && tasks[t].request.clear && b in tasks[t].request.bits
  }

  lemma {:induction false} ToClearIs(w: seq<nat>, tasks: map<nat, Task>, bits: Word, b: nat)
    requires forall t | t in w :: t in tasks && tasks[t].item == Encode(tasks[t].request) && Plain(tasks[t].request.bits)
    ensures b in ToClear(w, tasks, bits) <==> WantsCleared(w, tasks, bits, b)
    decreases |w|
  {
    if w != [] {
      var front, last := w[..|w| - 1], w[|w| - 1];
      assert w == front + [last];
      assert last in w;
      ToClearIs(front, tasks, bits, b);
      EncodeSays(tasks[last].request, bits);
    }
  }

  /** After a set, a bit is set exactly if it was, or was in `mask`, and no task woken by the set asked for it
      to be cleared. */
  lemma SetClearsExactly(s: State, mask: Word, b: nat)
    requires Inv(s) && Plain(mask)
    ensures b in AfterSet(s, mask).bits <==>
            b in s.bits + mask && !WantsCleared(s.waiting, s.tasks, s.bits + mask, b)
  {
    forall t | t in s.waiting
      ensures t in s.tasks && s.tasks[t].item == Encode(s.tasks[t].request) && Plain(s.tasks[t].request.bits)
    {
      assert TaskOk(s.tasks[t], s.bits);
    }
    ToClearIs(s.waiting, s.tasks, s.bits + mask, b);
  }

  ghost predicate Precedes(w: seq<nat>, t: nat, u: nat) {
    exists i, j :: 0 <= i < j < |w| && w[i] == t && w[j] == u
  }

  /** Those who go on waiting keep their order. */
  lemma {:induction false} KeptKeepsOrder(w: seq<nat>, tasks: map<nat, Task>, bits: Word, a: nat, b: nat)
    requires a < b < |Kept(w, tasks, bits)|
    ensures Kept(w, tasks, bits)[a] in w && Precedes(w, Kept(w, tasks, bits)[a], Kept(w, tasks, bits)[b])
    decreases |w|
  {
    var front, last := w[..|w| - 1], w[|w| - 1];
    var k := Kept(front, tasks, bits);
    assert w == front + [last];
    if b < |k| {
      KeptKeepsOrder(front, tasks, bits, a, b);
      var i, j :| 0 <= i < j < |front| && front[i] == k[a] && front[j] == k[b];
      assert w[i] == k[a] && w[j] == k[b];
    } else {
      KeptIsPart(front, tasks, bits, a);
      var i :| 0 <= i < |front| && front[i] == k[a];
      assert w[i] == k[a] && w[|w| - 1] == last;
    }
  }

  lemma {:induction false} KeptIsPart(w: seq<nat>, tasks: map<nat, Task>, bits: Word, a: nat)
    requires a < |Kept(w, tasks, bits)|
    ensures Kept(w, tasks, bits)[a] in w
    decreases |w|
  {
    var front := w[..|w| - 1];
    if a < |Kept(front, tasks, bits)| {
      KeptIsPart(front, tasks, bits, a);
    }
  }

  /** The last to arrive completes a rendezvous: it returns at once, every task that is waiting in the same
      rendezvous is woken and will be told the same bits, and none of the bits stays set. */
  lemma Rendezvous(s: State, t: nat, mask: Word, bits: Word, block: bool, u: nat)
    requires Inv(s) && Enabled(s, Sync(t, mask, bits, block)) && bits <= s.bits + mask
    ensures var s' := Step(s, Sync(t, mask, bits, block));
            && s'.tasks[t].phase == Idle && s'.tasks[t].result == s.bits + mask && s'.bits !! bits
            && (u in s.waiting && s.tasks[u].request == Request(bits, true, true) ==> WokenWith(s', u, s.bits + mask))
  {
    assert s.tasks[t].phase == Idle;
    if u in s.waiting && s.tasks[u].request == Request(bits, true, true) {
      SettingWakes(s, Sync(t, mask, bits, block), u);
    }
  }

  /** `t` has been woken with `bits` and has not run since. */
  predicate WokenWith(s: State, t: nat, bits: Word) {
    t in s.tasks && s.tasks[t].phase == Woken && s.tasks[t].seen == bits
  }

  lemma StepLeavesWoken(s: State, e: Event, t: nat, bits: Word)
    requires Inv(s) && WokenWith(s, t, bits) && !(e.Return? && e.t == t)
    ensures WokenWith(Step(s, e), t, bits)
  {
    assert TaskOk(s.tasks[t], s.bits);
    assert t !in s.waiting;
  }

  lemma {:induction false} RunLeavesWoken(s: State, es: seq<Event>, t: nat, bits: Word)
    requires Inv(s) && WokenWith(s, t, bits) && (forall k | 0 <= k < |es| :: !(es[k].Return? && es[k].t == t))
    ensures WokenWith(Exec(s, es), t, bits)
    decreases |es|
  {
    if es != [] {
      StepKeepsInv(s, es[0]);
      StepLeavesWoken(s, es[0], t, bits);
      RunLeavesWoken(Step(s, es[0]), es[1..], t, bits);
    }
  }

  lemma ReturnTellsSeen(s: State, t: nat, bits: Word, value: Word)
    requires Inv(s) && WokenWith(s, t, bits) && IN_USE !in value
    ensures var s' := Step(s, Return(t, value)); s'.tasks[t].result == bits && s'.bits == s.bits
  {
    assert TaskOk(s.tasks[t], s.bits);
    ToldSays(bits);
  }

  /** A set, alone or as the first part of a rendezvous, wakes a task that it satisfies. */
  lemma SettingWakes(s: State, e: Event, t: nat)
    requires Inv(s) && (e.Set? || e.Sync?) && Enabled(s, e) && t in s.waiting && Satisfied(s.bits + e.mask, s.tasks[t].request)
    ensures WokenWith(Step(s, e), t, s.bits + e.mask)
  {
    SetWakesExactly(s, e.mask, t);
    assert e.Sync? ==> s.tasks[e.t].phase == Idle;
  }

  /** Whatever sets, clears, rendezvous and priority changes come between the set that wakes a task and the
      moment the task runs, its call returns the bits as they were when it was woken, which satisfy it. */
  lemma Snapshot(s: State, e: Event, es: seq<Event>, t: nat, value: Word)
    requires Inv(s) && (e.Set? || e.Sync?) && Enabled(s, e) && IN_USE !in value
    requires t in s.waiting && Satisfied(s.bits + e.mask, s.tasks[t].request)
    requires forall k | 0 <= k < |es| :: !(es[k].Return? && es[k].t == t)
    ensures var s1 := Exec(Step(s, e), es);
            var s2 := Step(s1, Return(t, value));
            t in s2.tasks && s2.tasks[t].result == s.bits + e.mask && s2.bits == s1.bits
  {
    SettingWakes(s, e, t);
    StepKeepsInv(s, e);
    RunLeavesWoken(Step(s, e), es, t, s.bits + e.mask);
    ExecKeepsInv(Step(s, e), es);
    ReturnTellsSeen(Exec(Step(s, e), es), t, s.bits + e.mask, value);
  }

  /** A task that timed out is told the bits as they are when it runs; if they satisfy it by then, it clears
      them as it would have. */
  lemma ExpiredLooksAgain(s: State, t: nat, value: Word)
    requires Inv(s) && t in s.tasks && s.tasks[t].phase == Expired && IN_USE !in value
    ensures var s' := Step(s, Return(t, value));
            var r := s.tasks[t].request;
            && s'.tasks[t].result == s.bits
            && s'.bits == (if Satisfied(s.bits, r) && r.clear then s.bits - r.bits else s.bits)
  {
    assert TaskOk(s.tasks[t], s.bits);
    EncodeSays(s.tasks[t].request, s.bits);
    PlainBits(s.bits, {});
  }

  // ---------------------------------------------------------------- a call from end to end

  /** The bits against which a call that may block is tested, and what it asks for. */
  function TestedBits(s: State, e: Event): Word
    requires e.Wait? || e.Sync?
  {
    if e.Sync? then s.bits + e.mask else s.bits
  }

  function AskedFor(e: Event): Request
    requires e.Wait? || e.Sync?
  {
    if e.Sync? then Request(e.bits, true, true) else e.request
  }

  /** Nothing but `t` is changed by its own call. */
  ghost predicate OthersSame(s: State, s': State, t: nat) {
    s'.tasks.Keys == s.tasks.Keys && forall u | u in s.tasks && u != t :: s'.tasks[u] == s.tasks[u]
  }

  /** A wait that is satisfied returns the bits as they were and clears its own bits exactly if it asked for that; one
      that is not, and may not block, returns the bits; a blocked one is listed with what it asked for. */
  lemma WaitHasEffect(s: State, t: nat, r: Request, block: bool)
    requires Inv(s) && Enabled(s, Wait(t, r, block))
    ensures var s', met := Step(s, Wait(t, r, block)), if r.all then r.bits <= s.bits else s.bits * r.bits != {};
            && OthersSame(s, s', t)
            && s'.bits == (if met && r.clear then s.bits - r.bits else s.bits)
            && s'.waiting == (if !met && block then s.waiting + [t] else s.waiting)
            && (if !met && block then s'.tasks[t].phase == Waiting && s'.tasks[t].request == r && !Satisfied(s'.bits, r)
                else s'.tasks[t] == s.tasks[t].(result := s.bits))
  {
  }

  /** A rendezvous that is not complete with the bits of the caller does the set, and then blocks with what it asked for,
      or returns the bits that are left. */
  lemma IncompleteSyncHasEffect(s: State, t: nat, mask: Word, bits: Word, block: bool)
    requires Inv(s) && Enabled(s, Sync(t, mask, bits, block)) && !(bits <= s.bits + mask)
    ensures var s', a := Step(s, Sync(t, mask, bits, block)), Step(s, Set(mask));
            && OthersSame(a, s', t) && s'.bits == a.bits
            && s'.waiting == (if block then a.waiting + [t] else a.waiting)
            && (if block then s'.tasks[t].phase == Waiting && s'.tasks[t].request == Request(bits, true, true)
                else s'.tasks[t] == s.tasks[t].(result := a.bits))
  {
    SetWakesExactly(s, mask, t);
  }

  lemma ClearHasEffect(s: State, mask: Word)
    requires Plain(mask)
    ensures var s' := Step(s, Clear(mask));
            s'.tasks == s.tasks && s'.waiting == s.waiting && (forall b :: b in s'.bits <==> b in s.bits && b !in mask)
  {
  }

  /** The end of the block time takes the task, and only it, off the list. */
  lemma ExpireHasEffect(s: State, t: nat)
    requires Inv(s) && Enabled(s, Expire(t))
    ensures var s' := Step(s, Expire(t));
            && OthersSame(s, s', t) && s'.bits == s.bits && s'.tasks[t] == s.tasks[t].(phase := Expired)
            && (forall u :: u in s'.waiting <==> u in s.waiting && u != t)
  {
    WithoutMembers(s.waiting, t);
  }

  /** `t` is in a blocking call that asked for `r`, and has not returned from it. */
  predicate InCall(s: State, t: nat, r: Request) {
    t in s.tasks && s.tasks[t].phase != Idle && s.tasks[t].request == r
  }

  lemma CallBegins(s: State, e: Event)
    requires Inv(s) && (e.Wait? || e.Sync?) && Enabled(s, e) && e.block && !Satisfied(TestedBits(s, e), AskedFor(e))
    ensures InCall(Step(s, e), e.t, AskedFor(e)) && Step(s, e).tasks[e.t].phase == Waiting
  {
    if e.Sync? {
      IncompleteSyncHasEffect(s, e.t, e.mask, e.bits, true);
    }
  }

  lemma StepKeepsCall(s: State, e: Event, t: nat, r: Request)
    requires Inv(s) && InCall(s, t, r) && !(e.Return? && e.t == t)
    ensures InCall(Step(s, e), t, r)
  {
    if e.Sync? && Enabled(s, e) {
      SetWakesExactly(s, e.mask, t);
    }
  }

  /** No call of `t` returns. */
  predicate NoReturnOf(es: seq<Event>, t: nat) {
    forall k | 0 <= k < |es| :: !(es[k].Return? && es[k].t == t)
  }

  lemma {:induction false} RunKeepsCall(s: State, es: seq<Event>, t: nat, r: Request)
    requires Inv(s) && InCall(s, t, r) && NoReturnOf(es, t)
    ensures InCall(Exec(s, es), t, r)
    decreases |es|
  {
    if es != [] {
      StepKeepsInv(s, es[0]);
      StepKeepsCall(s, es[0], t, r);
      RunKeepsCall(Step(s, es[0]), es[1..], t, r);
    }
  }

  /** Some task on the list other than `t` is woken by `bits` and wants bit `b` cleared, or the setter itself does at the
      end of its rendezvous. */
  ghost predicate OthersClear(s: State, e: Event, t: nat, bits: Word, b: nat) {
    || (exists u :: u in s.waiting && u != t && u in s.tasks && Satisfied(bits, s.tasks[u].request)
                    && s.tasks[u].request.clear && b in s.tasks[u].request.bits)
    || (e.Sync? && e.bits <= bits && b in e.bits)
  }

  /** The rest of a rendezvous clears its own bits if it is complete. */
  lemma SettingClears(s: State, e: Event, b: nat)
    requires Inv(s) && (e.Set? || e.Sync?) && Enabled(s, e)
    ensures b in Step(s, e).bits <==>
            && b in s.bits + e.mask && !WantsCleared(s.waiting, s.tasks, s.bits + e.mask, b)
            && !(e.Sync? && e.bits <= s.bits + e.mask && b in e.bits)
  {
    SetClearsExactly(s, e.mask, b);
  }

  lemma SettingLeaves(s: State, e: Event, t: nat)
    requires Inv(s) && (e.Set? || e.Sync?) && Enabled(s, e) && t in s.waiting && !Satisfied(s.bits + e.mask, s.tasks[t].request)
    ensures t in Step(s, e).waiting && Step(s, e).tasks[t] == s.tasks[t]
  {
    SetWakesExactly(s, e.mask, t);
    assert e.Sync? ==> s.tasks[e.t].phase == Idle;
  }

  /** In every run: `t` makes a call that blocks, and after any events in which it does not return comes a set, alone or
      as the first part of a rendezvous. If `t` is still waiting then, the set wakes it exactly if the bits satisfy what
      the call asked for, and a bit is left set exactly if it was set, the call did not ask for it to be cleared or is not
      satisfied, and nobody else wants it cleared. */
  lemma CallIsServed(before: seq<Event>, ask: Event, es: seq<Event>, e: Event)
    requires (ask.Wait? || ask.Sync?) && Enabled(Exec(INIT, before), ask) && ask.block
    requires !Satisfied(TestedBits(Exec(INIT, before), ask), AskedFor(ask)) && NoReturnOf(es, ask.t)
    ensures var s := Exec(Step(Exec(INIT, before), ask), es);
            var t, r := ask.t, AskedFor(ask);
            (e.Set? || e.Sync?) && Enabled(s, e) && t in s.waiting ==>
              var s', v := Step(s, e), s.bits + e.mask;
              && (Satisfied(v, r) ==> WokenWith(s', t, v) && t !in s'.waiting)
              && (!Satisfied(v, r) ==> t in s'.waiting && t in s.tasks && t in s'.tasks && s'.tasks[t] == s.tasks[t])
              && forall b :: b in s'.bits <==>
                             b in v && !(Satisfied(v, r) && r.clear && b in r.bits) && !OthersClear(s, e, t, v, b)
  {
    ExecKeepsInv(INIT, before);
    var s0 := Exec(INIT, before);
    CallBegins(s0, ask);
    StepKeepsInv(s0, ask);
    RunKeepsCall(Step(s0, ask), es, ask.t, AskedFor(ask));
    ExecKeepsInv(Step(s0, ask), es);
    var s := Exec(Step(s0, ask), es);
    if (e.Set? || e.Sync?) && Enabled(s, e) && ask.t in s.waiting {
      ListedIsServed(s, e, ask.t, AskedFor(ask));
    }
  }

  lemma ListedIsServed(s: State, e: Event, t: nat, r: Request)
    requires Inv(s) && (e.Set? || e.Sync?) && Enabled(s, e) && t in s.waiting && InCall(s, t, r)
    ensures var s', v := Step(s, e), s.bits + e.mask;
            && (Satisfied(v, r) ==> WokenWith(s', t, v) && t !in s'.waiting)
            && (!Satisfied(v, r) ==> t in s'.waiting && t in s.tasks && t in s'.tasks && s'.tasks[t] == s.tasks[t])
            && forall b :: b in s'.bits <==>
                           b in v && !(Satisfied(v, r) && r.clear && b in r.bits) && !OthersClear(s, e, t, v, b)
  {
    StepKeepsInv(s, e);
    if Satisfied(s.bits + e.mask, r) {
      SettingWakes(s, e, t);
    } else {
      SettingLeaves(s, e, t);
    }
    forall b
      ensures b in Step(s, e).bits <==>
              && b in s.bits + e.mask && !(Satisfied(s.bits + e.mask, r) && r.clear && b in r.bits)
              && !OthersClear(s, e, t, s.bits + e.mask, b)
    {
      SettingClears(s, e, b);
    }
  }

  /** What the return from a call that asked for `r` is to do in state `s`. */
  ghost predicate ReturnsAsAsked(s: State, s': State, t: nat, r: Request)
    requires t in s.tasks
  {
    && OthersSame(s, s', t)
    && (s.tasks[t].phase != Waiting ==> s'.tasks[t].phase == Idle && s'.waiting == s.waiting)
    && (s.tasks[t].phase == Woken ==> Satisfied(s'.tasks[t].result, r) && s'.bits == s.bits)
    && (s.tasks[t].phase == Expired ==>
          s'.tasks[t].result == s.bits && s'.bits == if Satisfied(s.bits, r) && r.clear then s.bits - r.bits else s.bits)
  }

  lemma ReturnIsAsAsked(s: State, t: nat, r: Request, value: Word)
    requires Inv(s) && InCall(s, t, r) && IN_USE !in value
    ensures ReturnsAsAsked(s, Step(s, Return(t, value)), t, r)
  {
    assert TaskOk(s.tasks[t], s.bits);
    if s.tasks[t].phase == Woken {
      ReturnTellsSeen(s, t, s.tasks[t].seen, value);
    } else if s.tasks[t].phase == Expired {
      ExpiredLooksAgain(s, t, value);
    }
  }

  /** In every run: what the call of `t` returns. Woken, it returns bits that satisfy what it asked for, and clears none.
      Timed out, it returns the bits as they are, and clears its own exactly if they satisfy it by then and it asked for that. */
  lemma CallReturns(before: seq<Event>, ask: Event, es: seq<Event>, value: Word)
    requires (ask.Wait? || ask.Sync?) && Enabled(Exec(INIT, before), ask) && ask.block && IN_USE !in value
    requires !Satisfied(TestedBits(Exec(INIT, before), ask), AskedFor(ask)) && NoReturnOf(es, ask.t)
    ensures var s := Exec(Step(Exec(INIT, before), ask), es);
            && ask.t in s.tasks && s.tasks[ask.t].phase != Idle
            && ReturnsAsAsked(s, Step(s, Return(ask.t, value)), ask.t, AskedFor(ask))
  {
    ExecKeepsInv(INIT, before);
    var s0 := Exec(INIT, before);
    CallBegins(s0, ask);
    StepKeepsInv(s0, ask);
    RunKeepsCall(Step(s0, ask), es, ask.t, AskedFor(ask));
    ExecKeepsInv(Step(s0, ask), es);
    ReturnIsAsAsked(Exec(Step(s0, ask), es), ask.t, AskedFor(ask), value);
  }

  // ---------------------------------------------------------------- as it runs

  class EventGroup {
    var bits: Word
    var waiting: seq<nat>
    var tasks: map<nat, Task>

    ghost function View(): State
      reads this
    {
      State(bits, waiting, tasks)
    }

    constructor ()
      ensures View() == INIT
    {
      bits, waiting, tasks := {}, [], map[];
    }

    /** The body of the walk, at the item of `t`; says whether the item was removed. */
    method TestWaiter(at: nat, toClear: Word) returns (removed: bool, toClear': Word)
      requires at < |waiting| && waiting[at] in tasks
      modifies this`waiting, this`tasks
      ensures removed == Match(old(tasks)[old(waiting)[at]].item, bits)
      ensures removed ==> waiting == old(waiting)[..at] + old(waiting)[at + 1..]
      ensures removed ==> tasks == old(tasks)[old(waiting)[at] := WakeOne(old(tasks)[old(waiting)[at]], bits)]
      ensures !removed ==> waiting == old(waiting) && tasks == old(tasks)
      ensures toClear' == if removed && ClearsOnExit(old(tasks)[old(waiting)[at]].item)
                          then toClear + Bits(old(tasks)[old(waiting)[at]].item) else toClear
    {
      var t := waiting[at];
      removed, toClear' := Match(tasks[t].item, bits), toClear;
      if removed {
        if ClearsOnExit(tasks[t].item) {
          toClear' := toClear + Bits(tasks[t].item);
        }
        tasks := tasks[t := WakeOne(tasks[t], bits)];
        waiting := waiting[..at] + waiting[at + 1..];
      }
    }

    /** The walk of xEventGroupSetBits along the waiting list, which removes items as it goes. */
    method SetBits(mask: Word) returns (r: Word)
      requires Listed(waiting, tasks)
      modifies this
      ensures View() == AfterSet(old(View()), mask) && r == bits
    {
      ghost var w, was := waiting, tasks;
      bits := bits + mask;
      var toClear: Word := {};
      var at := 0;
      ghost var done := 0;
      WalkStarts(w, was, bits);
      while at < |waiting|
        invariant bits == old(bits) + mask && Walked(w, was, bits, done, waiting, tasks, toClear, at)
        decreases |w| - done
      {
        WalkStep(w, was, bits, done, waiting, tasks, toClear, at);
        var removed;
        removed, toClear := TestWaiter(at, toClear);
        if !removed {
          at := at + 1;
        }
        done := done + 1;
      }
      WalkEnds(w, was, bits, done, waiting, tasks, toClear, at);
      bits := bits - toClear;
      r := bits;
    }
  }

  /** The walk has dealt with the first `done` items of the list `w`, and is at the one after them. */
  ghost predicate Walked(w: seq<nat>, was: map<nat, Task>, bits: Word, done: nat, waiting: seq<nat>, tasks: map<nat, Task>,
                         toClear: Word, at: nat) {
    && Listed(w, was) && done <= |w|
    && at == |Kept(w[..done], was, bits)| && waiting == Kept(w[..done], was, bits) + w[done..]
    && tasks == Woke(was, w[..done], bits) && toClear == ToClear(w[..done], was, bits)
  }

  lemma WalkStarts(w: seq<nat>, was: map<nat, Task>, bits: Word)
    requires Listed(w, was)
    ensures Walked(w, was, bits, 0, w, was, {}, 0)
  {
    assert w[..0] == [];
  }

  lemma WalkEnds(w: seq<nat>, was: map<nat, Task>, bits: Word, done: nat, waiting: seq<nat>, tasks: map<nat, Task>,
                 toClear: Word, at: nat)
    requires Walked(w, was, bits, done, waiting, tasks, toClear, at) && at >= |waiting|
    ensures waiting == Kept(w, was, bits) && tasks == Woke(was, w, bits) && toClear == ToClear(w, was, bits)
  {
    assert w[..done] == w;
  }

  lemma WalkStep(w: seq<nat>, was: map<nat, Task>, bits: Word, done: nat, waiting: seq<nat>, tasks: map<nat, Task>,
                 toClear: Word, at: nat)
    requires Walked(w, was, bits, done, waiting, tasks, toClear, at) && at < |waiting|
    ensures done < |w| && waiting[at] in tasks
    ensures var t := waiting[at];
            var clear := if ClearsOnExit(tasks[t].item) then toClear + Bits(tasks[t].item) else toClear;
            if Match(tasks[t].item, bits) then
              Walked(w, was, bits, done + 1, waiting[..at] + waiting[at + 1..], tasks[t := WakeOne(tasks[t], bits)], clear, at)
            else Walked(w, was, bits, done + 1, waiting, tasks, toClear, at + 1)
  {
    WalkOn(w, was, bits, done);
    CutAt(Kept(w[..done], was, bits), w, done);
  }

  lemma CutAt(a: seq<nat>, w: seq<nat>, k: nat)
    requires k < |w|
    ensures var s := a + w[k..];
            s[|a|] == w[k] && s[..|a|] + s[|a| + 1..] == a + w[k + 1..] && s == a + [w[k]] + w[k + 1..]
  {
  }

  /** One more step along the list. */
  lemma WalkOn(w: seq<nat>, tasks: map<nat, Task>, bits: Word, k: nat)
    requires Listed(w, tasks) && k < |w|
    ensures w[k] in tasks && Woke(tasks, w[..k], bits)[w[k]] == tasks[w[k]]
    ensures Kept(w[..k + 1], tasks, bits) == Kept(w[..k], tasks, bits) + (if Match(tasks[w[k]].item, bits) then [] else [w[k]])
    ensures ToClear(w[..k + 1], tasks, bits) ==
            (if Match(tasks[w[k]].item, bits) && ClearsOnExit(tasks[w[k]].item) then ToClear(w[..k], tasks, bits) + Bits(tasks[w[k]].item)
             else ToClear(w[..k], tasks, bits))
    ensures Woke(tasks, w[..k + 1], bits) ==
            (if Match(tasks[w[k]].item, bits) then Woke(tasks, w[..k], bits)[w[k] := WakeOne(tasks[w[k]], bits)]
             else Woke(tasks, w[..k], bits))
  {
    assert w[k] in w;
    assert w[..k + 1][..k] == w[..k];
    assert w[..k + 1] == w[..k] + [w[k]];
    assert w[k] !in w[..k];
  }
}
