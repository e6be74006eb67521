/** What each event of the queue protocol does to the messages and to the calls, said without the steps. */
module QueueEffects {
  import opened Clock
  import Lists
  import opened QueueProtocol

  /** A send of `item` may be carried out now. */
  predicate MaySend<T>(s: State<T>, position: Position) {
    |s.contents| < s.length || position == Overwrite
  }

  /** An item has been sent: to the back it comes after everything, to the front before everything, and an overwrite,
      which is for a queue of one item, leaves nothing else. */
  ghost predicate Sent<T>(s: State<T>, s': State<T>, item: T, position: Position) {
    && s'.sent == s.sent + [item] && s'.received == s.received
    && (position == Back ==> s'.contents == s.contents + [item])
    && (position == Front ==> s'.contents == [item] + s.contents)
    && (position == Overwrite ==> s'.contents == [item])
  }

  ghost predicate Received<T>(s: State<T>, s': State<T>) {
    s.contents != [] && s'.received == s.received + [s.contents[0]] && s'.contents == s.contents[1..] && s'.sent == s.sent
  }

  ghost predicate NoMessageMoves<T>(s: State<T>, s': State<T>) {
    s'.contents == s.contents && s'.sent == s.sent && s'.received == s.received
  }

  ghost predicate SameCalls<T>(s: State<T>, s': State<T>) {
    s'.calls == s.calls && s'.failures == s.failures
  }

  /** The call of `t` returns, with success. */
  ghost predicate Succeeds<T>(s: State<T>, s': State<T>, t: nat) {
    s'.calls == s.calls - {t} && s'.failures == s.failures
  }

  ghost predicate Fails<T>(s: State<T>, s': State<T>, t: nat)
    requires t in s.calls
  {
    var c := s.calls[t];
    s'.calls == s.calls - {t} && s'.failures == s.failures + [Failure(t, c.wait, c.start, s.now, c.excused)]
  }

  predicate MayProceed<T>(s: State<T>, op: Op<T>) {
    match op
    case Send(_, position) => MaySend(s, position)
    case Receive => s.contents != []
    case Peek => s.contents != []
  }

  /** The effect of a call on the messages: a peek moves none. */
  ghost predicate Done<T>(s: State<T>, s': State<T>, op: Op<T>) {
    match op
    case Send(item, position) => Sent(s, s', item, position)
    case Receive => Received(s, s')
    case Peek => NoMessageMoves(s, s')
  }

  lemma WakingMovesNothing<T>(s: State<T>)
    ensures NoMessageMoves(s, WakeReceiver(s)) && SameCalls(s, WakeReceiver(s))
    ensures NoMessageMoves(s, WakeSender(s)) && SameCalls(s, WakeSender(s))
  {
  }

  lemma PutHasEffect<T>(s: State<T>, item: T, position: Position)
    requires |s.contents| <= s.length && PositionOk(s, position) && HasRoom(s, position)
    ensures Sent(s, Put(s, item, position), item, position) && SameCalls(s, Put(s, item, position))
  {
    if position == Overwrite && s.contents != [] {
      assert s.contents[1..] == [];
    }
  }

  /** An interrupt that sends puts its item in if there is room, and one that receives takes the first item if there is
      one; locked or not. */
  lemma InterruptHasEffect<T>(s: State<T>, e: Event<T>)
    requires Inv(s) && Enabled(s, e) && (e.IsrSend? || e.IsrReceive?)
    ensures SameCalls(s, Step(s, e))
    ensures e.IsrSend? && MaySend(s, e.position) ==> Sent(s, Step(s, e), e.item, e.position)
    ensures e.IsrReceive? && s.contents != [] ==> Received(s, Step(s, e))
    ensures !(if e.IsrSend? then MaySend(s, e.position) else s.contents != []) ==> Step(s, e) == s
  {
    if e.IsrSend? && MaySend(s, e.position) {
      PutHasEffect(s, e.item, e.position);
      WakingMovesNothing(Put(s, e.item, e.position));
    } else if e.IsrReceive? && s.contents != [] {
      WakingMovesNothing(Take(s));
    }
  }

  lemma ProceedHasEffect<T>(s: State<T>, op: Op<T>)
    requires |s.contents| <= s.length && (op.Send? ==> PositionOk(s, op.position)) && CanProceed(s, op)
    ensures Done(s, Proceed(s, op), op) && SameCalls(s, Proceed(s, op))
  {
    match op {
      case Send(item, position) =>
        PutHasEffect(s, item, position);
        WakingMovesNothing(Put(s, item, position));
      case Receive => WakingMovesNothing(Take(s));
      case Peek => WakingMovesNothing(s);
    }
  }

  /** A call that tests the queue succeeds exactly if the queue has what it needs, does what it was asked for, and returns
      then; otherwise it fails if it may not wait, and goes on if it may. */
  lemma TestHasEffect<T>(s: State<T>, t: nat)
    requires Inv(s) && Enabled(s, Run(t)) && (s.calls[t].pc.Test? || s.calls[t].pc.Blocked?)
    ensures var s', c := Step(s, Run(t)), s.calls[t];
            if MayProceed(s, c.op) then Done(s, s', c.op) && Succeeds(s, s', t)
            else if c.ticks == 0 then NoMessageMoves(s, s') && Fails(s, s', t)
            else NoMessageMoves(s, s') && s'.failures == s.failures && s'.calls.Keys == s.calls.Keys
  {
    if MayProceed(s, s.calls[t].op) {
      ProceedHasEffect(Tested(s, t), s.calls[t].op);
    }
  }

  /** No other section of a call, and no other event, moves a message; and a call fails only with its time up. */
  lemma OthersMoveNothing<T>(s: State<T>, e: Event<T>)
    requires Enabled(s, e) && !e.IsrSend? && !e.IsrReceive? && (e.Run? ==> !s.calls[e.t].pc.Test? && !s.calls[e.t].pc.Blocked?)
    ensures NoMessageMoves(s, Step(s, e))
    ensures !e.Run? ==> Step(s, e).failures == s.failures
  {
    if e.Run? {
      RunKeepsData(s, e.t);
    }
  }

  // ---------------------------------------------------------------- who is woken

  /** The first `n` have left the list, or all of it if there are not so many. */
  ghost predicate FirstLeave(w: seq<Lists.Item>, w': seq<Lists.Item>, n: nat) {
    w' == if n <= |w| then w[n..] else []
  }

  ghost predicate NobodyIsWoken<T>(s: State<T>, s': State<T>) {
    s'.receivers == s.receivers && s'.senders == s.senders
  }

  /** An interrupt that moves a message wakes one task of the other side, or, if the queue is locked, counts one more to be
      woken. */
  lemma InterruptWakes<T>(s: State<T>, e: Event<T>)
    requires Enabled(s, e) && (e.IsrSend? || e.IsrReceive?) && Step(s, e) != s
    ensures var s' := Step(s, e);
            && (e.IsrSend? ==>
                  && s'.senders == s.senders && s'.rxLock == s.rxLock
                  && FirstLeave(s.receivers, s'.receivers, if s.txLock == UNLOCKED then 1 else 0)
                  && s'.txLock == if s.txLock == UNLOCKED then UNLOCKED else s.txLock + 1)
            && (e.IsrReceive? ==>
                  && s'.receivers == s.receivers && s'.txLock == s.txLock
                  && FirstLeave(s.senders, s'.senders, if s.rxLock == UNLOCKED then 1 else 0)
                  && s'.rxLock == if s.rxLock == UNLOCKED then UNLOCKED else s.rxLock + 1)
  {
  }

  /** A call that succeeds wakes one task: a send and a peek a receiver, a receive a sender. Otherwise its test wakes nobody. */
  lemma TestWakes<T>(s: State<T>, t: nat)
    requires Enabled(s, Run(t)) && (s.calls[t].pc.Test? || s.calls[t].pc.Blocked?)
    ensures var s', op := Step(s, Run(t)), s.calls[t].op;
            && s'.rxLock == s.rxLock && s'.txLock == s.txLock
            && FirstLeave(s.receivers, s'.receivers, if MayProceed(s, op) && !op.Receive? then 1 else 0)
            && FirstLeave(s.senders, s'.senders, if MayProceed(s, op) && op.Receive? then 1 else 0)
  {
  }

  /** Unlocking wakes on each side as many as have been counted, and ends the count. */
  lemma UnlockWakes<T>(s: State<T>, t: nat)
    requires Enabled(s, Run(t)) && (s.calls[t].pc.UnlockTx? || s.calls[t].pc.UnlockRx?)
    ensures var s' := Step(s, Run(t));
            && (s.calls[t].pc.UnlockTx? ==>
                  && FirstLeave(s.receivers, s'.receivers, Count(s.txLock)) && s'.txLock == UNLOCKED
                  && s'.senders == s.senders && s'.rxLock == s.rxLock)
            && (s.calls[t].pc.UnlockRx? ==>
                  && FirstLeave(s.senders, s'.senders, Count(s.rxLock)) && s'.rxLock == UNLOCKED
                  && s'.receivers == s.receivers && s'.txLock == s.txLock)
  {
  }

  /** No other section wakes anybody, except that a wait that is cut short ends for that one task. */
  lemma OthersWakeNobody<T>(s: State<T>, e: Event<T>)
    requires Inv(s) && Enabled(s, e) && !e.IsrSend? && !e.IsrReceive? && !e.Revalue?
    requires e.Run? ==> var pc := s.calls[e.t].pc; pc.Lock? || pc.CheckTime? || pc.CheckRoom? || pc.Resume? || pc.Recheck?
    ensures !e.Cut? && !e.Abort? ==> NobodyIsWoken(s, Step(s, e))
    ensures e.Cut? || e.Abort? ==>
              forall u :: (Lists.Has(Step(s, e).receivers, u) <==> Lists.Has(s.receivers, u) && u != e.t)
                          && (Lists.Has(Step(s, e).senders, u) <==> Lists.Has(s.senders, u) && u != e.t)
  {
    if e.Run? {
      OthersLeaveLists(s, e.t);
    } else if e.Cut? || e.Abort? {
      CutTakesOne(s, e.t);
    }
  }

  lemma CutTakesOne<T>(s: State<T>, t: nat)
    requires Inv(s) && (Lists.Has(s.receivers, t) || Lists.Has(s.senders, t))
    ensures forall u :: (Lists.Has(CutWait(s, t).receivers, u) <==> Lists.Has(s.receivers, u) && u != t)
                        && (Lists.Has(CutWait(s, t).senders, u) <==> Lists.Has(s.senders, u) && u != t)
  {
    assert Lists.Has(s.receivers, t) ==> Awaits(s.calls, false, t);
    assert Lists.Has(s.senders, t) ==> Awaits(s.calls, true, t);
    if Lists.Has(s.receivers, t) {
      Lists.RemoveKeepsMembers(s.receivers, t);
    } else {
      Lists.RemoveKeepsMembers(s.senders, t);
    }
  }

  // ---------------------------------------------------------------- first in, first out from any state on

  /** Whoever is sending, sends to the back. */
  ghost predicate AllToBack<T>(s: State<T>) {
    forall t | t in s.calls && s.calls[t].op.Send? :: s.calls[t].op.position == Back
  }

  /** Since `s`, what has been received, with what is still queued, is what was queued and then what was sent. */
  ghost predicate InTurn<T>(s: State<T>, s': State<T>) {
    && s.sent <= s'.sent && s.received <= s'.received
    && s'.received + s'.contents == s.received + s.contents + s'.sent[|s.sent|..]
  }

  lemma DoneInTurn<T>(s: State<T>, s': State<T>, op: Op<T>)
    requires Done(s, s', op) && (op.Send? ==> op.position == Back)
    ensures InTurn(s, s')
  {
    match op {
      case Send(item, _) =>
        assert s'.sent[|s.sent|..] == [item];
      case Receive =>
        assert [s.contents[0]] + s.contents[1..] == s.contents;
      case Peek =>
    }
  }

  lemma StepInTurn<T>(s: State<T>, e: Event<T>)
    requires Inv(s) && AllToBack(s) && SendsToBack(e)
    ensures AllToBack(Step(s, e)) && InTurn(s, Step(s, e))
  {
    if Enabled(s, e) {
      if e.IsrSend? || e.IsrReceive? {
        InterruptHasEffect(s, e);
        if Step(s, e) != s {
          DoneInTurn(s, Step(s, e), if e.IsrSend? then Send(e.item, Back) else Receive);
        }
      } else if e.Run? && (s.calls[e.t].pc.Test? || s.calls[e.t].pc.Blocked?) {
        TestHasEffect(s, e.t);
        TestKeepsOps(s, e.t);
        if MayProceed(s, s.calls[e.t].op) {
          DoneInTurn(s, Step(s, e), s.calls[e.t].op);
        }
      } else {
        OthersMoveNothing(s, e);
        OthersKeepOps(s, e);
      }
    }
  }

  lemma TestKeepsOps<T>(s: State<T>, t: nat)
    requires AllToBack(s) && t in s.calls
    ensures AllToBack(RunTest(s, t))
  {
    assert forall u | u in RunTest(s, t).calls :: u in s.calls && RunTest(s, t).calls[u].op == s.calls[u].op;
  }

  lemma OthersKeepOps<T>(s: State<T>, e: Event<T>)
    requires AllToBack(s) && SendsToBack(e) && Enabled(s, e) && !e.IsrSend? && !e.IsrReceive?
    requires e.Run? ==> !s.calls[e.t].pc.Test? && !s.calls[e.t].pc.Blocked?
    ensures AllToBack(Step(s, e))
  {
    if e.Run? {
      RunKeepsData(s, e.t);
    }
  }

  lemma TurnsAddUp<T>(a: State<T>, b: State<T>, c: State<T>)
    requires InTurn(a, b) && InTurn(b, c)
    ensures InTurn(a, c)
  {
    var x, y := b.sent[|a.sent|..], c.sent[|b.sent|..];
    assert c.sent[|a.sent|..] == x + y;
    assert c.received + c.contents == (a.received + a.contents + x) + y;
  }

  /** In every interleaving: from any state in which nobody is sending elsewhere, as long as everyone sends to the back,
      what was queued is received first and in order, and then what is sent. */
  lemma {:induction false} FifoFromHere<T>(s: State<T>, es: seq<Event<T>>)
    requires Inv(s) && AllToBack(s) && forall e | e in es :: SendsToBack(e)
    ensures InTurn(s, Exec(s, es))
    decreases |es|
  {
    if es != [] {
      assert es[0] in es;
      StepInTurn(s, es[0]);
      StepKeepsInv(s, es[0]);
      FifoFromHere(Step(s, es[0]), es[1..]);
      TurnsAddUp(s, Step(s, es[0]), Exec(s, es));
    }
  }

  /** The event is a successful send of `item` to the front, by a task or by an interrupt. */
  ghost predicate SendsToFront<T>(s: State<T>, e: Event<T>, item: T) {
    && Enabled(s, e) && MaySend(s, Front)
    && (e == IsrSend(item, Front) ||
        (e.Run? && (s.calls[e.t].pc.Test? || s.calls[e.t].pc.Blocked?) && s.calls[e.t].op == Send(item, Front)))
  }

  lemma FrontSent<T>(s: State<T>, e: Event<T>, item: T)
    requires Inv(s) && SendsToFront(s, e, item)
    ensures Sent(s, Step(s, e), item, Front)
  {
    if e.IsrSend? {
      InterruptHasEffect(s, e);
    } else {
      TestHasEffect(s, e.t);
    }
  }

  /** Whatever has been received since `s` starts with `queued`, as far as it goes. */
  ghost predicate ReceivedFirst<T>(s: State<T>, s': State<T>, queued: seq<T>) {
    && s.received <= s'.received
    && forall k | 0 <= k < |queued| && |s.received| + k < |s'.received| :: s'.received[|s.received| + k] == queued[k]
  }

  lemma QueuedFirst<T>(s: State<T>, s1: State<T>, s': State<T>, queued: seq<T>)
    requires s1.received == s.received && s1.contents == queued && InTurn(s1, s')
    ensures ReceivedFirst(s, s', queued)
  {
    var all := s1.received + s1.contents + s'.sent[|s1.sent|..];
    forall k | 0 <= k < |queued| && |s.received| + k < |s'.received|
      ensures s'.received[|s.received| + k] == queued[k]
    {
      assert s'.received[|s.received| + k] == (s'.received + s'.contents)[|s.received| + k] == all[|s.received| + k];
    }
  }

  lemma FrontFirst<T>(s: State<T>, e: Event<T>, item: T, es: seq<Event<T>>)
    requires Inv(s) && SendsToFront(s, e, item) && AllToBack(Step(s, e)) && forall f | f in es :: SendsToBack(f)
    ensures ReceivedFirst(s, Exec(Step(s, e), es), [item] + s.contents)
  {
    StepKeepsInv(s, e);
    FrontSent(s, e, item);
    FifoFromHere(Step(s, e), es);
    QueuedFirst(s, Step(s, e), Exec(Step(s, e), es), [item] + s.contents);
  }

  /** In every run: an item sent to the front is the next one received, and after it come the items that were there before,
      whatever is sent to the back meanwhile. */
  lemma FrontIsNext<T>(length: nat, now: nat, before: seq<Event<T>>, e: Event<T>, item: T, es: seq<Event<T>>)
    requires SendsToFront(Exec(Init(length, now), before), e, item)
    requires AllToBack(Step(Exec(Init(length, now), before), e)) && forall f | f in es :: SendsToBack(f)
    ensures var s := Exec(Init(length, now), before);
            ReceivedFirst(s, Exec(Step(s, e), es), [item] + s.contents)
  {
    ExecKeepsInv(Init(length, now), before);
    FrontFirst(Exec(Init(length, now), before), e, item, es);
  }

  // ---------------------------------------------------------------- a call from its start to its end

  /** The call of `t` is under way in all the states of a run. */
  ghost predicate Ongoing<T>(s: State<T>, es: seq<Event<T>>, t: nat)
    decreases |es|
  {
    t in s.calls && (es == [] || Ongoing(Step(s, es[0]), es[1..], t))
  }

  /** What `t` asked for, how long it may wait, and when it asked. */
  ghost predicate Asked<T>(s: State<T>, t: nat, op: Op<T>, wait: nat, start: nat) {
    t in s.calls && s.calls[t].op == op && s.calls[t].wait == wait && s.calls[t].start == start
  }

  lemma SectionRemembers<T>(s: State<T>, u: nat, t: nat, op: Op<T>, wait: nat, start: nat)
    requires u in s.calls && Asked(s, t, op, wait, start) && t in RunTask(s, u).calls
    ensures Asked(RunTask(s, u), t, op, wait, start)
  {
    var pc := s.calls[u].pc;
    if pc.Test? || pc.Blocked? {
      TestRemembers(s, u, t, op, wait, start);
    } else if pc.UnlockTx? || pc.UnlockRx? || pc.Place? {
      ListsRemember(s, u, t, op, wait, start);
    } else if pc.Resume? || pc.Recheck? {
      EndRemembers(s, u, t, op, wait, start);
    }
  }

  lemma ListsRemember<T>(s: State<T>, u: nat, t: nat, op: Op<T>, wait: nat, start: nat)
    requires u in s.calls && Asked(s, t, op, wait, start)
    requires var pc := s.calls[u].pc; pc.UnlockTx? || pc.UnlockRx? || pc.Place?
    ensures Asked(RunTask(s, u), t, op, wait, start)
  {
  }

  lemma EndRemembers<T>(s: State<T>, u: nat, t: nat, op: Op<T>, wait: nat, start: nat)
    requires u in s.calls && Asked(s, t, op, wait, start) && t in RunTask(s, u).calls
    requires var pc := s.calls[u].pc; pc.Resume? || pc.Recheck?
    ensures Asked(RunTask(s, u), t, op, wait, start)
  {
  }

  lemma TestRemembers<T>(s: State<T>, u: nat, t: nat, op: Op<T>, wait: nat, start: nat)
    requires u in s.calls && Asked(s, t, op, wait, start) && t in RunTest(s, u).calls
    ensures Asked(RunTest(s, u), t, op, wait, start)
  {
    if CanProceed(s, s.calls[u].op) {
      ProceedLeaves(Tested(s, u), s.calls[u].op);
    }
  }

  lemma StepRemembers<T>(s: State<T>, e: Event<T>, t: nat, op: Op<T>, wait: nat, start: nat)
    requires Asked(s, t, op, wait, start) && t in Step(s, e).calls
    ensures Asked(Step(s, e), t, op, wait, start)
  {
    if Enabled(s, e) {
      if e.Run? {
        SectionRemembers(s, e.t, t, op, wait, start);
      } else if e.IsrSend? || e.IsrReceive? {
        InterruptKeepsCalls(s, e);
      }
    }
  }

  lemma InterruptKeepsCalls<T>(s: State<T>, e: Event<T>)
    requires Enabled(s, e) && (e.IsrSend? || e.IsrReceive?)
    ensures Step(s, e).calls == s.calls
  {
  }

  lemma {:induction false} OngoingRemembers<T>(s: State<T>, es: seq<Event<T>>, t: nat, op: Op<T>, wait: nat, start: nat)
    requires Asked(s, t, op, wait, start) && Ongoing(s, es, t)
    ensures Asked(Exec(s, es), t, op, wait, start)
    decreases |es|
  {
    if es != [] {
      StepRemembers(s, es[0], t, op, wait, start);
      OngoingRemembers(Step(s, es[0]), es[1..], t, op, wait, start);
    }
  }

  /** The two ends that a call of `t`, made at `start`, can come to: it has done what was asked for, or it fails, and then
      it could not wait, its wait is over, or its last look at the time found an abort. */
  ghost predicate EndsWell<T>(s: State<T>, s': State<T>, t: nat, op: Op<T>) {
    MayProceed(s, op) && Done(s, s', op) && Succeeds(s, s', t)
  }

  ghost predicate EndsBadly<T>(s: State<T>, s': State<T>, t: nat, wait: nat, start: nat) {
    && NoMessageMoves(s, s') && s'.calls == s.calls - {t}
    && exists excused ::
         && s'.failures == s.failures + [Failure(t, wait, start, s.now, excused)]
         && (wait == 0 || excused || (wait < MAX_DELAY && start + wait <= s.now))
  }

  lemma SectionEnds<T>(s: State<T>, t: nat)
    requires Inv(s) && Enabled(s, Run(t)) && t !in Step(s, Run(t)).calls && !s.calls[t].pc.Test? && !s.calls[t].pc.Blocked?
    ensures NoMessageMoves(s, Step(s, Run(t))) && Fails(s, Step(s, Run(t)), t)
  {
    RunKeepsData(s, t);
  }

  lemma FailureIsDue<T>(s: State<T>, t: nat, s': State<T>)
    requires TimeInv(s') && t in s.calls && Fails(s, s', t)
    ensures var c := s.calls[t]; c.wait == 0 || c.excused || (c.wait < MAX_DELAY && c.start + c.wait <= s.now)
  {
    var f := s'.failures[|s.failures|];
    assert f in s'.failures;
  }

  /** Only a section of its own ends a call. */
  lemma OthersEndNothing<T>(s: State<T>, e: Event<T>, t: nat)
    requires t in s.calls && e != Run(t)
    ensures t in Step(s, e).calls
  {
    if Enabled(s, e) {
      if e.IsrSend? || e.IsrReceive? {
        InterruptKeepsCalls(s, e);
      } else if e.Run? {
        SectionKeepsOthers(s, e.t, t);
      }
    }
  }

  lemma SectionKeepsOthers<T>(s: State<T>, u: nat, t: nat)
    requires u in s.calls && t in s.calls && t != u
    ensures t in RunTask(s, u).calls
  {
    var pc := s.calls[u].pc;
    if (pc.Test? || pc.Blocked?) && CanProceed(s, s.calls[u].op) {
      ProceedLeaves(Tested(s, u), s.calls[u].op);
    }
  }

  /** In every interleaving: a call ends by a section of its own, and then it has done what was asked for, with nothing
      else, or it has moved no message and reports a failure that is due, by the wait that was asked for. */
  lemma CallEndsAsAsked<T>(length: nat, now: nat, before: seq<Event<T>>, t: nat, op: Op<T>, rank: nat, wait: nat,
                           es: seq<Event<T>>, e: Event<T>)
    requires Enabled(Exec(Init(length, now), before), Start(t, op, rank, wait))
    requires Ongoing(Step(Exec(Init(length, now), before), Start(t, op, rank, wait)), es, t)
    ensures var s0 := Exec(Init(length, now), before);
            var s := Exec(Step(s0, Start(t, op, rank, wait)), es);
            var s' := Step(s, e);
            && t in s.calls
            && (t !in s'.calls ==> e == Run(t) && (EndsWell(s, s', t, op) || EndsBadly(s, s', t, wait, s0.now)))
  {
    var s0 := Exec(Init(length, now), before);
    var s1 := Step(s0, Start(t, op, rank, wait));
    ExecKeepsInv(Init(length, now), before);
    StepKeepsInv(s0, Start(t, op, rank, wait));
    ExecKeepsInv(s1, es);
    ExecKeepsTime(Init<T>(length, now), before);
    StepKeepsTime(s0, Start(t, op, rank, wait));
    ExecKeepsTime(s1, es);
    OngoingRemembers(s1, es, t, op, wait, s0.now);
    EndIsAsAsked(Exec(s1, es), e, t, op, wait, s0.now);
  }

  lemma EndIsAsAsked<T>(s: State<T>, e: Event<T>, t: nat, op: Op<T>, wait: nat, start: nat)
    requires Inv(s) && TimeInv(s) && Asked(s, t, op, wait, start)
    ensures t !in Step(s, e).calls ==> e == Run(t) && (EndsWell(s, Step(s, e), t, op) || EndsBadly(s, Step(s, e), t, wait, start))
  {
    if e != Run(t) {
      OthersEndNothing(s, e, t);
    } else if t !in Step(s, e).calls {
      StepKeepsTime(s, e);
      if s.calls[t].pc.Test? || s.calls[t].pc.Blocked? {
        TestHasEffect(s, t);
      } else {
        SectionEnds(s, t);
      }
      if !EndsWell(s, Step(s, e), t, op) {
        FailureIsDue(s, t, Step(s, e));
      }
    }
  }

  /** A call that may not wait returns from its first section. */
  lemma NoWaitNoBlock<T>(s: State<T>, t: nat, op: Op<T>, rank: nat)
    requires Inv(s) && Enabled(s, Start(t, op, rank, 0))
    ensures t !in Step(Step(s, Start(t, op, rank, 0)), Run(t)).calls
  {
    StepKeepsInv(s, Start(t, op, rank, 0));
    TestHasEffect(Step(s, Start(t, op, rank, 0)), t);
  }

  // ---------------------------------------------------------------- no late timeout

  /** The next look of `t` at the time comes within a wrap of the last one. */
  predicate LooksInTime<T>(s: State<T>, e: Event<T>, t: nat) {
    e == Run(t) && t in s.calls && s.calls[t].pc.CheckTime? ==> s.now < s.calls[t].entered + 0x1_0000_0000
  }

  /** The call of `t` is under way, nobody aborts it, and it looks at the time at least once in a wrap. */
  ghost predicate Prompt<T>(s: State<T>, es: seq<Event<T>>, t: nat)
    decreases |es|
  {
    && t in s.calls
    && (es == [] || (es[0] != Abort(t) && LooksInTime(s, es[0], t) && Prompt(Step(s, es[0]), es[1..], t)))
  }

  /** The wait of `t` is over at `due`, and it knows that. */
  ghost predicate DueAt<T>(s: State<T>, t: nat, due: nat) {
    && t in s.calls && t !in s.aborted
    && var c := s.calls[t];
    && c.entrySet && c.ticks < MAX_DELAY
    && (if c.ticks == 0 then due <= s.now
        else c.entered + c.ticks == due && c.entered <= s.now && c.timeOut == StampOf(c.entered))
  }

  lemma LookKeepsDue<T>(s: State<T>, t: nat, due: nat)
    requires DueAt(s, t, due) && s.calls[t].pc.CheckTime? && s.calls[t].ticks > 0 && s.now < s.calls[t].entered + 0x1_0000_0000
    ensures DueAt(RunTask(s, t), t, due)
    ensures RunTask(s, t).calls[t].pc == if due <= s.now then UnlockTx(ToGiveUp) else CheckRoom
  {
    CheckIsExact(s.calls[t].entered, s.calls[t].ticks, s.now);
  }

  lemma OwnSectionKeepsDue<T>(s: State<T>, t: nat, due: nat)
    requires DueAt(s, t, due) && !s.calls[t].pc.CheckTime? && t in RunTask(s, t).calls
    ensures DueAt(RunTask(s, t), t, due)
  {
    var pc := s.calls[t].pc;
    if pc.Test? || pc.Blocked? {
      assert RunTask(s, t) == RunTest(s, t);
    } else if pc.UnlockTx? || pc.UnlockRx? || pc.Place? {
      ListSectionKeepsDue(s, t, due);
    }
  }

  lemma ListSectionKeepsDue<T>(s: State<T>, t: nat, due: nat)
    requires DueAt(s, t, due) && (s.calls[t].pc.UnlockTx? || s.calls[t].pc.UnlockRx? || s.calls[t].pc.Place?)
    ensures DueAt(RunTask(s, t), t, due)
  {
  }

  lemma OtherSectionKeepsCall<T>(s: State<T>, u: nat, t: nat)
    requires u in s.calls && t in s.calls && t != u
    ensures t in RunTask(s, u).calls && RunTask(s, u).calls[t] == s.calls[t] && RunTask(s, u).now == s.now
    ensures t in RunTask(s, u).aborted <==> t in s.aborted
  {
    var pc := s.calls[u].pc;
    if pc.Test? || pc.Blocked? {
      if CanProceed(s, s.calls[u].op) {
        ProceedLeaves(Tested(s, u), s.calls[u].op);
      }
    }
  }

  lemma StepKeepsDue<T>(s: State<T>, e: Event<T>, t: nat, due: nat)
    requires TimeInv(s) && DueAt(s, t, due) && t in Step(s, e).calls && e != Abort(t) && LooksInTime(s, e, t)
    ensures DueAt(Step(s, e), t, due)
  {
    if Enabled(s, e) {
      if e.IsrSend? || e.IsrReceive? {
        InterruptKeepsCalls(s, e);
      } else if e.Run? && e.t == t {
        if s.calls[t].pc.CheckTime? {
          assert CallTimely(s.calls[t], s.now);
          LookKeepsDue(s, t, due);
        } else {
          OwnSectionKeepsDue(s, t, due);
        }
      } else if e.Run? {
        OtherSectionKeepsCall(s, e.t, t);
      }
    }
  }

  lemma {:induction false} RunKeepsDue<T>(s: State<T>, es: seq<Event<T>>, t: nat, due: nat)
    requires TimeInv(s) && DueAt(s, t, due) && Prompt(s, es, t)
    ensures TimeInv(Exec(s, es)) && DueAt(Exec(s, es), t, due)
    decreases |es|
  {
    if es != [] {
      StepKeepsTime(s, es[0]);
      StepKeepsDue(s, es[0], t, due);
      RunKeepsDue(Step(s, es[0]), es[1..], t, due);
    }
  }

  /** In every run: a call that may wait, but not for ever, goes on from its first test at some instant. From then on, as
      long as it looks at the time once in a wrap and is not aborted, each look makes it give up exactly if the time it
      asked for has passed since that instant, however often it was woken for nothing. */
  lemma LooksAreExact<T>(length: nat, now: nat, before: seq<Event<T>>, t: nat, es: seq<Event<T>>)
    requires var s0 := Exec(Init(length, now), before);
             && Enabled(s0, Run(t)) && s0.calls[t].pc.Test? && !s0.calls[t].entrySet && t !in s0.aborted
             && !MayProceed(s0, s0.calls[t].op) && 0 < s0.calls[t].wait < MAX_DELAY
    requires Prompt(Step(Exec(Init(length, now), before), Run(t)), es, t)
    ensures var s0 := Exec(Init(length, now), before);
            var s := Exec(Step(s0, Run(t)), es);
            && t in s.calls
            && (Enabled(s, Run(t)) && s.calls[t].pc.CheckTime? && LooksInTime(s, Run(t), t) ==>
                  var s' := Step(s, Run(t));
                  t in s'.calls && s'.calls[t].pc == if s0.now + s0.calls[t].wait <= s.now then UnlockTx(ToGiveUp) else CheckRoom)
  {
    var s0 := Exec(Init(length, now), before);
    ExecKeepsTime(Init<T>(length, now), before);
    StepKeepsTime(s0, Run(t));
    assert CallTimely(s0.calls[t], s0.now);
    var due := s0.now + s0.calls[t].wait;
    GoingOnSetsDue(s0, t);
    RunKeepsDue(Step(s0, Run(t)), es, t, due);
    var s := Exec(Step(s0, Run(t)), es);
    if Enabled(s, Run(t)) && s.calls[t].pc.CheckTime? && LooksInTime(s, Run(t), t) {
      assert CallTimely(s.calls[t], s.now);
      LookKeepsDue(s, t, due);
    }
  }

  lemma GoingOnSetsDue<T>(s: State<T>, t: nat)
    requires Enabled(s, Run(t)) && s.calls[t].pc.Test? && !s.calls[t].entrySet && t !in s.aborted && CallTimely(s.calls[t], s.now)
    requires !MayProceed(s, s.calls[t].op) && 0 < s.calls[t].wait < MAX_DELAY
    ensures DueAt(Step(s, Run(t)), t, s.now + s.calls[t].wait)
  {
  }

  // ---------------------------------------------------------------- giving up

  /** The locked section of a call that gives up ends the call if it sends, and otherwise after one more look at the
      queue, at which it fails if that is empty and goes round once more if not. */
  lemma GivingUpEnds<T>(s: State<T>, t: nat)
    requires Inv(s) && Enabled(s, Run(t)) && s.calls[t].pc == Resume(ToGiveUp)
    ensures var s' := Step(s, Run(t));
            && s'.window.None?
            && (s.calls[t].op.Send? ==> Fails(s, s', t))
            && (!s.calls[t].op.Send? ==>
                  t in s'.calls && Enabled(s', Run(t)) &&
                  if s.contents == [] then Fails(s', Step(s', Run(t)), t)
                  else t in Step(s', Run(t)).calls && Step(s', Run(t)).calls[t].pc.Test?)
  {
  }
}
