/** Tick arithmetic of the kernel. `xTickCount` is 32 bits wide; every statement here is made against an
    unbounded clock `now` that counts processed ticks, of which the kernel only ever sees `TickOf(now)`
    and, through `xNumOfOverflows`, `Overflows(now)`. */
module Clock {

  const MAX_DELAY: nat := 0xFFFF_FFFF

  function TickOf(now: nat): (r: nat)
    ensures r <= MAX_DELAY
  {
    now % 0x1_0000_0000
  }

  /** The number of times the tick count has wrapped. */
  function EpochOf(now: nat): nat {
    now / 0x1_0000_0000
  }

  /** `xNumOfOverflows`, itself a 32-bit counter. */
  function Overflows(now: nat): nat {
    EpochOf(now) % 0x1_0000_0000
  }

  function TickAdd(a: nat, b: nat): (r: nat)
    ensures r <= MAX_DELAY
  {
    (a + b) % 0x1_0000_0000
  }

  function TickSub(a: nat, b: nat): (r: nat)
    ensures r <= MAX_DELAY
  {
    (a - b) % 0x1_0000_0000
  }

  /** How two instants less than one wrap apart compare once they are reduced to 32 bits. */
  lemma WithinOneWrap(a: nat, b: nat)
    requires a <= b < a + 0x1_0000_0000
    ensures EpochOf(b) == EpochOf(a) || EpochOf(b) == EpochOf(a) + 1
    ensures EpochOf(b) == EpochOf(a) <==> TickOf(a) <= TickOf(b)
    ensures TickSub(TickOf(b), TickOf(a)) == b - a
    ensures TickAdd(TickOf(a), b - a) == TickOf(b)
  {
  }

  // ---------------------------------------------------------------- block times

  datatype TimeOut = TimeOut(overflows: nat, entering: nat)

  datatype Check = Check(expired: bool, timeOut: TimeOut, ticks: nat)

  /** vTaskInternalSetTimeOutState */
  function StampOf(now: nat): TimeOut {
    TimeOut(Overflows(now), TickOf(now))
  }

  /** xTaskCheckForTimeOut; `aborted` is the flag that xTaskAbortDelay sets. */
  function CheckForTimeOut(t: TimeOut, ticks: nat, now: nat, aborted: bool): Check {
    var elapsed := TickSub(TickOf(now), t.entering);
    if aborted then
      Check(true, t, ticks)
    else if ticks == MAX_DELAY then
      Check(false, t, ticks)
    else if Overflows(now) != t.overflows && TickOf(now) >= t.entering then
      Check(true, t, 0)
    else if elapsed < ticks then
      Check(false, StampOf(now), ticks - elapsed)
    else
      Check(true, t, 0)
  }

  /** However long the caller was away, a timeout is never reported before the time asked for has passed unless
      the delay was aborted, and what is left to wait never brings the deadline forward. */
  lemma CheckIsNeverEarly(entered: nat, ticks: nat, now: nat, aborted: bool)
    requires entered <= now && ticks < MAX_DELAY
    ensures var c := CheckForTimeOut(StampOf(entered), ticks, now, aborted);
            if c.expired then aborted || (entered + ticks <= now && c.ticks == 0)
            else c.timeOut == StampOf(now) && 0 < c.ticks <= ticks && entered + ticks <= now + c.ticks
  {
    if now < entered + 0x1_0000_0000 {
      WithinOneWrap(entered, now);
    } else {
      var e := EpochOf(now) - EpochOf(entered);
      assert TickSub(TickOf(now), TickOf(entered)) <= now - entered by {
        assert now - entered == e * 0x1_0000_0000 + (TickOf(now) - TickOf(entered));
      }
    }
  }

  /** Away for less than one wrap, the check is exact and the deadline does not move at all. */
  lemma CheckIsExact(entered: nat, ticks: nat, now: nat)
    requires entered <= now < entered + 0x1_0000_0000 && ticks < MAX_DELAY
    ensures var c := CheckForTimeOut(StampOf(entered), ticks, now, false);
            && (c.expired <==> entered + ticks <= now)
            && (!c.expired ==> now + c.ticks == entered + ticks)
  {
    WithinOneWrap(entered, now);
  }

  /** Away for two wraps, the check can miss an expired wait: it is late, never early. */
  lemma CheckCanBeLate()
    ensures var entered, ticks, now := 10, 0xFFFF_FFFE, 0x2_0000_0005;
            && entered + ticks <= now
            && !CheckForTimeOut(StampOf(entered), ticks, now, false).expired
  {
  }

  lemma SameTick(from: nat, now: nat)
    requires from <= now
    ensures var m := (now - from) % 0x1_0000_0000; m <= now - from && TickOf(from + m) == TickOf(now)
  {
  }

  /** However long the caller was away: the check is right exactly if that was less than one wrap, or the
      overflow count shows that the tick of entry was passed again, or the 32-bit time away is long enough. */
  lemma CheckIsRightIff(entered: nat, ticks: nat, now: nat)
    requires entered <= now && ticks < MAX_DELAY
    ensures (CheckForTimeOut(StampOf(entered), ticks, now, false).expired <==> entered + ticks <= now) <==>
            || now < entered + 0x1_0000_0000
            || (Overflows(now) != Overflows(entered) && TickOf(entered) <= TickOf(now))
            || ticks <= (now - entered) % 0x1_0000_0000
  {
    SameTick(entered, now);
    WithinOneWrap(entered, entered + (now - entered) % 0x1_0000_0000);
    if now < entered + 0x1_0000_0000 {
      CheckIsExact(entered, ticks, now);
    }
  }

  /** The result of re-checking one wait at each of `times` in turn, stopping at the first timeout; no delay is aborted. */
  function CheckAll(t: TimeOut, ticks: nat, times: seq<nat>): Check
    decreases |times|
  {
    if times == [] then Check(false, t, ticks)
    else
      var c := CheckForTimeOut(t, ticks, times[0], false);
      if c.expired then c else CheckAll(c.timeOut, c.ticks, times[1..])
  }

  /** `times` are later and later instants after `from`, each less than one wrap after the one before. */
  ghost predicate Timely(from: nat, times: seq<nat>)
    decreases |times|
  {
    times == [] || (from <= times[0] < from + 0x1_0000_0000 && Timely(times[0], times[1..]))
  }

  /** Spurious wake-ups do not stretch or shorten a wait: however many there are, the wait is reported
      over exactly when one of the checks falls at or after the one deadline fixed on entry. */
  lemma {:induction false} DeadlineIsFixed(entered: nat, ticks: nat, times: seq<nat>)
    requires ticks < MAX_DELAY && Timely(entered, times)
    ensures CheckAll(StampOf(entered), ticks, times).expired
            <==> exists i :: 0 <= i < |times| && entered + ticks <= times[i]
    decreases |times|
  {
    if times != [] {
      var c := CheckForTimeOut(StampOf(entered), ticks, times[0], false);
      CheckIsExact(entered, ticks, times[0]);
      CheckIsNeverEarly(entered, ticks, times[0], false);
      if !c.expired {
        var rest := times[1..];
        assert forall i | 0 <= i < |rest| :: rest[i] == times[i + 1];
        DeadlineIsFixed(times[0], c.ticks, rest);
        if i :| 0 <= i < |times| && entered + ticks <= times[i] {
          assert rest[i - 1] == times[i];
        }
      }
    }
  }

  // ---------------------------------------------------------------- periodic delays

  datatype Periodic = Periodic(shouldDelay: bool, wakeTime: nat, ticks: nat)

  /** The decision taken by xTaskDelayUntil: whether to block, the new *pxPreviousWakeTime and for how long. */
  function DelayUntil(previous: nat, increment: nat, tick: nat): Periodic {
    var wake := TickAdd(previous, increment);
    var delay :=
      if tick < previous then wake < previous && wake > tick
      else wake < previous || wake > tick;
    Periodic(delay, wake, TickSub(wake, tick))
  }

  /** Called within one wrap of its previous target, the task blocks iff the next target is still ahead,
      and then for exactly the time left; the next target is always one increment further on. */
  lemma DelayUntilIsExact(target: nat, increment: nat, now: nat)
    requires 0 < increment < 0x1_0000_0000
    requires target <= now < target + 0x1_0000_0000
    ensures var p := DelayUntil(TickOf(target), increment, TickOf(now));
            && (p.shouldDelay <==> now < target + increment)
            && p.wakeTime == TickOf(target + increment)
            && (p.shouldDelay ==> p.ticks == target + increment - now)
  {
    WithinOneWrap(target, now);
    WithinOneWrap(target, target + increment);
    if now < target + increment {
      WithinOneWrap(now, target + increment);
    } else {
      WithinOneWrap(target + increment, now);
    }
  }

  /** A whole wrap late, the call blocks although its target has long passed. */
  lemma DelayUntilCanOversleep()
    ensures var target, increment, now := 0, 10, 0x1_0000_0005;
            target + increment <= now && DelayUntil(TickOf(target), increment, TickOf(now)).shouldDelay
  {
  }

  /** However late the call: the decision is right exactly if it comes within one wrap of the previous target,
      or so late that the time since then is longer than the increment even without the whole wraps in it. */
  lemma DelayUntilIsRightIff(target: nat, increment: nat, now: nat)
    requires 0 < increment < 0x1_0000_0000 && target <= now
    ensures (DelayUntil(TickOf(target), increment, TickOf(now)).shouldDelay <==> now < target + increment) <==>
            now < target + 0x1_0000_0000 || increment <= (now - target) % 0x1_0000_0000
  {
    SameTick(target, now);
    DelayUntilIsExact(target, increment, target + (now - target) % 0x1_0000_0000);
  }

  /** The wake times handed from each call of xTaskDelayUntil to the next, whatever the call times. */
  function Targets(previous: nat, increment: nat, ticks: seq<nat>): nat
    decreases |ticks|
  {
    if ticks == [] then previous
    else Targets(DelayUntil(previous, increment, ticks[0]).wakeTime, increment, ticks[1..])
  }

  lemma OneMorePeriod(start: nat, increment: nat, k: nat)
    ensures (start + increment) + k * increment == start + (k + 1) * increment
  {
  }

  /** The k-th target is start + k * increment: late calls do not make the period drift. */
  lemma {:induction false} TargetsDoNotDrift(start: nat, increment: nat, ticks: seq<nat>)
    requires 0 < increment < 0x1_0000_0000
    ensures Targets(TickOf(start), increment, ticks) == TickOf(start + |ticks| * increment)
    decreases |ticks|
  {
    if ticks != [] {
      assert DelayUntil(TickOf(start), increment, ticks[0]).wakeTime == TickOf(start + increment) by {
        WithinOneWrap(start, start + increment);
      }
      TargetsDoNotDrift(start + increment, increment, ticks[1..]);
      OneMorePeriod(start, increment, |ticks[1..]|);
    }
  }
}
