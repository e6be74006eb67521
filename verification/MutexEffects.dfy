/** What each event does to every mutex and every task that has to do with one, said without the steps. */
module MutexEffects {
  import opened Lists
  import opened Wrappers
  import opened Mutex

  /** The event gives the mutex up, and not just one level of it. */
  predicate GivesUp(s: State, e: Event) {
    e.Give? || (e.GiveNested? && e.m in s.mutexes && s.mutexes[e.m].depth <= 1)
  }

  function HolderAfter(s: State, e: Event, k: nat): Option<nat>
    requires k in s.mutexes
  {
    if e.Take? && e.m == k then Some(e.t) else if GivesUp(s, e) && e.m == k then None else s.mutexes[k].holder
  }

  /** How many levels of a recursive mutex are held. */
  function DepthAfter(s: State, e: Event, k: nat): int
    requires k in s.mutexes
  {
    var x := s.mutexes[k];
    if !x.recursive || e.Block? || e.Cut? || e.GiveUp? || e.m != k then x.depth
    else if e.Take? || e.TakeAgain? then x.depth + 1
    else x.depth - 1
  }

  function HeldAfter(s: State, e: Event, u: nat): int
    requires u in s.tasks
  {
    s.tasks[u].held + if e.t != u then 0 else if e.Take? then 1 else if GivesUp(s, e) then -1 else 0
  }

  /** Who runs at what priority after any event but the return from a take that timed out. */
  function PriorityAfter(s: State, e: Event, u: nat): nat
    requires u in s.tasks && e.t in s.tasks
  {
    var c := s.tasks[u];
    if e.Block? && e.m in s.mutexes && s.mutexes[e.m].holder == Some(u) && c.priority < s.tasks[e.t].priority then s.tasks[e.t].priority
    else if GivesUp(s, e) && e.t == u && c.held == 1 then c.base
    else c.priority
  }

  /** Who is on the waiting list of `k`. */
  predicate ListedAfter(s: State, e: Event, k: nat, u: nat)
    requires k in s.mutexes
  {
    var w := s.mutexes[k].waiting;
    if e.Block? && e.m == k && e.t == u then true
    else if e.Cut? && e.t == u then false
    else if GivesUp(s, e) && e.m == k && w != [] && w[0].owner == u then false
    else Has(w, u)
  }

  /** Who is in a take that has blocked, whether still listed or not. */
  predicate CallsAfter(s: State, e: Event, u: nat) {
    if (e.Take? || e.GiveUp?) && e.t == u then false else if e.Block? && e.t == u then true else u in s.waiters
  }

  ghost predicate MutexExpected(s: State, s': State, e: Event, k: nat)
    requires k in s.mutexes
  {
    && k in s'.mutexes && s'.mutexes[k].holder == HolderAfter(s, e, k) && s'.mutexes[k].depth == DepthAfter(s, e, k)
    && s'.mutexes[k].recursive == s.mutexes[k].recursive
    && forall u {:trigger Has(s'.mutexes[k].waiting, u)} :: Has(s'.mutexes[k].waiting, u) <==> ListedAfter(s, e, k, u)
  }

  ghost predicate TaskExpected(s: State, s': State, e: Event, u: nat)
    requires u in s.tasks && e.t in s.tasks
  {
    && u in s'.tasks && s'.tasks[u].base == s.tasks[u].base && s'.tasks[u].held == HeldAfter(s, e, u)
    && (!e.GiveUp? ==> s'.tasks[u].priority == PriorityAfter(s, e, u))
  }

  lemma EventNamesTask(s: State, e: Event)
    requires Accounts(s) && Enabled(s, e)
    ensures e.t in s.tasks
  {
    if e.Cut? || e.GiveUp? {
      assert WaiterOk(s, e.t);
    }
  }

  lemma BlockHasEffect(s: State, e: Event, k: nat)
    requires Accounts(s) && e.Block? && Enabled(s, e) && k in s.mutexes
    ensures MutexExpected(s, Step(s, e), e, k)
  {
    assert MutexOk(s, e.m) && MutexOk(s, k);
    var h := s.mutexes[e.m].holder.value;
    InheritIs(s, h, e.t, k);
    InheritIs(s, h, e.t, e.m);
    StillNotListed(s, h, e.t);
    var a := Inherit(s, h, e.t);
    HolderCounts(s, h, e.m);
    InheritKeepsAccounts(s, h, e.t, e.m);
    assert MutexOk(a, e.m);
    InsertKeepsMembers(a.mutexes[e.m].waiting, InsertPoint(a.mutexes[e.m].waiting, s.tasks[e.t].rank), Item(e.t, s.tasks[e.t].rank));
  }

  lemma GiveHasEffect(s: State, e: Event, k: nat)
    requires Accounts(s) && (e.Give? || e.GiveNested?) && Enabled(s, e) && k in s.mutexes
    ensures MutexExpected(s, Step(s, e), e, k)
  {
    assert MutexOk(s, k) && MutexOk(s, e.m);
    if s.mutexes[e.m].waiting != [] {
      TailKeepsMembers(s.mutexes[e.m].waiting);
    }
  }

  lemma WaitEndHasEffect(s: State, e: Event, k: nat)
    requires Accounts(s) && (e.Cut? || e.GiveUp?) && Enabled(s, e) && k in s.mutexes
    ensures MutexExpected(s, Step(s, e), e, k)
  {
    assert MutexOk(s, k) && WaiterOk(s, e.t);
    var m := s.waiters[e.t].mutex;
    assert MutexOk(s, m);
    if e.Cut? {
      RemoveKeepsMembers(s.mutexes[m].waiting, e.t);
      assert m != k ==> !Has(s.mutexes[k].waiting, e.t);
    } else {
      StepDownIs(s, m, k);
    }
  }

  lemma TakeHasEffect(s: State, e: Event, k: nat)
    requires Accounts(s) && (e.Take? || e.TakeAgain?) && Enabled(s, e) && k in s.mutexes
    ensures MutexExpected(s, Step(s, e), e, k)
  {
    assert MutexOk(s, k);
  }

  lemma MutexHasEffect(s: State, e: Event, k: nat)
    requires Accounts(s) && Enabled(s, e) && k in s.mutexes
    ensures MutexExpected(s, Step(s, e), e, k)
  {
    if e.Block? {
      BlockHasEffect(s, e, k);
    } else if e.Give? || e.GiveNested? {
      GiveHasEffect(s, e, k);
    } else if e.Take? || e.TakeAgain? {
      TakeHasEffect(s, e, k);
    } else {
      WaitEndHasEffect(s, e, k);
    }
  }

  lemma GiveHasEffectOnTask(s: State, e: Event, u: nat)
    requires Accounts(s) && (e.Give? || e.GiveNested?) && Enabled(s, e) && u in s.tasks && e.t in s.tasks
    ensures TaskExpected(s, Step(s, e), e, u)
  {
    HolderCounts(s, e.t, e.m);
    assert TaskOk(s, u);
  }

  lemma TaskHasEffect(s: State, e: Event, u: nat)
    requires Accounts(s) && Enabled(s, e) && u in s.tasks && e.t in s.tasks
    ensures TaskExpected(s, Step(s, e), e, u)
  {
    if e.Give? || e.GiveNested? {
      GiveHasEffectOnTask(s, e, u);
    } else if e.Block? {
      assert MutexOk(s, e.m);
      InheritPriorities(s, s.mutexes[e.m].holder.value, e.t);
      SetPriorityIs(s, s.mutexes[e.m].holder.value, s.tasks[e.t].priority);
    } else if e.GiveUp? {
      assert WaiterOk(s, e.t) && MutexOk(s, s.waiters[e.t].mutex);
      StepDownIsOnTask(s, s.waiters[e.t].mutex, u);
    }
  }

  lemma StepDownIsOnTask(s: State, m: nat, u: nat)
    requires m in s.mutexes && MutexOk(s, m) && u in s.tasks
    ensures var s' := DisinheritAfterTimeout(s, m);
            u in s'.tasks && s'.tasks[u].base == s.tasks[u].base && s'.tasks[u].held == s.tasks[u].held
  {
    if s.mutexes[m].holder.Some? {
      SetPriorityIs(s, s.mutexes[m].holder.value, StepDownTo(s, m));
    }
  }

  lemma CallsHaveEffect(s: State, e: Event, u: nat)
    requires Accounts(s) && Enabled(s, e)
    ensures u in Step(s, e).waiters <==> CallsAfter(s, e, u)
  {
    match e {
      case Block(t, m) =>
        assert MutexOk(s, m);
        InheritIs(s, s.mutexes[m].holder.value, t, m);
      case GiveUp(t) =>
        assert WaiterOk(s, t) && MutexOk(s, s.waiters[t].mutex);
        StepDownIs(s, s.waiters[t].mutex, s.waiters[t].mutex);
      case _ =>
    }
  }

  /** Every event does to every mutex, to every task and to the takes under way exactly what is expected of it. */
  lemma StepHasEffect(s: State, e: Event)
    requires Accounts(s) && Enabled(s, e)
    ensures e.t in s.tasks
    ensures forall k | k in s.mutexes :: MutexExpected(s, Step(s, e), e, k)
    ensures forall u | u in s.tasks :: TaskExpected(s, Step(s, e), e, u)
    ensures forall u :: u in Step(s, e).waiters <==> CallsAfter(s, e, u)
  {
    EventNamesTask(s, e);
    forall k | k in s.mutexes
      ensures MutexExpected(s, Step(s, e), e, k)
    {
      MutexHasEffect(s, e, k);
    }
    forall u | u in s.tasks
      ensures TaskExpected(s, Step(s, e), e, u)
    {
      TaskHasEffect(s, e, u);
    }
    forall u
      ensures u in Step(s, e).waiters <==> CallsAfter(s, e, u)
    {
      CallsHaveEffect(s, e, u);
    }
  }

  /** vTaskPrioritySet: the base becomes what is asked for, or the highest priority there is; the priority only goes with
      it if nothing has been inherited; and the item, listed or not, gets the value of a new base. */
  lemma PrioritySetHasEffect(s: State, t: nat, p: nat)
    requires Accounts(s) && t in s.tasks && s.maxPriorities > 0
    ensures var c, s' := s.tasks[t], PrioritySet(s, t, p);
            && t in s'.tasks && s'.waiters == s.waiters
            && (var c' := s'.tasks[t];
                && c'.base < s.maxPriorities && c'.base <= p && (c'.base == p || c'.base + 1 == s.maxPriorities) && c'.held == c.held
                && c'.priority == (if c.priority == c.base then c'.base else c.priority)
                && c'.rank == (if c'.base == c.base then c.rank else s.maxPriorities - c'.base)
                && forall k, i | k in s.mutexes && 0 <= i < |s.mutexes[k].waiting| && s.mutexes[k].waiting[i].owner == t ::
                     k in s'.mutexes && |s'.mutexes[k].waiting| == |s.mutexes[k].waiting|
                     && s'.mutexes[k].waiting[i].owner == t
                     && (c'.base != c.base ==> s'.mutexes[k].waiting[i].value == s.maxPriorities - c'.base))
            && (forall u | u in s.tasks && u != t :: u in s'.tasks && s'.tasks[u] == s.tasks[u])
            && (forall k | k in s.mutexes ::
                  k in s'.mutexes && s'.mutexes[k].holder == s.mutexes[k].holder && s'.mutexes[k].depth == s.mutexes[k].depth)
  {
    PrioritySetIs(s, t, p);
    forall k, i | k in s.mutexes && 0 <= i < |s.mutexes[k].waiting| && s.mutexes[k].waiting[i].owner == t
      ensures Listed(s, t) && s.waiters[t].mutex == k
    {
      assert MutexOk(s, k) && Has(s.mutexes[k].waiting, t);
    }
  }
}
